/** The cap on effective rates: when a transaction is never given a better rate than one of its in-pool
    ancestors, and when a package that pays nothing breaks this. */
module RateCaps {
  import opened Collections
  import opened PackageGraph
  import opened Relatives
  import opened Selection
  import opened Sorting
  import opened Packaging

  /** "x", taken by pick "k", got a better rate than its ancestor "a", taken by pick "j". */
  ghost predicate OverCap(anc: Links, picks: seq<Pick>, j: nat, k: nat, x: Id, a: Id) {
    && j < |picks| && k < |picks| && x in picks[k].cluster && a in picks[j].cluster
    && x in anc && a in anc[x] && picks[k].rate > picks[j].rate
  }

  ghost predicate CapsHold(anc: Links, picks: seq<Pick>) {
    forall j: nat, k: nat, x: Id, a: Id :: !OverCap(anc, picks, j, k, x, a)
  }

  // ---------- a rate of zero reads as "unset" ----------

  /** Unless a pick that took an ancestor of "x" had rate zero, the dependency rate bounds all their rates. */
  lemma {:induction false} DependencyRateBound(anc: Links, picks: seq<Pick>, initial: real, x: Id, j: nat)
    requires x in anc && j < |picks| && TakesAncestorOf(anc, picks[j], x)
    requires forall i :: 0 <= i < |picks| && TakesAncestorOf(anc, picks[i], x) ==> picks[i].rate != 0.0
    ensures 0.0 != DependencyRate(anc, picks, initial, x) <= picks[j].rate
  {
    var n := |picks| - 1;
    var before := picks[..n];
    if j < n {
      assert before[j] == picks[j];
      DependencyRateBound(anc, before, initial, x, j);
    }
  }

  /** A transaction is never given a better rate than one of its in-pool ancestors, unless a pick of rate
      zero took an ancestor of its package root before. */
  lemma RateCap(g: Graph, anc: Links, unit: nat, initial: map<Id, real>, picks: seq<Pick>, j: nat, k: nat, x: Id, a: Id)
    requires Dag(g, anc) && ValidPicks(g, anc, unit, initial, picks)
    requires j < |picks| && k < |picks| && x in picks[k].cluster && a in picks[j].cluster && x in anc && a in anc[x]
    requires picks[k].cluster != [] && forall i :: 0 <= i < k && TakesAncestorOf(anc, picks[i], Root(picks[k])) ==> picks[i].rate != 0.0
    ensures picks[k].rate <= picks[j].rate
  {
    hide *;
    var i := AncestorsComeFirst(g, anc, unit, initial, picks, k, x, a);
    PickUnique(g, anc, unit, initial, picks, i, j, a);
    if j < k {
      DependsOnPick(g, anc, unit, initial, picks, j, k, x, a);
      CapOnLaterPick(g, anc, unit, initial, picks, j, k);
    }
  }

  lemma CapOnLaterPick(g: Graph, anc: Links, unit: nat, initial: map<Id, real>, picks: seq<Pick>, j: nat, k: nat)
    requires Dag(g, anc) && ValidPicks(g, anc, unit, initial, picks)
    requires j < k < |picks| && picks[k].cluster != [] && TakesAncestorOf(anc, picks[j], Root(picks[k]))
    requires forall i :: 0 <= i < k && TakesAncestorOf(anc, picks[i], Root(picks[k])) ==> picks[i].rate != 0.0
    ensures picks[k].rate <= picks[j].rate
  {
    var p, before := picks[k], picks[..k];
    assert ValidPick(g, anc, unit, initial, before, p);
    hide Dag, ValidPicks, Distinct, ParentsFirst, Package, Gone, FreshTotals;
    assert before[j] == picks[j];
    DependencyRateBound(anc, before, InitialRate(initial, Root(p)), Root(p), j);
  }

  /** Pick "k" has a positive rate, although its root depends on a transaction taken before at rate zero. */
  ghost predicate Forgets(anc: Links, picks: seq<Pick>, j: nat, k: nat) {
    && j < k < |picks| && picks[k].cluster != [] && picks[j].rate == 0.0 && picks[k].rate > 0.0
    && TakesAncestorOf(anc, picks[j], Root(picks[k]))
  }

  lemma CapsByPicks(g: Graph, anc: Links, unit: nat, initial: map<Id, real>, picks: seq<Pick>, j: nat, k: nat, x: Id, a: Id)
    requires Dag(g, anc) && ValidPicks(g, anc, unit, initial, picks)
    requires forall i :: 0 <= i < |picks| ==> picks[i].rate >= 0.0
    requires forall i: nat, i': nat :: !Forgets(anc, picks, i, i')
    ensures !OverCap(anc, picks, j, k, x, a)
  {
    hide *;
    if OverCap(anc, picks, j, k, x, a) {
      OverCapParts(anc, picks, j, k, x, a);
      var p := picks[k];
      NotEmpty(p, x);
      forall i: nat | i < k && TakesAncestorOf(anc, picks[i], Root(p)) ensures picks[i].rate != 0.0 {
        assert !Forgets(anc, picks, i, k);
        ForgetsZero(anc, picks, i, k);
      }
      RateCap(g, anc, unit, initial, picks, j, k, x, a);
    }
  }

  lemma NotEmpty(p: Pick, x: Id)
    requires x in p.cluster
    ensures p.cluster != []
  {
  }

  lemma ForgetsZero(anc: Links, picks: seq<Pick>, i: nat, k: nat)
    requires i < k < |picks| && picks[k].cluster != [] && TakesAncestorOf(anc, picks[i], Root(picks[k]))
    requires picks[k].rate > 0.0 && !Forgets(anc, picks, i, k)
    ensures picks[i].rate != 0.0
  {
  }

  lemma OverCapParts(anc: Links, picks: seq<Pick>, j: nat, k: nat, x: Id, a: Id)
    requires OverCap(anc, picks, j, k, x, a)
    ensures j < |picks| && k < |picks| && picks[k].rate > picks[j].rate
    ensures a in picks[j].cluster && x in picks[k].cluster && x in anc && a in anc[x]
  {
  }

  lemma DependsOnPick(g: Graph, anc: Links, unit: nat, initial: map<Id, real>, picks: seq<Pick>, j: nat, k: nat, x: Id, a: Id)
    requires Dag(g, anc) && ValidPicks(g, anc, unit, initial, picks) && j < k < |picks|
    requires a in picks[j].cluster && x in picks[k].cluster && x in anc && a in anc[x]
    ensures picks[k].cluster != [] && TakesAncestorOf(anc, picks[j], Root(picks[k]))
  {
    assert ValidPick(g, anc, unit, initial, picks[..k], picks[k]);
    hide ValidPicks, FreshTotals, DependencyRate, Gone, ParentsFirst;
    RootDependsOn(g, anc, unit, initial, picks[..k], picks[k], x, a);
    assert a in Elements(picks[j].cluster) && a in anc[Root(picks[k])];
  }

  /** For non-negative rates, all caps hold exactly if no zero rate is forgotten. */
  lemma CapsIffNoneForgotten(g: Graph, anc: Links, unit: nat, initial: map<Id, real>, picks: seq<Pick>)
    requires Dag(g, anc) && ValidPicks(g, anc, unit, initial, picks)
    requires forall i :: 0 <= i < |picks| ==> picks[i].rate >= 0.0
    ensures CapsHold(anc, picks) <==> forall j: nat, k: nat :: !Forgets(anc, picks, j, k)
  {
    if CapsHold(anc, picks) {
      forall j: nat, k: nat ensures !Forgets(anc, picks, j, k) {
        if Forgets(anc, picks, j, k) {
          var root := Root(picks[k]);
          var both := Elements(picks[j].cluster) * anc[root];
          NonEmpty(both);
          var a :| a in both;
          assert OverCap(anc, picks, j, k, root, a);
        }
      }
    }
    if forall j: nat, k: nat :: !Forgets(anc, picks, j, k) {
      forall j: nat, k: nat, x: Id, a: Id ensures !OverCap(anc, picks, j, k, x, a) {
        CapsByPicks(g, anc, unit, initial, picks, j, k, x, a);
      }
    }
  }

  // ---------- the same in terms of fees ----------

  ghost predicate NonNegativeFees(g: Graph, unit: nat) {
    unit > 0 && forall x :: x in g ==> g[x].fee >= 0
  }

  ghost predicate NonNegative(initial: map<Id, real>) {
    forall x :: x in initial ==> initial[x] >= 0.0
  }

  lemma RateSign(unit: nat, fee: int, size: int)
    requires unit > 0 && fee >= 0 && size > 0
    ensures Rate(unit, fee, size) >= 0.0 && (Rate(unit, fee, size) == 0.0 <==> fee == 0)
  {
    var top := unit as real * fee as real;
    assert top >= 0.0 && (top == 0.0 <==> fee == 0);
    QuotientSign(top, size as real);
  }

  lemma QuotientSign(top: real, size: real)
    requires top >= 0.0 && size > 0.0
    ensures top / size >= 0.0 && (top / size == 0.0 <==> top == 0.0)
  {
    assert top == top / size * size;
  }

  lemma ScoreSign(g: Graph, anc: Links, unit: nat, x: Id, gone: set<Id>)
    requires Dag(g, anc) && x in g && NonNegativeFees(g, unit)
    ensures FreshTotals(g, anc, unit, x, gone).score >= 0.0
    ensures FreshTotals(g, anc, unit, x, gone).score == 0.0 <==> Total(Fees(g), Package(anc, x, gone)) == 0
  {
    var p := Package(anc, x, gone);
    SizePositive(g, p, x);
    TotalNonNegative(Fees(g), p);
    RateSign(unit, Total(Fees(g), p), Total(Sizes(g), p));
  }

  lemma {:induction false} DependencyRateSign(anc: Links, picks: seq<Pick>, initial: real, x: Id)
    requires x in anc && initial >= 0.0 && forall k :: 0 <= k < |picks| ==> picks[k].rate >= 0.0
    ensures DependencyRate(anc, picks, initial, x) >= 0.0
  {
    if picks != [] {
      DependencyRateSign(anc, picks[..|picks| - 1], initial, x);
    }
  }

  lemma PickRateSign(g: Graph, anc: Links, unit: nat, initial: map<Id, real>, before: seq<Pick>, p: Pick)
    requires NonNegativeFees(g, unit) && NonNegative(initial)
    requires Dag(g, anc) && ValidPick(g, anc, unit, initial, before, p)
    requires forall k :: 0 <= k < |before| ==> before[k].rate >= 0.0
    ensures p.rate >= 0.0 && (p.rate == 0.0 <==> Total(Fees(g), Elements(p.cluster)) == 0)
  {
    var root := Root(p);
    DependencyRateSign(anc, before, InitialRate(initial, root), root);
    ScoreSign(g, anc, unit, root, Gone(before));
    hide Dag, NonNegativeFees, FreshTotals, DependencyRate, ParentsFirst, Distinct;
  }

  /** With non-negative fees a package's rate is never negative, and zero exactly if the package pays nothing. */
  lemma {:induction false} ZeroRateMeansFree(g: Graph, anc: Links, unit: nat, initial: map<Id, real>, picks: seq<Pick>, k: nat)
    requires NonNegativeFees(g, unit) && NonNegative(initial) && k < |picks|
    requires Dag(g, anc) && ValidPicks(g, anc, unit, initial, picks)
    ensures picks[k].rate >= 0.0 && (picks[k].rate == 0.0 <==> Total(Fees(g), Elements(picks[k].cluster)) == 0)
  {
    assert ValidPick(g, anc, unit, initial, picks[..k], picks[k]);
    hide *;
    forall j | 0 <= j < k ensures picks[..k][j].rate >= 0.0 {
      ZeroRateMeansFree(g, anc, unit, initial, picks, j);
    }
    PickRateSign(g, anc, unit, initial, picks[..k], picks[k]);
  }

  lemma PositiveRates(g: Graph, anc: Links, unit: nat, initial: map<Id, real>, picks: seq<Pick>, k: nat)
    requires unit > 0 && (forall x :: x in g ==> g[x].fee > 0) && NonNegative(initial) && k < |picks|
    requires Dag(g, anc) && ValidPicks(g, anc, unit, initial, picks)
    ensures picks[k].rate > 0.0
  {
    ZeroRateMeansFree(g, anc, unit, initial, picks, k);
    var p := picks[k];
    assert ValidPick(g, anc, unit, initial, picks[..k], p);
    PickInPool(g, anc, unit, initial, picks[..k], p);
    hide Dag, ValidPicks, ValidPick, Distinct, Gone;
    if Total(Fees(g), Elements(p.cluster)) == 0 {
      FreeMember(g, unit, Elements(p.cluster), Root(p));
    }
  }

  /** Pick "k" pays something, although its root depends on a transaction of an earlier pick that pays nothing. */
  ghost predicate PaysAfterFree(g: Graph, anc: Links, picks: seq<Pick>, j: nat, k: nat) {
    && j < k < |picks| && picks[k].cluster != []
    && Total(Fees(g), Elements(picks[j].cluster)) == 0 && Total(Fees(g), Elements(picks[k].cluster)) != 0
    && TakesAncestorOf(anc, picks[j], Root(picks[k]))
  }

  /** With non-negative fees, a run respects all caps if and only if no package that pays depends on an
      earlier one that does not. */
  lemma CapsIffNoFreePackage(g: Graph, anc: Links, unit: nat, initial: map<Id, real>, picks: seq<Pick>)
    requires NonNegativeFees(g, unit) && NonNegative(initial)
    requires Dag(g, anc) && ValidPicks(g, anc, unit, initial, picks)
    ensures CapsHold(anc, picks) <==> forall j: nat, k: nat :: !PaysAfterFree(g, anc, picks, j, k)
  {
    hide *;
    forall k: nat | k < |picks|
      ensures picks[k].rate >= 0.0 && (picks[k].rate == 0.0 <==> Total(Fees(g), Elements(picks[k].cluster)) == 0)
    {
      ZeroRateMeansFree(g, anc, unit, initial, picks, k);
    }
    CapsIffNoneForgotten(g, anc, unit, initial, picks);
    forall j: nat, k: nat ensures Forgets(anc, picks, j, k) <==> PaysAfterFree(g, anc, picks, j, k) {
      SameForgetting(g, anc, picks, j, k);
    }
  }

  lemma SameForgetting(g: Graph, anc: Links, picks: seq<Pick>, j: nat, k: nat)
    requires forall i: nat :: i < |picks| ==>
      picks[i].rate >= 0.0 && (picks[i].rate == 0.0 <==> Total(Fees(g), Elements(picks[i].cluster)) == 0)
    ensures Forgets(anc, picks, j, k) <==> PaysAfterFree(g, anc, picks, j, k)
  {
    hide Total, Elements, TakesAncestorOf;
  }

  // ---------- the last block never breaks a cap ----------

  /** Once the best package pays nothing, nothing that is left pays. */
  lemma NothingLeftPays(g: Graph, anc: Links, unit: nat, initial: map<Id, real>, picks: seq<Pick>, j: nat, k: nat)
    requires NonNegativeFees(g, unit) && Dag(g, anc) && ValidPicks(g, anc, unit, initial, picks) && BestRoots(g, anc, unit, picks)
    requires j < k < |picks| && Total(Fees(g), Elements(picks[j].cluster)) == 0
    ensures Total(Fees(g), Elements(picks[k].cluster)) == 0
  {
    var before, before' := Gone(picks[..j]), Gone(picks[..k]);
    assert ValidPick(g, anc, unit, initial, picks[..j], picks[j]) && ValidPick(g, anc, unit, initial, picks[..k], picks[k]);
    assert BestOf(g, anc, unit, before, {}, Root(picks[j]));
    assert picks[..k][..j] == picks[..j];
    GoneMonotone(picks[..k], j);
    var root := Root(picks[k]);
    ScoreSign(g, anc, unit, Root(picks[j]), before);
    ScoreSign(g, anc, unit, root, before);
    FewerPay(g, anc, unit, root, before, before');
  }

  lemma FewerPay(g: Graph, anc: Links, unit: nat, x: Id, gone: set<Id>, gone': set<Id>)
    requires NonNegativeFees(g, unit) && Dag(g, anc) && x in g && gone <= gone' && Total(Fees(g), Package(anc, x, gone)) == 0
    ensures Total(Fees(g), Package(anc, x, gone')) == 0
  {
    TotalMonotone(Fees(g), Package(anc, x, gone'), Package(anc, x, gone));
    TotalNonNegative(Fees(g), Package(anc, x, gone'));
  }

  /** If every package root was the best of all transactions left, all caps hold, zero rates or not. */
  lemma BestFirstCapped(g: Graph, anc: Links, unit: nat, initial: map<Id, real>, picks: seq<Pick>)
    requires NonNegativeFees(g, unit) && NonNegative(initial)
    requires Dag(g, anc) && ValidPicks(g, anc, unit, initial, picks) && BestRoots(g, anc, unit, picks)
    ensures CapsHold(anc, picks)
  {
    hide *;
    CapsIffNoFreePackage(g, anc, unit, initial, picks);
    forall j: nat, k: nat ensures !PaysAfterFree(g, anc, picks, j, k) {
      if PaysAfterFree(g, anc, picks, j, k) {
        PaysAfterFreeParts(g, anc, picks, j, k);
        NothingLeftPays(g, anc, unit, initial, picks, j, k);
      }
    }
  }

  lemma PaysAfterFreeParts(g: Graph, anc: Links, picks: seq<Pick>, j: nat, k: nat)
    requires PaysAfterFree(g, anc, picks, j, k)
    ensures j < k < |picks| && picks[k].cluster != [] && TakesAncestorOf(anc, picks[j], Root(picks[k]))
    ensures Total(Fees(g), Elements(picks[j].cluster)) == 0 && Total(Fees(g), Elements(picks[k].cluster)) != 0
  {
  }

  // ---------- which pools always respect the caps ----------

  /** What a package has besides one of its ancestors and what comes before that. */
  ghost function Beyond(anc: Links, x: Id, a: Id): set<Id>
    requires x in anc && a in anc
  {
    {x} + anc[x] - ({a} + anc[a])
  }

  /** "a" is free, and a package on top of it pays. */
  ghost predicate PaysOnFree(g: Graph, anc: Links, x: Id, a: Id) {
    x in g && x in anc && a in anc[x] && a in anc && a in g && g[a].fee == 0 && Total(Fees(g), Beyond(anc, x, a)) != 0
  }

  lemma FreeMember(g: Graph, unit: nat, s: set<Id>, a: Id)
    requires NonNegativeFees(g, unit) && a in s && s <= g.Keys && Total(Fees(g), s) == 0
    ensures g[a].fee == 0
  {
    TotalSplit(Fees(g), s, a);
    TotalNonNegative(Fees(g), s - {a});
  }

  lemma FreePackageBelow(g: Graph, anc: Links, unit: nat, initial: map<Id, real>, picks: seq<Pick>, j: nat, k: nat) returns (a: Id)
    requires NonNegativeFees(g, unit) && Dag(g, anc) && ValidPicks(g, anc, unit, initial, picks)
    requires PaysAfterFree(g, anc, picks, j, k)
    ensures PaysOnFree(g, anc, Root(picks[k]), a)
  {
    var before, p, q := picks[..k], picks[j], picks[k];
    var root := Root(q);
    var both := Elements(p.cluster) * anc[root];
    NonEmpty(both);
    a :| a in both;
    assert ValidPick(g, anc, unit, initial, picks[..j], p) && ValidPick(g, anc, unit, initial, before, q);
    TakenBefore(g, anc, unit, initial, picks, j, k, a);
    PickInPool(g, anc, unit, initial, picks[..j], p);
    FreeMember(g, unit, Elements(p.cluster), a);
    var rest := Beyond(anc, root, a);
    assert Package(anc, root, Gone(before)) <= rest;
    TotalMonotone(Fees(g), Package(anc, root, Gone(before)), rest);
    TotalNonNegative(Fees(g), Package(anc, root, Gone(before)));
  }

  lemma TakenBefore(g: Graph, anc: Links, unit: nat, initial: map<Id, real>, picks: seq<Pick>, j: nat, k: nat, a: Id)
    requires Dag(g, anc) && ValidPicks(g, anc, unit, initial, picks) && j < k < |picks| && a in picks[j].cluster
    ensures a in anc && {a} + anc[a] <= Gone(picks[..k])
  {
    assert a in Elements(picks[j].cluster);
    assert picks[..k][..j + 1] == picks[..j + 1];
    GoneAt(picks, j);
    GoneMonotone(picks[..k], j + 1);
    Prefix(g, anc, unit, initial, picks, k);
    TakenAncestors(g, anc, unit, initial, picks[..k]);
  }

  ghost function Listing(s: set<Id>): (r: seq<Id>)
    ensures Distinct(r) && Elements(r) == s
  {
    if s == {} then [] else
    var x := AnyOf(s);
    var r := Listing(s - {x});
    assert forall i :: 0 <= i < |r| ==> r[i] in Elements(r);
    assert Elements(r + [x]) == Elements(r) + {x};
    r + [x]
  }

  lemma SizesOf(g: Graph, anc: Links, gone: set<Id>, ancestors: seq<Id>, root: Id) returns (sizes: Keys)
    requires Dag(g, anc) && root in g && root in anc && Elements(ancestors) == anc[root] - gone
    ensures KeyedBySize(g, anc, gone, sizes) && Keyed(sizes, ancestors)
  {
    sizes := map x | x in anc :: Key(|anc[x] - gone| as real, 0);
    assert forall i :: 0 <= i < |ancestors| ==> ancestors[i] in Elements(ancestors);
  }

  /** What is left of a package can be put in dependency order. */
  lemma SomeOrder(g: Graph, anc: Links, gone: set<Id>, root: Id) returns (cluster: seq<Id>)
    requires Dag(g, anc) && root in g
    ensures cluster != [] && cluster[|cluster| - 1] == root
    ensures Distinct(cluster) && Elements(cluster) == Package(anc, root, gone) && ParentsFirst(anc, cluster)
  {
    hide *;
    InGraph(g, anc, root);
    var ancestors := Listing(anc[root] - gone);
    var sizes := SizesOf(g, anc, gone, ancestors, root);
    var sorted := SortBy(sizes, ancestors);
    SameElements(ancestors, sorted);
    SizeOrderIsTopological(g, anc, gone, sizes, sorted, root);
    cluster := sorted + [root];
  }

  /** Whoever is left can be taken next. */
  lemma SomePick(g: Graph, anc: Links, unit: nat, initial: map<Id, real>, before: seq<Pick>, root: Id) returns (p: Pick)
    requires Dag(g, anc) && root in g && root !in Gone(before)
    ensures ValidPick(g, anc, unit, initial, before, p) && Root(p) == root
  {
    var cluster := SomeOrder(g, anc, Gone(before), root);
    hide Dag, Distinct, Elements, ParentsFirst, Gone, Package, FreshTotals, DependencyRate;
    var t := FreshTotals(g, anc, unit, root, Gone(before));
    p := Pick(cluster, Capped(DependencyRate(anc, before, InitialRate(initial, root), root), t.score));
  }

  /** Any set that is closed under ancestors can be taken completely and without anything else. */
  lemma {:induction false} TakeAll(g: Graph, anc: Links, unit: nat, initial: map<Id, real>, s: set<Id>, picks: seq<Pick>) returns (more: seq<Pick>)
    requires Dag(g, anc) && s <= g.Keys && (forall x :: x in s ==> anc[x] <= s)
    requires ValidPicks(g, anc, unit, initial, picks) && Gone(picks) <= s
    ensures ValidPicks(g, anc, unit, initial, more) && Gone(more) == s
    decreases s - Gone(picks)
  {
    if s == Gone(picks) {
      more := picks;
    } else {
      NonEmpty(s - Gone(picks));
      var x :| x in s - Gone(picks);
      var p := SomePick(g, anc, unit, initial, picks, x);
      Extended(g, anc, unit, initial, picks, p);
      assert x in Elements(p.cluster);
      more := TakeAll(g, anc, unit, initial, s, picks + [p]);
    }
  }

  lemma PickIsPackage(g: Graph, anc: Links, unit: nat, initial: map<Id, real>, before: seq<Pick>, p: Pick)
    requires ValidPick(g, anc, unit, initial, before, p)
    ensures p.cluster != [] && Elements(p.cluster) == Package(anc, Root(p), Gone(before))
  {
  }

  lemma PackagesOnFree(g: Graph, anc: Links, x: Id, a: Id)
    requires Dag(g, anc) && PaysOnFree(g, anc, x, a)
    ensures a in g && a in anc && anc[a] <= g.Keys && a !in anc[a] && (forall b :: b in anc[a] ==> anc[b] <= anc[a])
    ensures Package(anc, a, anc[a]) == {a} && Total(Fees(g), {a}) == 0
    ensures x in g && x !in anc[a] + {a} && Package(anc, x, anc[a] + {a}) == Beyond(anc, x, a) && Total(Fees(g), Beyond(anc, x, a)) != 0
  {
    TotalSplit(Fees(g), {a}, a);
  }

  lemma TwoMorePicks(g: Graph, anc: Links, picks: seq<Pick>, p: Pick, q: Pick, x: Id, a: Id)
    requires PaysOnFree(g, anc, x, a) && p.cluster != [] && Elements(p.cluster) == {a} && Total(Fees(g), {a}) == 0
    requires q.cluster != [] && Root(q) == x && Elements(q.cluster) == Beyond(anc, x, a)
    ensures PaysAfterFree(g, anc, picks + [p] + [q], |picks|, |picks| + 1)
  {
    assert a in Elements(p.cluster);
    assert TakesAncestorOf(anc, p, x);
    hide Elements, TakesAncestorOf, Beyond, Total;
  }

  /** A pool in which a package pays on top of a free transaction has a run that breaks a cap: first the
      ancestors of the free transaction, then that one alone, then the package. */
  lemma SomeRunBreaksCap(g: Graph, anc: Links, unit: nat, initial: map<Id, real>, x: Id, a: Id) returns (picks: seq<Pick>)
    requires NonNegativeFees(g, unit) && NonNegative(initial) && Dag(g, anc) && PaysOnFree(g, anc, x, a)
    ensures ValidPicks(g, anc, unit, initial, picks) && !CapsHold(anc, picks)
  {
    PackagesOnFree(g, anc, x, a);
    NothingPicked(g, anc, unit, initial);
    hide *;
    var first := TakeAll(g, anc, unit, initial, anc[a], []);
    var p := SomePick(g, anc, unit, initial, first, a);
    Extended(g, anc, unit, initial, first, p);
    PickIsPackage(g, anc, unit, initial, first, p);
    var q := SomePick(g, anc, unit, initial, first + [p], x);
    Extended(g, anc, unit, initial, first + [p], q);
    PickIsPackage(g, anc, unit, initial, first + [p], q);
    TwoMorePicks(g, anc, first, p, q, x, a);
    picks := first + [p] + [q];
    CapsIffNoFreePackage(g, anc, unit, initial, picks);
  }

  lemma NothingPicked(g: Graph, anc: Links, unit: nat, initial: map<Id, real>)
    ensures ValidPicks(g, anc, unit, initial, []) && Gone([]) == {}
  {
  }

  /** With non-negative fees, every run of a pool respects the caps if and only if no package pays on top
      of a free transaction. */
  lemma AlwaysCapped(g: Graph, anc: Links, unit: nat, initial: map<Id, real>)
    requires NonNegativeFees(g, unit) && NonNegative(initial) && Dag(g, anc)
    ensures (forall picks :: ValidPicks(g, anc, unit, initial, picks) ==> CapsHold(anc, picks))
       <==> (forall x, a :: !PaysOnFree(g, anc, x, a))
  {
    hide *;
    if forall x, a :: !PaysOnFree(g, anc, x, a) {
      forall picks | ValidPicks(g, anc, unit, initial, picks) ensures CapsHold(anc, picks) {
        CapsIffNoFreePackage(g, anc, unit, initial, picks);
        forall j: nat, k: nat ensures !PaysAfterFree(g, anc, picks, j, k) {
          if PaysAfterFree(g, anc, picks, j, k) {
            PaysAfterFreeParts(g, anc, picks, j, k);
            var a := FreePackageBelow(g, anc, unit, initial, picks, j, k);
          }
        }
      }
    }
    if x, a :| PaysOnFree(g, anc, x, a) {
      var picks := SomeRunBreaksCap(g, anc, unit, initial, x, a);
    }
  }
}
