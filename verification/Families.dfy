/** What a pick means for the parents of its members, and where its rate comes from. */
module Families {
  import opened Collections
  import opened PackageGraph
  import opened Relatives
  import opened Selection
  import opened Packaging
  import opened RateCaps

  // ---------- along the inputs ----------

  lemma FewerAncestors(g: Graph, anc: Links, x: Id, p: Id)
    requires Dag(g, anc) && x in anc && p in anc[x]
    ensures p in anc && anc[p] <= anc[x] && |anc[p]| < |anc[x]|
  {
    ProperSubsetSmaller(anc[p], anc[x], p);
  }

  /** On the way from "x" to an ancestor outside "s", some member of "s" spends a transaction outside. */
  lemma {:induction false} Crossing(g: Graph, anc: Links, s: set<Id>, x: Id, a: Id) returns (m: Id, q: Id)
    requires Dag(g, anc) && Generated(g, anc) && x in s && x in anc && a in anc[x] && a !in s
    ensures m in s && q !in s && IsParent(g, q, m) && q in anc && (q == a || a in anc[q])
    decreases |anc[x]|
  {
    assert ThroughParent(g, anc, x, a);
    var p :| IsParent(g, p, x) && (p == a || (p in anc && a in anc[p]));
    assert p in anc[x];
    FewerAncestors(g, anc, x, p);
    if p !in s {
      m, q := x, p;
    } else {
      m, q := Crossing(g, anc, s, p, a);
    }
  }

  /** The last step of the way from "x" to an ancestor. */
  lemma {:induction false} Spender(g: Graph, anc: Links, x: Id, a: Id) returns (m: Id)
    requires Dag(g, anc) && Generated(g, anc) && x in anc && a in anc[x]
    ensures IsParent(g, a, m) && m in anc && a in anc[m] && (m == x || m in anc[x])
    decreases |anc[x]|
  {
    assert ThroughParent(g, anc, x, a);
    var p :| IsParent(g, p, x) && (p == a || (p in anc && a in anc[p]));
    assert p in anc[x];
    FewerAncestors(g, anc, x, p);
    if p == a {
      m := x;
    } else {
      m := Spender(g, anc, p, a);
    }
  }

  // ---------- a pick in terms of inputs, fees and sizes ----------

  /** What each transaction spends of the others. */
  ghost function InputsIn(g: Graph): Links {
    map x | x in g :: set q | q in g && IsParent(g, q, x)
  }

  ghost predicate Spends(inputs: Links, x: Id, q: Id) {
    x in inputs && q in inputs[x]
  }

  ghost predicate TakenEarlier(picks: seq<Pick>, k: nat, x: Id) {
    exists j :: 0 <= j < k && j < |picks| && x in picks[j].cluster
  }

  /** Package "k" is a family: what a member spends comes earlier in it or was taken before, every member but the last
      is spent by a later one, and nobody was taken before. */
  ghost predicate IsFamily(inputs: Links, picks: seq<Pick>, k: nat)
    requires k < |picks|
  {
    var c := picks[k].cluster;
    && c != [] && Distinct(c) && (forall x :: x in c ==> x in inputs && !TakenEarlier(picks, k, x))
    && (forall a, q :: 0 <= a < |c| ==> InputCovered(inputs, picks, k, a, q))
    && forall a :: 0 <= a < |c| - 1 ==> SpentInside(inputs, c, a)
  }

  ghost predicate InputCovered(inputs: Links, picks: seq<Pick>, k: nat, a: int, q: Id)
    requires k < |picks| && 0 <= a < |picks[k].cluster|
  {
    Spends(inputs, picks[k].cluster[a], q) ==> TakenEarlier(picks, k, q) || exists b :: 0 <= b < a && picks[k].cluster[b] == q
  }

  ghost predicate SpentInside(inputs: Links, c: seq<Id>, a: int)
    requires 0 <= a < |c|
  {
    exists b :: a < b < |c| && Spends(inputs, c[b], c[a])
  }

  /** "q" is spent by a member of the cluster and not a member itself. */
  ghost predicate Outside(inputs: Links, cluster: seq<Id>, q: Id) {
    q !in cluster && exists x :: x in cluster && Spends(inputs, x, q)
  }

  /** At its rate the package pays no more than its fees... */
  ghost predicate PaysAtMost(fees: map<Id, int>, sizes: map<Id, int>, unit: nat, p: Pick) {
    p.rate * Total(sizes, Elements(p.cluster)) as real <= unit as real * Total(fees, Elements(p.cluster)) as real
  }

  /** ...and exactly these. */
  ghost predicate PaysExactly(fees: map<Id, int>, sizes: map<Id, int>, unit: nat, p: Pick) {
    p.rate * Total(sizes, Elements(p.cluster)) as real == unit as real * Total(fees, Elements(p.cluster)) as real
  }

  /** The rate of the package is no more than the rate its root came with, if that is set. */
  ghost predicate BelowOwn(own: map<Id, real>, p: Pick)
    requires p.cluster != []
  {
    Root(p) in own && own[Root(p)] != 0.0 ==> p.rate <= own[Root(p)]
  }

  ghost predicate IsOwn(own: map<Id, real>, p: Pick)
    requires p.cluster != []
  {
    Root(p) in own && own[Root(p)] != 0.0 && p.rate == own[Root(p)]
  }

  /** The rate of package "k" is the least of three: the rate its root came with, the one at which the package pays
      exactly its fees, and those at which inputs outside of it were taken. */
  ghost predicate LeastPrice(inputs: Links, fees: map<Id, int>, sizes: map<Id, int>, unit: nat, own: map<Id, real>, picks: seq<Pick>, k: nat)
    requires k < |picks| && picks[k].cluster != []
  {
    && PaysAtMost(fees, sizes, unit, picks[k]) && BelowOwn(own, picks[k])
    && (forall q, j {:trigger Outside(inputs, picks[k].cluster, q), picks[j]} ::
          Outside(inputs, picks[k].cluster, q) && 0 <= j < k && q in picks[j].cluster ==> picks[k].rate <= picks[j].rate)
    && (PaysExactly(fees, sizes, unit, picks[k]) || IsOwn(own, picks[k]) || AtInputRate(inputs, picks, k))
  }

  ghost predicate AtInputRate(inputs: Links, picks: seq<Pick>, k: nat)
    requires k < |picks|
  {
    exists q, j {:trigger Outside(inputs, picks[k].cluster, q), picks[j]} ::
      Outside(inputs, picks[k].cluster, q) && 0 <= j < k && q in picks[j].cluster && picks[k].rate == picks[j].rate
  }

  /** The price of package "k": at most its fees; without inputs outside, the least of two rates; and the least of three if
      no package before had a rate of zero. */
  ghost predicate IsPriced(inputs: Links, fees: map<Id, int>, sizes: map<Id, int>, unit: nat, own: map<Id, real>, picks: seq<Pick>, k: nat)
    requires k < |picks|
  {
    && picks[k].cluster != [] && PaysAtMost(fees, sizes, unit, picks[k])
    && ((forall q :: !Outside(inputs, picks[k].cluster, q)) ==>
          BelowOwn(own, picks[k]) && (PaysExactly(fees, sizes, unit, picks[k]) || IsOwn(own, picks[k])))
    && ((forall j :: 0 <= j < k ==> picks[j].rate != 0.0) ==> LeastPrice(inputs, fees, sizes, unit, own, picks, k))
  }

  // ---------- the members of a pick ----------

  lemma GoneIsTaken(picks: seq<Pick>, k: nat, x: Id)
    requires k <= |picks| && x in Gone(picks[..k])
    ensures TakenEarlier(picks, k, x)
  {
    var j := PickOf(picks[..k], x);
    assert picks[..k][j] == picks[j];
  }

  lemma TakenIsGone(picks: seq<Pick>, k: nat, j: nat, x: Id)
    requires j < k <= |picks| && x in picks[j].cluster
    ensures x in Gone(picks[..k])
  {
    assert picks[..k][..j + 1] == picks[..j + 1];
    GoneAt(picks[..k], j);
    assert picks[..k][j] == picks[j];
  }

  lemma PickIs(g: Graph, anc: Links, unit: nat, initial: map<Id, real>, picks: seq<Pick>, k: nat)
    requires Dag(g, anc) && ValidPicks(g, anc, unit, initial, picks) && k < |picks|
    ensures var p, gone := picks[k], Gone(picks[..k]);
      && ValidPick(g, anc, unit, initial, picks[..k], p) && p.cluster != [] && Root(p) in anc && Root(p) !in gone
      && Elements(p.cluster) == {Root(p)} + (anc[Root(p)] - gone) && Distinct(p.cluster) && ParentsFirst(anc, p.cluster)
      && Elements(p.cluster) <= anc.Keys
      && (forall x :: x in gone ==> x in anc && anc[x] <= gone)
  {
    assert ValidPick(g, anc, unit, initial, picks[..k], picks[k]);
    Prefix(g, anc, unit, initial, picks, k);
    TakenAncestors(g, anc, unit, initial, picks[..k]);
    hide FreshTotals, DependencyRate, ValidPicks, ParentsFirst, Gone, Distinct;
  }

  lemma Earlier(anc: Links, c: seq<Id>, i: nat, j: nat)
    requires ParentsFirst(anc, c) && i < |c| && j < |c| && c[i] in anc && c[j] in anc[c[i]] && c[i] !in anc[c[i]]
    ensures j < i
  {
  }

  /** Every in-pool input of a member comes earlier in the cluster, or was taken before. */
  lemma InputsCovered(g: Graph, anc: Links, unit: nat, initial: map<Id, real>, picks: seq<Pick>, k: nat, a: nat, q: Id)
    requires Dag(g, anc) && Generated(g, anc) && ValidPicks(g, anc, unit, initial, picks) && k < |picks|
    requires a < |picks[k].cluster| && IsParent(g, q, picks[k].cluster[a])
    ensures TakenEarlier(picks, k, q) || exists b :: 0 <= b < a && picks[k].cluster[b] == q
  {
    var c, root, gone := picks[k].cluster, Root(picks[k]), Gone(picks[..k]);
    hide FreshTotals, DependencyRate, ValidPicks, ValidPick, Gone, Distinct, TakenEarlier;
    PickIs(g, anc, unit, initial, picks, k);
    assert c[a] in Elements(c);
    assert c[a] in anc && q in anc[c[a]];
    assert q in anc[root];
    if q in gone {
      GoneIsTaken(picks, k, q);
    } else {
      assert q in Elements(c);
      var b :| 0 <= b < |c| && c[b] == q;
      Earlier(anc, c, a, b);
    }
  }

  /** Every member but the last is spent by a later one. */
  lemma SpentLater(g: Graph, anc: Links, unit: nat, initial: map<Id, real>, picks: seq<Pick>, k: nat, a: nat) returns (b: nat)
    requires Dag(g, anc) && Generated(g, anc) && ValidPicks(g, anc, unit, initial, picks) && k < |picks|
    requires a + 1 < |picks[k].cluster|
    ensures a < b < |picks[k].cluster| && IsParent(g, picks[k].cluster[a], picks[k].cluster[b])
  {
    var c, root, gone := picks[k].cluster, Root(picks[k]), Gone(picks[..k]);
    PickIs(g, anc, unit, initial, picks, k);
    hide FreshTotals, DependencyRate, ValidPicks, ValidPick, Gone;
    assert c[a] in Elements(c) && c[a] != c[|c| - 1];
    var m := Spender(g, anc, root, c[a]);
    assert m !in gone;
    assert m in Elements(c);
    var i :| 0 <= i < |c| && c[i] == m;
    Earlier(anc, c, i, a);
    b := i;
  }

  // ---------- the rate of a pick ----------

  /** The dependency rate is the initial one, or that of a pick that took an ancestor. */
  lemma {:induction false} DependencyOrigin(anc: Links, picks: seq<Pick>, initial: real, x: Id) returns (j: int)
    ensures -1 <= j < |picks|
    ensures j < 0 ==> DependencyRate(anc, picks, initial, x) == initial
    ensures j >= 0 ==> TakesAncestorOf(anc, picks[j], x) && DependencyRate(anc, picks, initial, x) == picks[j].rate
    ensures (forall i :: 0 <= i < |picks| ==> !TakesAncestorOf(anc, picks[i], x)) ==> j < 0
  {
    if picks == [] {
      j := -1;
    } else {
      var n := |picks| - 1;
      j := DependencyOrigin(anc, picks[..n], initial, x);
      if TakesAncestorOf(anc, picks[n], x) && DependencyRate(anc, picks, initial, x) == picks[n].rate {
        j := n;
      }
    }
  }

  /** Without zero rates before, the dependency rate is no more than the initial one, if that is set. */
  lemma {:induction false} DependencyBelowInitial(anc: Links, picks: seq<Pick>, initial: real, x: Id)
    requires initial != 0.0 && forall j :: 0 <= j < |picks| ==> picks[j].rate != 0.0
    ensures 0.0 != DependencyRate(anc, picks, initial, x) <= initial
  {
    if picks != [] { DependencyBelowInitial(anc, picks[..|picks| - 1], initial, x); }
  }

  lemma OutsideOf(g: Graph, cluster: seq<Id>, m: Id, q: Id)
    requires m in Elements(cluster) && q !in Elements(cluster) && IsParent(g, q, m)
    ensures Outside(InputsIn(g), cluster, q)
  {
  }

  /** An earlier pick that took an ancestor of the root shows at an input: some outside input was taken, at its rate at
      most, unless a rate of zero was forgotten. */
  lemma OutsideInput(g: Graph, anc: Links, unit: nat, initial: map<Id, real>, picks: seq<Pick>, k: nat, i: nat) returns (q: Id, j: nat)
    requires Dag(g, anc) && Generated(g, anc) && ValidPicks(g, anc, unit, initial, picks) && i < k < |picks|
    requires picks[k].cluster != [] && TakesAncestorOf(anc, picks[i], Root(picks[k]))
    ensures Outside(InputsIn(g), picks[k].cluster, q) && j < k && q in picks[j].cluster
    ensures (forall n :: 0 <= n < k ==> picks[n].rate != 0.0) ==> picks[j].rate <= picks[i].rate
  {
    var root, gone := Root(picks[k]), Gone(picks[..k]);
    hide FreshTotals, DependencyRate, ValidPicks, ValidPick, Gone, Distinct, ParentsFirst;
    PickIs(g, anc, unit, initial, picks, k);
    var a := SomeCommon(Elements(picks[i].cluster), anc[root]);
    assert a in picks[i].cluster;
    TakenIsGone(picks, k, i, a);
    var m;
    m, q := Crossing(g, anc, Elements(picks[k].cluster), root, a);
    OutsideOf(g, picks[k].cluster, m, q);
    assert q in anc[m] && q in anc[root];
    assert q in gone;
    GoneIsTaken(picks, k, q);
    hide Generated, Outside;
    j :| 0 <= j < k && j < |picks| && q in picks[j].cluster;
    if q == a {
      PickUnique(g, anc, unit, initial, picks, i, j, a);
    } else if forall n :: 0 <= n < k ==> picks[n].rate != 0.0 {
      PickIs(g, anc, unit, initial, picks, j);
      RateCap(g, anc, unit, initial, picks, i, j, q, a);
    }
  }

  lemma SomeCommon(s: set<Id>, t: set<Id>) returns (a: Id)
    requires !(s !! t)
    ensures a in s && a in t
  {
    var both := s * t;
    assert both != {} by {
      if both == {} {
        forall x | x in s ensures x !in t { assert x !in both; }
      }
    }
    NonEmpty(both);
    a :| a in both;
  }

  lemma OutsideTaken(g: Graph, anc: Links, unit: nat, initial: map<Id, real>, picks: seq<Pick>, k: nat, q: Id, j: nat)
    requires Dag(g, anc) && Generated(g, anc) && ValidPicks(g, anc, unit, initial, picks) && k < |picks|
    requires Outside(InputsIn(g), picks[k].cluster, q) && j < k && q in picks[j].cluster
    ensures picks[k].cluster != [] && TakesAncestorOf(anc, picks[j], Root(picks[k]))
  {
    hide FreshTotals, DependencyRate, ValidPicks, ValidPick, Gone, Distinct, ParentsFirst;
    PickIs(g, anc, unit, initial, picks, k);
    var x :| x in picks[k].cluster && Spends(InputsIn(g), x, q);
    assert x in Elements(picks[k].cluster) && q in anc[x] && q in anc[Root(picks[k])];
    assert q in Elements(picks[j].cluster);
  }

  /** The score of a pick's root, as the quotient of its members' totals. */
  ghost function Quotient(g: Graph, unit: nat, p: Pick): real {
    var fee, size := Total(Fees(g), Elements(p.cluster)), Total(Sizes(g), Elements(p.cluster));
    if size > 0 then Rate(unit, fee, size) else 0.0
  }

  lemma RateIsCapped(g: Graph, anc: Links, unit: nat, initial: map<Id, real>, picks: seq<Pick>, k: nat)
    requires Dag(g, anc) && ValidPicks(g, anc, unit, initial, picks) && k < |picks|
    ensures picks[k].cluster != []
    ensures var root := Root(picks[k]);
      picks[k].rate == Capped(DependencyRate(anc, picks[..k], InitialRate(initial, root), root), Quotient(g, unit, picks[k]))
  {
    assert ValidPick(g, anc, unit, initial, picks[..k], picks[k]);
    hide DependencyRate, ParentsFirst, Distinct, ValidPicks, Gone, Total;
  }

  lemma CappedIs(d: real, r: real)
    ensures Capped(d, r) <= r && (Capped(d, r) == r || (d != 0.0 && Capped(d, r) == d)) && (d != 0.0 ==> Capped(d, r) <= d)
  {
  }

  lemma QuotientIs(g: Graph, unit: nat, p: Pick)
    ensures var fee, size := Total(Fees(g), Elements(p.cluster)), Total(Sizes(g), Elements(p.cluster));
      size > 0 ==> Quotient(g, unit, p) == unit as real * fee as real / size as real
  {
    hide Total, Elements;
  }

  lemma QuotientPays(g: Graph, unit: nat, p: Pick)
    requires p.cluster != [] && Elements(p.cluster) <= g.Keys
    ensures p.rate <= Quotient(g, unit, p) ==> PaysAtMost(Fees(g), Sizes(g), unit, p)
    ensures p.rate == Quotient(g, unit, p) ==> PaysExactly(Fees(g), Sizes(g), unit, p)
  {
    var s := Elements(p.cluster);
    assert p.cluster[0] in s;
    hide Total;
    SizePositive(g, s, p.cluster[0]);
    var fee, size := unit as real * Total(Fees(g), s) as real, Total(Sizes(g), s) as real;
    QuotientIs(g, unit, p);
    hide Quotient, Elements;
    if p.rate <= Quotient(g, unit, p) { CappedTimes(p.rate, fee, size); }
    if p.rate == Quotient(g, unit, p) { assert fee / size * size == fee; }
  }

  lemma OwnIs(own: map<Id, real>, p: Pick)
    requires p.cluster != []
    ensures BelowOwn(own, p) <==> (InitialRate(own, Root(p)) != 0.0 ==> p.rate <= InitialRate(own, Root(p)))
    ensures IsOwn(own, p) <==> InitialRate(own, Root(p)) != 0.0 && p.rate == InitialRate(own, Root(p))
  {
  }

  lemma MembersInPool(g: Graph, anc: Links, unit: nat, initial: map<Id, real>, picks: seq<Pick>, k: nat)
    requires Dag(g, anc) && ValidPicks(g, anc, unit, initial, picks) && k < |picks|
    ensures picks[k].cluster != [] && Elements(picks[k].cluster) <= g.Keys && Distinct(picks[k].cluster)
  {
    PickIs(g, anc, unit, initial, picks, k);
    hide FreshTotals, DependencyRate, ValidPicks, ValidPick, Gone, ParentsFirst, Distinct;
  }

  /** The rate is the least of the three, if no pick before had a rate of zero. */
  lemma LeastRate(g: Graph, anc: Links, unit: nat, own: map<Id, real>, picks: seq<Pick>, k: nat)
    requires Dag(g, anc) && Generated(g, anc) && ValidPicks(g, anc, unit, own, picks) && k < |picks|
    requires forall n :: 0 <= n < k ==> picks[n].rate != 0.0
    ensures picks[k].cluster != [] && LeastPrice(InputsIn(g), Fees(g), Sizes(g), unit, own, picks, k)
  {
    RateIsCapped(g, anc, unit, own, picks, k);
    var root, i, before := Root(picks[k]), InitialRate(own, Root(picks[k])), picks[..k];
    hide *;
    assert forall n :: 0 <= n < k ==> before[n] == picks[n];
    MembersInPool(g, anc, unit, own, picks, k);
    QuotientPays(g, unit, picks[k]);
    OwnIs(own, picks[k]);
    if i != 0.0 { DependencyBelowInitial(anc, before, i, root); }
    forall q, j {:trigger Outside(InputsIn(g), picks[k].cluster, q), picks[j]}
      | Outside(InputsIn(g), picks[k].cluster, q) && 0 <= j < k && q in picks[j].cluster
      ensures picks[k].rate <= picks[j].rate
    {
      OutsideTaken(g, anc, unit, own, picks, k, q, j);
      CapOnLaterPick(g, anc, unit, own, picks, j, k);
    }
    CappedIs(DependencyRate(anc, before, i, root), Quotient(g, unit, picks[k]));
    var n := DependencyOrigin(anc, before, i, root);
    if n >= 0 && picks[k].rate == picks[n].rate {
      var q, j := OutsideInput(g, anc, unit, own, picks, k, n);
      IsAtInputRate(InputsIn(g), picks, k, q, j);
    }
    IsLeast(g, unit, own, picks, k);
  }

  lemma IsAtInputRate(inputs: Links, picks: seq<Pick>, k: nat, q: Id, j: nat)
    requires j < k < |picks| && Outside(inputs, picks[k].cluster, q) && q in picks[j].cluster && picks[k].rate == picks[j].rate
    ensures AtInputRate(inputs, picks, k)
  {
  }

  lemma IsLeast(g: Graph, unit: nat, own: map<Id, real>, picks: seq<Pick>, k: nat)
    requires k < |picks| && picks[k].cluster != []
    requires PaysAtMost(Fees(g), Sizes(g), unit, picks[k]) && BelowOwn(own, picks[k])
    requires forall q, j {:trigger Outside(InputsIn(g), picks[k].cluster, q), picks[j]} ::
      Outside(InputsIn(g), picks[k].cluster, q) && 0 <= j < k && q in picks[j].cluster ==> picks[k].rate <= picks[j].rate
    requires PaysExactly(Fees(g), Sizes(g), unit, picks[k]) || IsOwn(own, picks[k]) || AtInputRate(InputsIn(g), picks, k)
    ensures LeastPrice(InputsIn(g), Fees(g), Sizes(g), unit, own, picks, k)
  {
    hide Outside, PaysAtMost, PaysExactly, BelowOwn, IsOwn, AtInputRate;
  }

  /** A package that spends nothing outside has its quotient or its root's own rate, whichever is less, whatever was
      taken before. */
  lemma RateAlone(g: Graph, anc: Links, unit: nat, own: map<Id, real>, picks: seq<Pick>, k: nat)
    requires Dag(g, anc) && Generated(g, anc) && ValidPicks(g, anc, unit, own, picks) && k < |picks|
    requires forall q :: !Outside(InputsIn(g), picks[k].cluster, q)
    ensures picks[k].cluster != [] && BelowOwn(own, picks[k])
    ensures PaysExactly(Fees(g), Sizes(g), unit, picks[k]) || IsOwn(own, picks[k])
  {
    RateIsCapped(g, anc, unit, own, picks, k);
    var root, i, before := Root(picks[k]), InitialRate(own, Root(picks[k])), picks[..k];
    hide *;
    MembersInPool(g, anc, unit, own, picks, k);
    QuotientPays(g, unit, picks[k]);
    OwnIs(own, picks[k]);
    CappedIs(i, Quotient(g, unit, picks[k]));
    var n := DependencyOrigin(anc, before, i, root);
    if n >= 0 {
      assert before[n] == picks[n];
      var q, j := OutsideInput(g, anc, unit, own, picks, k, n);
      assert false;
    }
  }

  lemma RateBelow(g: Graph, anc: Links, unit: nat, own: map<Id, real>, picks: seq<Pick>, k: nat)
    requires Dag(g, anc) && ValidPicks(g, anc, unit, own, picks) && k < |picks|
    ensures picks[k].cluster != [] && PaysAtMost(Fees(g), Sizes(g), unit, picks[k])
  {
    RateIsCapped(g, anc, unit, own, picks, k);
    hide *;
    MembersInPool(g, anc, unit, own, picks, k);
    CappedIs(DependencyRate(anc, picks[..k], InitialRate(own, Root(picks[k])), Root(picks[k])), Quotient(g, unit, picks[k]));
    QuotientPays(g, unit, picks[k]);
  }

  /** Every pick of a valid run is a family at its price. */
  lemma FamilyPriced(g: Graph, anc: Links, unit: nat, own: map<Id, real>, picks: seq<Pick>, k: nat)
    requires Dag(g, anc) && Generated(g, anc) && ValidPicks(g, anc, unit, own, picks) && k < |picks|
    ensures IsFamily(InputsIn(g), picks, k) && IsPriced(InputsIn(g), Fees(g), Sizes(g), unit, own, picks, k)
  {
    hide *;
    RateBelow(g, anc, unit, own, picks, k);
    if forall q :: !Outside(InputsIn(g), picks[k].cluster, q) {
      RateAlone(g, anc, unit, own, picks, k);
    }
    if forall j :: 0 <= j < k ==> picks[j].rate != 0.0 {
      LeastRate(g, anc, unit, own, picks, k);
    }
    PriceIs(g, unit, own, picks, k);
    OwnMembers(g, anc, unit, own, picks, k);
    forall a, q | 0 <= a < |picks[k].cluster| ensures InputCovered(InputsIn(g), picks, k, a, q) {
      CoveredBy(g, anc, unit, own, picks, k, a, q);
    }
    forall a | 0 <= a < |picks[k].cluster| - 1 ensures SpentInside(InputsIn(g), picks[k].cluster, a) {
      SpentBy(g, anc, unit, own, picks, k, a);
    }
    FamilyIs(InputsIn(g), picks, k);
  }

  lemma PriceIs(g: Graph, unit: nat, own: map<Id, real>, picks: seq<Pick>, k: nat)
    requires k < |picks| && picks[k].cluster != [] && PaysAtMost(Fees(g), Sizes(g), unit, picks[k])
    requires (forall q :: !Outside(InputsIn(g), picks[k].cluster, q)) ==>
      BelowOwn(own, picks[k]) && (PaysExactly(Fees(g), Sizes(g), unit, picks[k]) || IsOwn(own, picks[k]))
    requires (forall j :: 0 <= j < k ==> picks[j].rate != 0.0) ==> LeastPrice(InputsIn(g), Fees(g), Sizes(g), unit, own, picks, k)
    ensures IsPriced(InputsIn(g), Fees(g), Sizes(g), unit, own, picks, k)
  {
    hide Outside, PaysExactly, PaysAtMost, BelowOwn, IsOwn, LeastPrice;
  }

  lemma SpendsIsParent(g: Graph, x: Id, q: Id)
    ensures Spends(InputsIn(g), x, q) <==> IsParent(g, q, x)
  {
  }

  lemma CoveredBy(g: Graph, anc: Links, unit: nat, own: map<Id, real>, picks: seq<Pick>, k: nat, a: nat, q: Id)
    requires Dag(g, anc) && Generated(g, anc) && ValidPicks(g, anc, unit, own, picks) && k < |picks| && a < |picks[k].cluster|
    ensures InputCovered(InputsIn(g), picks, k, a, q)
  {
    hide Dag, Generated, ValidPicks, Spends, IsParent, TakenEarlier;
    SpendsIsParent(g, picks[k].cluster[a], q);
    if IsParent(g, q, picks[k].cluster[a]) {
      InputsCovered(g, anc, unit, own, picks, k, a, q);
    }
  }

  lemma SpentBy(g: Graph, anc: Links, unit: nat, own: map<Id, real>, picks: seq<Pick>, k: nat, a: nat)
    requires Dag(g, anc) && Generated(g, anc) && ValidPicks(g, anc, unit, own, picks) && k < |picks| && a + 1 < |picks[k].cluster|
    ensures SpentInside(InputsIn(g), picks[k].cluster, a)
  {
    hide Dag, Generated, ValidPicks, Spends, IsParent;
    var b := SpentLater(g, anc, unit, own, picks, k, a);
    SpendsIsParent(g, picks[k].cluster[b], picks[k].cluster[a]);
  }

  lemma FamilyIs(inputs: Links, picks: seq<Pick>, k: nat)
    requires k < |picks|
    requires var c := picks[k].cluster; c != [] && Distinct(c) && forall x :: x in c ==> x in inputs && !TakenEarlier(picks, k, x)
    requires var c := picks[k].cluster; forall a, q :: 0 <= a < |c| ==> InputCovered(inputs, picks, k, a, q)
    requires var c := picks[k].cluster; forall a :: 0 <= a < |c| - 1 ==> SpentInside(inputs, c, a)
    ensures IsFamily(inputs, picks, k)
  {
    hide InputCovered, SpentInside, TakenEarlier, Distinct;
  }

  lemma OwnMembers(g: Graph, anc: Links, unit: nat, own: map<Id, real>, picks: seq<Pick>, k: nat)
    requires Dag(g, anc) && ValidPicks(g, anc, unit, own, picks) && k < |picks|
    ensures picks[k].cluster != [] && Distinct(picks[k].cluster)
    ensures forall x :: x in picks[k].cluster ==> x in InputsIn(g) && !TakenEarlier(picks, k, x)
  {
    hide Dag, ValidPicks, TakenEarlier, Distinct;
    MembersInPool(g, anc, unit, own, picks, k);
    forall x | x in picks[k].cluster ensures x in InputsIn(g) && !TakenEarlier(picks, k, x) {
      assert x in Elements(picks[k].cluster);
      NotBefore(g, anc, unit, own, picks, k, x);
    }
  }

  lemma NotBefore(g: Graph, anc: Links, unit: nat, own: map<Id, real>, picks: seq<Pick>, k: nat, x: Id)
    requires Dag(g, anc) && ValidPicks(g, anc, unit, own, picks) && k < |picks| && x in picks[k].cluster
    ensures !TakenEarlier(picks, k, x)
  {
    hide ValidPicks, Dag;
    if TakenEarlier(picks, k, x) {
      var j :| 0 <= j < k && j < |picks| && x in picks[j].cluster;
      PicksDisjoint(g, anc, unit, own, picks, j, k, x);
    }
  }

  // ---------- without limits ----------

  /** If every package root was the best of all transactions left, and fees are not negative, the rate is the least of the
      three even after a rate of zero: then nothing that is left pays. */
  lemma LeastWithoutLimits(g: Graph, anc: Links, unit: nat, own: map<Id, real>, picks: seq<Pick>, k: nat)
    requires NonNegativeFees(g, unit) && NonNegative(own) && BestRoots(g, anc, unit, picks)
    requires Dag(g, anc) && Generated(g, anc) && ValidPicks(g, anc, unit, own, picks) && k < |picks|
    ensures picks[k].cluster != [] && LeastPrice(InputsIn(g), Fees(g), Sizes(g), unit, own, picks, k)
  {
    hide *;
    MembersInPool(g, anc, unit, own, picks, k);
    if j :| 0 <= j < k && picks[j].rate == 0.0 {
      ZeroRateMeansFree(g, anc, unit, own, picks, j);
      NothingLeftPays(g, anc, unit, own, picks, j, k);
      ZeroRateMeansFree(g, anc, unit, own, picks, k);
      forall i: nat | i < k ensures picks[i].rate >= 0.0 {
        ZeroRateMeansFree(g, anc, unit, own, picks, i);
      }
      ZeroIsLeast(g, unit, own, picks, k);
    } else {
      LeastRate(g, anc, unit, own, picks, k);
    }
  }

  lemma ZeroIsLeast(g: Graph, unit: nat, own: map<Id, real>, picks: seq<Pick>, k: nat)
    requires NonNegative(own) && k < |picks| && picks[k].cluster != [] && picks[k].rate == 0.0
    requires Total(Fees(g), Elements(picks[k].cluster)) == 0 && forall i: nat :: i < k ==> picks[i].rate >= 0.0
    ensures LeastPrice(InputsIn(g), Fees(g), Sizes(g), unit, own, picks, k)
  {
    hide Total, Outside;
  }
}
