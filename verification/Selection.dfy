/** A run of package selection as a sequence of picks, and what every such run guarantees. */
module Selection {
  import opened PackageGraph
  import opened Relatives

  /** A package taken into a block: its transactions, parents first and the package root last, and the
      effective fee rate they are given. */
  datatype Pick = Pick(cluster: seq<Id>, rate: real)

  function Root(p: Pick): Id
    requires p.cluster != []
  {
    p.cluster[|p.cluster| - 1]
  }

  /** The transactions taken by "picks". */
  ghost function Gone(picks: seq<Pick>): set<Id> {
    if picks == [] then {} else Gone(picks[..|picks| - 1]) + Elements(picks[|picks| - 1].cluster)
  }

  /** The dependency rate that "picks" leave on "x": lowered by each pick that takes an ancestor of it. */
  ghost function DependencyRate(anc: Links, picks: seq<Pick>, initial: real, x: Id): real {
    if picks == [] then initial else
    var p, rate := picks[|picks| - 1], DependencyRate(anc, picks[..|picks| - 1], initial, x);
    if TakesAncestorOf(anc, p, x) then Lowered(rate, p.rate) else rate
  }

  ghost predicate TakesAncestorOf(anc: Links, p: Pick, x: Id) {
    x in anc && !(Elements(p.cluster) !! anc[x])
  }

  ghost function InitialRate(initial: map<Id, real>, x: Id): real {
    if x in initial then initial[x] else 0.0
  }

  /** Math.min(dependencyRate || Infinity, rate) */
  function Capped(dependencyRate: real, rate: real): real {
    if dependencyRate != 0.0 && dependencyRate <= rate then dependencyRate else rate
  }

  /** No transaction comes before one of its ancestors. */
  ghost predicate ParentsFirst(anc: Links, cluster: seq<Id>) {
    forall i, j :: 0 <= i < j < |cluster| && cluster[i] in anc ==> cluster[j] !in anc[cluster[i]]
  }

  /** "p" takes what is left of a package, in dependency order, at the capped rate of that package. */
  ghost predicate ValidPick(g: Graph, anc: Links, unit: nat, initial: map<Id, real>, before: seq<Pick>, p: Pick)
  {
    && p.cluster != [] && Root(p) in g && Root(p) !in Gone(before)
    && Distinct(p.cluster) && Elements(p.cluster) == Package(anc, Root(p), Gone(before))
    && ParentsFirst(anc, p.cluster)
    && p.rate == Capped(DependencyRate(anc, before, InitialRate(initial, Root(p)), Root(p)), FreshTotals(g, anc, unit, Root(p), Gone(before)).score)
  }

  ghost predicate ValidPicks(g: Graph, anc: Links, unit: nat, initial: map<Id, real>, picks: seq<Pick>)
  {
    forall k :: 0 <= k < |picks| ==> ValidPick(g, anc, unit, initial, picks[..k], picks[k])
  }

  lemma Prefix(g: Graph, anc: Links, unit: nat, initial: map<Id, real>, picks: seq<Pick>, n: nat)
    requires Dag(g, anc) && ValidPicks(g, anc, unit, initial, picks) && n <= |picks|
    ensures ValidPicks(g, anc, unit, initial, picks[..n])
  {
    forall k | 0 <= k < n ensures ValidPick(g, anc, unit, initial, picks[..n][..k], picks[..n][k]) {
      assert picks[..n][..k] == picks[..k];
      assert ValidPick(g, anc, unit, initial, picks[..k], picks[k]);
    }
  }

  lemma Extended(g: Graph, anc: Links, unit: nat, initial: map<Id, real>, picks: seq<Pick>, p: Pick)
    requires Dag(g, anc)
    requires ValidPicks(g, anc, unit, initial, picks) && ValidPick(g, anc, unit, initial, picks, p)
    ensures ValidPicks(g, anc, unit, initial, picks + [p])
    ensures Gone(picks + [p]) == Gone(picks) + Elements(p.cluster)
  {
    var more := picks + [p];
    assert more[..|picks|] == picks;
    forall k | 0 <= k < |more| ensures ValidPick(g, anc, unit, initial, more[..k], more[k]) {
      assert more[..k] == picks[..k];
      if k < |picks| {
        assert ValidPick(g, anc, unit, initial, picks[..k], picks[k]);
      } else {
        assert picks[..k] == picks;
      }
    }
  }

  lemma {:induction false} GoneMonotone(picks: seq<Pick>, n: nat)
    requires n <= |picks|
    ensures Gone(picks[..n]) <= Gone(picks)
  {
    if n == |picks| {
      assert picks[..n] == picks;
    } else {
      assert picks[..|picks| - 1][..n] == picks[..n];
      GoneMonotone(picks[..|picks| - 1], n);
    }
  }

  lemma GoneAt(picks: seq<Pick>, k: nat)
    requires k < |picks|
    ensures Gone(picks[..k + 1]) == Gone(picks[..k]) + Elements(picks[k].cluster)
    ensures Gone(picks[..k + 1]) <= Gone(picks)
  {
    assert picks[..k + 1][..k] == picks[..k];
    GoneMonotone(picks, k + 1);
  }

  /** Each taken transaction belongs to exactly one pick. */
  lemma {:induction false} PickOf(picks: seq<Pick>, x: Id) returns (k: nat)
    requires x in Gone(picks)
    ensures k < |picks| && x in picks[k].cluster
  {
    var n := |picks| - 1;
    if x in Elements(picks[n].cluster) {
      k := n;
    } else {
      k := PickOf(picks[..n], x);
    }
  }

  lemma PicksDisjoint(g: Graph, anc: Links, unit: nat, initial: map<Id, real>, picks: seq<Pick>, j: nat, k: nat, x: Id)
    requires Dag(g, anc) && ValidPicks(g, anc, unit, initial, picks)
    requires j < k < |picks| && x in picks[j].cluster
    ensures x !in picks[k].cluster && x != Root(picks[k])
  {
    assert ValidPick(g, anc, unit, initial, picks[..k], picks[k]);
    assert picks[..k][..j + 1] == picks[..j + 1];
    GoneAt(picks[..k], j);
    assert x in Elements(picks[j].cluster) && x in Gone(picks[..k]);
    assert Root(picks[k]) in Elements(picks[k].cluster);
    assert x !in Elements(picks[k].cluster);
  }

  // ---------- every in-pool ancestor comes along or came before ----------

  lemma {:induction false} TakenAncestors(g: Graph, anc: Links, unit: nat, initial: map<Id, real>, picks: seq<Pick>)
    requires Dag(g, anc) && ValidPicks(g, anc, unit, initial, picks)
    ensures Gone(picks) <= g.Keys
    ensures forall x :: x in Gone(picks) ==> x in anc && anc[x] <= Gone(picks)
  {
    if picks != [] {
      var n := |picks| - 1;
      Prefix(g, anc, unit, initial, picks, n);
      TakenAncestors(g, anc, unit, initial, picks[..n]);
      assert ValidPick(g, anc, unit, initial, picks[..n], picks[n]);
    }
  }

  /** An ancestor of a transaction taken by pick "k" is taken by that pick or by an earlier one. */
  lemma AncestorsComeFirst(g: Graph, anc: Links, unit: nat, initial: map<Id, real>, picks: seq<Pick>, k: nat, x: Id, a: Id)
    returns (j: nat)
    requires Dag(g, anc) && ValidPicks(g, anc, unit, initial, picks)
    requires k < |picks| && x in picks[k].cluster && x in anc && a in anc[x]
    ensures j <= k && a in picks[j].cluster
  {
    GoneAt(picks, k);
    Prefix(g, anc, unit, initial, picks, k + 1);
    TakenAncestors(g, anc, unit, initial, picks[..k + 1]);
    assert x in Elements(picks[k].cluster);
    j := PickOf(picks[..k + 1], a);
  }

  lemma PickUnique(g: Graph, anc: Links, unit: nat, initial: map<Id, real>, picks: seq<Pick>, i: nat, j: nat, x: Id)
    requires Dag(g, anc) && ValidPicks(g, anc, unit, initial, picks)
    requires i < |picks| && j < |picks| && x in picks[i].cluster && x in picks[j].cluster
    ensures i == j
  {
    if i < j { PicksDisjoint(g, anc, unit, initial, picks, i, j, x); }
    if j < i { PicksDisjoint(g, anc, unit, initial, picks, j, i, x); }
  }

  lemma RootDependsOn(g: Graph, anc: Links, unit: nat, initial: map<Id, real>, before: seq<Pick>, p: Pick, x: Id, a: Id)
    requires Dag(g, anc) && ValidPick(g, anc, unit, initial, before, p)
    requires x in p.cluster && x in anc && a in anc[x]
    ensures a in anc[Root(p)]
  {
    assert x in Elements(p.cluster);
  }

  /** No transaction outside "gone" and "aside" has a better ancestor score than "next". */
  ghost predicate BestOf(g: Graph, anc: Links, unit: nat, gone: set<Id>, aside: set<Id>, next: Id) {
    forall x :: x in g && x !in gone && x !in aside ==>
      FreshTotals(g, anc, unit, x, gone).score <= FreshTotals(g, anc, unit, next, gone).score
  }

  /** Each package root is best among all transactions not taken before. */
  ghost predicate BestRoots(g: Graph, anc: Links, unit: nat, picks: seq<Pick>) {
    forall k :: 0 <= k < |picks| ==> picks[k].cluster != [] && BestOf(g, anc, unit, Gone(picks[..k]), {}, Root(picks[k]))
  }

  /** Charging a package its rate never asks for more than its total fee. */
  lemma RateTimesSize(g: Graph, anc: Links, unit: nat, initial: map<Id, real>, before: seq<Pick>, p: Pick)
    requires Dag(g, anc) && ValidPick(g, anc, unit, initial, before, p)
    ensures Elements(p.cluster) <= g.Keys
    ensures p.rate * Total(Sizes(g), Elements(p.cluster)) as real <= unit as real * Total(Fees(g), Elements(p.cluster)) as real
  {
    var s := Elements(p.cluster);
    SizePositive(g, s, Root(p));
    CappedTimes(p.rate, unit as real * Total(Fees(g), s) as real, Total(Sizes(g), s) as real);
  }

  lemma CappedTimes(rate: real, fee: real, size: real)
    requires size > 0.0 && rate <= fee / size
    ensures rate * size <= fee
  {
    assert fee / size * size == fee;
    assert (fee / size - rate) * size >= 0.0;
  }
}
