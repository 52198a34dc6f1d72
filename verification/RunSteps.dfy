/** Building a run of the selection worker step by step, out of what matters of the events so far. */
module RunSteps {
  import opened PackageGraph
  import opened Relatives
  import opened Selection
  import opened Packaging
  import opened TxEvents
  import opened LeftOvers

  /** What matters of the events so far: what was taken, whether the open block holds anything, whether a block was
      closed just now, the weight and number of the block, and who was refused. */
  datatype Seen = Seen(picks: seq<Pick>, gone: set<Id>, begun: bool, closed: bool, weight: int, shuts: nat, failures: nat, aside: set<Id>,
                       calm: bool, doubled: set<Id>, twins: set<Id>)

  ghost predicate Told(g: Graph, anc: Links, limit: int, events: seq<Event>, s: Seen) {
    && Fair(g, anc, 4, limit, events) && ValidPicks(g, anc, 4, map[], PicksOf(events))
    && PicksOf(events) == s.picks && Gone(s.picks) == s.gone && Records(g, anc, events, s)
  }

  ghost predicate Records(g: Graph, anc: Links, events: seq<Event>, s: Seen) {
    && (s.begun <==> CurrentOf(events) != []) && (s.closed <==> JustShut(events))
    && s.weight == BASE_WEIGHT + Total(Weights(g), Gone(CurrentOf(events)))
    && Shuts(events) == s.shuts && Failures(events) == s.failures
    && Aside(anc, events) == s.aside && Calm(anc, events) == s.calm && Doubled(anc, events) == s.doubled && Twins(anc, events) == s.twins
  }

  ghost function AtStart(): Seen {
    Seen([], {}, false, false, BASE_WEIGHT, 0, 0, {}, true, {}, {})
  }

  lemma Begins(g: Graph, anc: Links, limit: int)
    ensures Told(g, anc, limit, [], AtStart())
  {
  }

  // ---------- looking at a transaction ----------

  ghost predicate MayLook(g: Graph, anc: Links, limit: int, s: Seen, x: Id, took: bool) {
    && x in g && x !in s.gone && (s.failures <= 1000 || s.closed)
    && (took <==> Fits(limit, s.shuts, s.weight, FreshTotals(g, anc, 4, x, s.gone)))
    && (s.calm ==> (x !in s.aside || x in s.twins) && BestOf(g, anc, 4, s.gone, s.aside, x))
  }

  lemma Looks(g: Graph, anc: Links, limit: int, events: seq<Event>, s: Seen, x: Id, took: bool)
    requires Told(g, anc, limit, events, s) && MayLook(g, anc, limit, s, x, took)
    ensures Looked(g, anc, 4, limit, events, x, took)
  {
    hide PicksOf, CurrentOf, Gone, Total, Shuts, Failures, Aside, Calm, Doubled, Twins, BestOf, FreshTotals, Fair, ValidPicks;
  }

  ghost function AfterRefusing(s: Seen, x: Id): Seen {
    s.(closed := false, failures := s.failures + 1, aside := s.aside + {x})
  }

  lemma Refuses(g: Graph, anc: Links, limit: int, events: seq<Event>, s: Seen, x: Id)
    requires Told(g, anc, limit, events, s) && MayLook(g, anc, limit, s, x, false)
    ensures Told(g, anc, limit, events + [Refused(x)], AfterRefusing(s, x))
  {
    hide PicksOf, CurrentOf, Gone, Total, Shuts, Failures, Aside, Calm, Doubled, Twins, OverflowOf, Lead, Looked, Fair, ValidPicks, MayLook;
    Looks(g, anc, limit, events, s, x, false);
    RefusedOneMore(anc, events, x);
    FairExtended(g, anc, 4, limit, events, Refused(x));
  }

  // ---------- taking a package ----------

  /** The pick of a package, at the rate it then has. */
  ghost function Chosen(g: Graph, anc: Links, picks: seq<Pick>, cluster: seq<Id>): Pick
    requires cluster != []
  {
    var root := cluster[|cluster| - 1];
    Pick(cluster, Capped(DependencyRate(anc, picks, 0.0, root), FreshTotals(g, anc, 4, root, Gone(picks)).score))
  }

  /** The cluster is what is left of the package of its last member. */
  ghost predicate IsCluster(anc: Links, gone: set<Id>, cluster: seq<Id>) {
    cluster != [] && Distinct(cluster) && Elements(cluster) == Package(anc, cluster[|cluster| - 1], gone) && ParentsFirst(anc, cluster)
  }

  lemma ChosenIs(g: Graph, anc: Links, picks: seq<Pick>, cluster: seq<Id>)
    requires cluster != []
    ensures var p := Chosen(g, anc, picks, cluster); p.cluster == cluster && Root(p) == cluster[|cluster| - 1]
  {
  }

  lemma ChosenIsValid(g: Graph, anc: Links, picks: seq<Pick>, cluster: seq<Id>)
    requires IsCluster(anc, Gone(picks), cluster) && cluster[|cluster| - 1] in g && cluster[|cluster| - 1] !in Gone(picks)
    requires ValidPicks(g, anc, 4, map[], picks) && Dag(g, anc)
    ensures ValidPicks(g, anc, 4, map[], picks + [Chosen(g, anc, picks, cluster)]) && Elements(cluster) <= g.Keys && Elements(cluster) !! Gone(picks)
  {
    hide Gone, FreshTotals, DependencyRate, ValidPicks, ParentsFirst, Distinct;
    Extended(g, anc, 4, map[], picks, Chosen(g, anc, picks, cluster));
  }

  ghost function AfterTaking(g: Graph, anc: Links, s: Seen, cluster: seq<Id>): Seen
    requires cluster != []
  {
    var d := DependentsOfAny(anc, Elements(cluster));
    Seen(s.picks + [Chosen(g, anc, s.picks, cluster)], s.gone + Elements(cluster), true, false, s.weight + Total(Weights(g), Elements(cluster)),
         s.shuts, 0, s.aside - d, s.calm && s.twins !! d, s.doubled + s.aside * d, s.twins)
  }

  lemma Taken(g: Graph, anc: Links, limit: int, events: seq<Event>, s: Seen, cluster: seq<Id>)
    requires Dag(g, anc) && Told(g, anc, limit, events, s) && IsCluster(anc, s.gone, cluster)
    requires MayLook(g, anc, limit, s, cluster[|cluster| - 1], true)
    ensures var p := Chosen(g, anc, s.picks, cluster);
      && ValidPicks(g, anc, 4, map[], s.picks + [p]) && Fair(g, anc, 4, limit, events + [Took(p)])
      && Gone(s.picks + [p]) == s.gone + Elements(cluster) && Elements(cluster) !! Gone(CurrentOf(events)) && p.cluster == cluster
  {
    hide PicksOf, CurrentOf, Gone, Total, Shuts, Failures, Aside, Calm, Doubled, Twins, Lead, Looked, Fair, ValidPicks, Elements, BestOf, FreshTotals, Dag,
      JustShut, Root, Chosen, IsCluster, Records;
    assert cluster != [] by { NotEmpty(anc, s.gone, cluster); }
    Looks(g, anc, limit, events, s, cluster[|cluster| - 1], true);
    ChosenIsValid(g, anc, s.picks, cluster);
    OpenIsTaken(events);
    var p := Chosen(g, anc, s.picks, cluster);
    ChosenIs(g, anc, s.picks, cluster);
    GoneOneMore(s.picks, p);
    FairExtended(g, anc, 4, limit, events, Took(p));
  }

  lemma NotEmpty(anc: Links, gone: set<Id>, cluster: seq<Id>)
    requires IsCluster(anc, gone, cluster)
    ensures cluster != []
  {
  }

  lemma Takes(g: Graph, anc: Links, limit: int, events: seq<Event>, s: Seen, cluster: seq<Id>)
    requires Dag(g, anc) && Told(g, anc, limit, events, s) && IsCluster(anc, s.gone, cluster)
    requires MayLook(g, anc, limit, s, cluster[|cluster| - 1], true)
    ensures Told(g, anc, limit, events + [Took(Chosen(g, anc, s.picks, cluster))], AfterTaking(g, anc, s, cluster))
  {
    hide PicksOf, CurrentOf, Gone, Total, Shuts, Failures, Aside, Calm, Doubled, Twins, OverflowOf, Lead, Fair, ValidPicks, MayLook, Chosen,
      DependentsOfAny, Elements, Dag, IsCluster;
    NotEmpty(anc, s.gone, cluster);
    Taken(g, anc, limit, events, s, cluster);
    var p := Chosen(g, anc, s.picks, cluster);
    TookOneMore(anc, events, p);
    GoneOneMore(CurrentOf(events), p);
    TotalUnion(Weights(g), Gone(CurrentOf(events)), Elements(cluster));
    NotJustShut(events, Took(p));
  }

  // ---------- closing a block ----------

  /** Too many refusals with little room left, or nobody waits. */
  ghost predicate MayClose(g: Graph, limit: int, s: Seen) {
    && s.begun && s.shuts < BOUNDED_BLOCKS
    && ((s.failures > 1000 && s.weight > limit - BASE_WEIGHT) || forall x :: x in g && x !in s.gone ==> x in s.aside)
  }

  ghost function AfterClosing(s: Seen): Seen {
    s.(begun := false, closed := true, weight := BASE_WEIGHT, shuts := s.shuts + 1, aside := {}, doubled := {}, twins := s.twins + s.doubled)
  }

  lemma ShutIsFair(g: Graph, anc: Links, limit: int, events: seq<Event>, s: Seen)
    requires Told(g, anc, limit, events, s) && MayClose(g, limit, s)
    ensures FairEvent(g, anc, 4, limit, events, Shut) && BASE_WEIGHT + Total(Weights(g), Gone([])) == BASE_WEIGHT
  {
    assert Gone([]) == {};
    hide PicksOf, CurrentOf, Gone, Shuts, Failures, Aside, Calm, Doubled, Twins, Lead, Fair, ValidPicks;
  }

  lemma Closes(g: Graph, anc: Links, limit: int, events: seq<Event>, s: Seen)
    requires Told(g, anc, limit, events, s) && MayClose(g, limit, s)
    ensures Told(g, anc, limit, events + [Shut], AfterClosing(s))
  {
    hide PicksOf, CurrentOf, Gone, Total, Shuts, Failures, Aside, Calm, Doubled, Twins, OverflowOf, Lead, Fair, FairEvent, ValidPicks, MayClose;
    ShutIsFair(g, anc, limit, events, s);
    ShutOneMore(anc, events);
    FairExtended(g, anc, 4, limit, events, Shut);
  }

  // ---------- the end ----------

  /** The loop may stop early, on an empty block, if the run is not calm. */
  lemma StopsEarly(g: Graph, anc: Links, limit: int, events: seq<Event>, s: Seen)
    requires Dag(g, anc) && WeighsItsSize(g) && Told(g, anc, limit, events, s)
    requires !s.begun && s.shuts < BOUNDED_BLOCKS && s.failures > 1000 && s.weight > limit - BASE_WEIGHT && !s.calm
    ensures Run(g, anc, limit, events) && PicksOf(events) == s.picks && Gone(s.picks) == s.gone && !Calm(anc, events)
  {
    hide PicksOf, CurrentOf, Gone, Total, Shuts, Failures, Aside, Calm, Doubled, Twins, Lead, Fair, ValidPicks, Dag, WeighsItsSize, NobodyWaits;
  }

  /** It stops when everyone is taken. */
  lemma StopsAtLast(g: Graph, anc: Links, limit: int, events: seq<Event>, s: Seen)
    requires Dag(g, anc) && WeighsItsSize(g) && Told(g, anc, limit, events, s) && !s.begun && g.Keys <= s.gone
    ensures Run(g, anc, limit, events) && PicksOf(events) == s.picks && Gone(s.picks) == s.gone
  {
    hide PicksOf, CurrentOf, Gone, Total, Shuts, Failures, Aside, Calm, Doubled, Twins, Lead, Fair, ValidPicks, Dag, WeighsItsSize, NobodyWaits;
  }

  // ---------- scores within bounds ----------

  lemma RateOrder(a: int, b: int, size: int)
    requires size > 0 && a <= b
    ensures Rate(4, a, size) <= Rate(4, b, size)
  {
  }

  /** "k" satoshis per weight unit are "4 * k" per vbyte. */
  lemma RateBounds(k: int, fee: int, size: int)
    requires size > 0
    ensures fee >= k * size ==> Rate(4, fee, size) >= (4 * k) as real
    ensures fee <= k * size ==> Rate(4, fee, size) <= (4 * k) as real
  {
    RateOfMultiple(k, size);
    if fee <= k * size { RateOrder(fee, k * size, size); }
    if fee >= k * size { RateOrder(k * size, fee, size); }
  }

  /** The totals of "x" once "gone" is taken, with bounds on its rate in satoshis per weight unit. */
  ghost predicate Scored(g: Graph, anc: Links, gone: set<Id>, x: Id, size: int, low: int, high: int) {
    var t := FreshTotals(g, anc, 4, x, gone);
    t.size == size && t.sigops == 0 && (4 * low) as real <= t.score <= (4 * high) as real
  }

  lemma ScoredAs(g: Graph, anc: Links, gone: set<Id>, x: Id, fee: int, size: int, low: int, high: int)
    requires var p := Package(anc, x, gone); Total(Fees(g), p) == fee && Total(Sizes(g), p) == size && Total(Sigops(g), p) == 0
    requires size > 0 && low * size <= fee <= high * size
    ensures Scored(g, anc, gone, x, size, low, high)
  {
    RateBounds(low, fee, size);
    RateBounds(high, fee, size);
    hide Total, Rate;
  }

  lemma ScoredAlone(g: Graph, anc: Links, gone: set<Id>, x: Id, low: int, high: int)
    requires x in g && x in anc && anc[x] <= gone && g[x].sigops == 0 && low * g[x].size <= g[x].fee <= high * g[x].size
    ensures Scored(g, anc, gone, x, g[x].size, low, high)
  {
    assert Package(anc, x, gone) == {x};
    SingleTotal(Fees(g), x);
    SingleTotal(Sizes(g), x);
    SingleTotal(Sigops(g), x);
    hide Total, Package, Scored;
    ScoredAs(g, anc, gone, x, g[x].fee, g[x].size, low, high);
  }

  lemma SumOf(m: map<Id, int>, s: set<Id>, x: Id)
    requires x !in s
    ensures Total(m, s + {x}) == Total(m, s) + At(m, x)
  {
    TotalSplit(m, s + {x}, x);
    assert s + {x} - {x} == s;
  }

  lemma SumOfTwo(m: map<Id, int>, y: Id, x: Id)
    requires x != y
    ensures Total(m, {y} + {x}) == At(m, y) + At(m, x)
  {
    SingleTotal(m, y);
    SumOf(m, {y}, x);
  }

  lemma ScoredPair(g: Graph, anc: Links, gone: set<Id>, y: Id, x: Id, low: int, high: int)
    requires x in g && y in g && x != y && x in anc && anc[x] - gone == {y} && g[x].sigops == g[y].sigops == 0
    requires var size := g[y].size + g[x].size; low * size <= g[y].fee + g[x].fee <= high * size
    ensures Scored(g, anc, gone, x, g[y].size + g[x].size, low, high)
  {
    assert Package(anc, x, gone) == {y} + {x};
    SumOfTwo(Fees(g), y, x);
    SumOfTwo(Sizes(g), y, x);
    SumOfTwo(Sigops(g), y, x);
    hide Total, Package, Scored;
    ScoredAs(g, anc, gone, x, g[y].fee + g[x].fee, g[y].size + g[x].size, low, high);
  }

  lemma SumOfThree(m: map<Id, int>, z: Id, y: Id, x: Id)
    requires x != y && x != z && y != z
    ensures Total(m, {z} + {y} + {x}) == At(m, z) + At(m, y) + At(m, x)
  {
    SumOfTwo(m, z, y);
    SumOf(m, {z} + {y}, x);
  }

  lemma ScoredTriple(g: Graph, anc: Links, gone: set<Id>, z: Id, y: Id, x: Id, low: int, high: int)
    requires x in g && y in g && z in g && x != y && x != z && y != z && x in anc && anc[x] - gone == {z, y}
    requires g[x].sigops == g[y].sigops == g[z].sigops == 0
    requires var size := g[z].size + g[y].size + g[x].size; low * size <= g[z].fee + g[y].fee + g[x].fee <= high * size
    ensures Scored(g, anc, gone, x, g[z].size + g[y].size + g[x].size, low, high)
  {
    assert Package(anc, x, gone) == {z} + {y} + {x};
    SumOfThree(Fees(g), z, y, x);
    SumOfThree(Sizes(g), z, y, x);
    SumOfThree(Sigops(g), z, y, x);
    hide Total, Package, Scored;
    ScoredAs(g, anc, gone, x, g[z].fee + g[y].fee + g[x].fee, g[z].size + g[y].size + g[x].size, low, high);
  }

  /** A choice is the best one if its low bound is above the scores of everyone else. */
  ghost predicate Under(g: Graph, anc: Links, gone: set<Id>, x: Id, bound: int) {
    FreshTotals(g, anc, 4, x, gone).score <= (4 * bound) as real
  }

  lemma IsUnder(g: Graph, anc: Links, gone: set<Id>, x: Id, size: int, low: int, high: int, bound: int)
    requires Scored(g, anc, gone, x, size, low, high) && high <= bound
    ensures Under(g, anc, gone, x, bound)
  {
    hide FreshTotals;
  }

  lemma MayLookAt(g: Graph, anc: Links, limit: int, s: Seen, x: Id, size: int, low: int, high: int, took: bool)
    requires x in g && x !in s.gone && (s.failures <= 1000 || s.closed) && s.shuts < BOUNDED_BLOCKS
    requires Scored(g, anc, s.gone, x, size, low, high) && (took <==> s.weight + size < limit)
    requires s.calm ==> x !in s.aside || x in s.twins
    requires s.calm ==> forall y :: y in g && y != x && y !in s.gone && y !in s.aside ==> Under(g, anc, s.gone, y, low)
    ensures MayLook(g, anc, limit, s, x, took)
  {
    hide FreshTotals;
  }
}
