/** Who the selection worker leaves behind, told from the record of its run alone. */
module LeftOvers {
  import opened PackageGraph
  import opened Relatives
  import opened Selection
  import opened Packaging
  import opened TxEvents

  /** Not even an empty block has room for what is left of the package of "x". */
  ghost predicate NoRoom(g: Graph, anc: Links, limit: int, gone: set<Id>, x: Id) {
    var t := FreshTotals(g, anc, 4, x, gone);
    4000 + t.size >= limit || t.sigops > 80000
  }

  /** Whoever is left out heads a package that not even an empty block has room for. */
  ghost predicate OnlyOversizedLeft(g: Graph, anc: Links, limit: int, picks: seq<Pick>) {
    forall x :: x in g && x !in Gone(picks) ==> NoRoom(g, anc, limit, Gone(picks), x)
  }

  /** Every transaction's full ancestor package fits into an empty block. */
  ghost predicate AllFit(g: Graph, anc: Links, limit: int) {
    forall x :: x in g ==> !NoRoom(g, anc, limit, {}, x)
  }

  // ---------- parts of a package ----------

  lemma PackageInPool(g: Graph, anc: Links, x: Id, gone: set<Id>)
    requires Dag(g, anc) && x in g
    ensures Package(anc, x, gone) <= g.Keys && x in Package(anc, x, gone)
  {
  }

  /** What fits, fits with less. */
  lemma SmallerFits(g: Graph, anc: Links, limit: int, blocks: int, weight: int, x: Id, gone: set<Id>, y: Id, gone': set<Id>)
    requires Package(anc, x, gone) <= Package(anc, y, gone')
    requires Fits(limit, blocks, weight, FreshTotals(g, anc, 4, y, gone'))
    ensures Fits(limit, blocks, weight, FreshTotals(g, anc, 4, x, gone))
  {
    var p, q := Package(anc, x, gone), Package(anc, y, gone');
    TotalMonotone(Sizes(g), p, q);
    TotalMonotone(Sigops(g), p, q);
    hide Total, Package, Sizes, Sigops;
  }

  lemma SmallerStillFits(g: Graph, anc: Links, limit: int, gone: set<Id>, x: Id)
    requires !NoRoom(g, anc, limit, {}, x)
    ensures !NoRoom(g, anc, limit, gone, x)
  {
    SmallerFits(g, anc, limit, 0, BASE_WEIGHT, x, gone, x, {});
  }

  // ---------- who is set aside ----------

  /** Who is set aside while the open block is empty was refused by an empty block. */
  lemma {:induction false} RefusedByEmpty(g: Graph, anc: Links, limit: int, events: seq<Event>, c: Id)
    requires Fair(g, anc, 4, limit, events) && CurrentOf(events) == [] && Shuts(events) < BOUNDED_BLOCKS && c in Aside(anc, events)
    ensures NoRoom(g, anc, limit, Gone(PicksOf(events)), c)
  {
    var n := |events| - 1;
    var before := events[..n];
    assert FairEvent(g, anc, 4, limit, before, events[n]);
    FairPrefix(g, anc, 4, limit, events, n);
    hide Fair, FreshTotals, BestOf, MayGo;
    assert events[n].Refused?;
    if c == events[n].root {
      assert Total(Weights(g), {}) == 0;
    } else {
      RefusedByEmpty(g, anc, limit, before, c);
    }
  }

  /** The pick takes what is left of the package of its root. */
  ghost predicate IsPackage(g: Graph, anc: Links, before: seq<Event>, p: Pick) {
    p.cluster != [] && Root(p) in g && Elements(p.cluster) == Package(anc, Root(p), Gone(PicksOf(before)))
  }

  lemma PickAt(g: Graph, anc: Links, before: seq<Event>, p: Pick)
    requires Dag(g, anc) && ValidPicks(g, anc, 4, map[], PicksOf(before + [Took(p)]))
    ensures ValidPick(g, anc, 4, map[], PicksOf(before), p) && ValidPicks(g, anc, 4, map[], PicksOf(before))
    ensures IsPackage(g, anc, before, p)
  {
    hide FreshTotals, DependencyRate, ParentsFirst, Gone, Package;
    TookOneMore(anc, before, p);
    var picks := PicksOf(before) + [p];
    assert picks[..|picks| - 1] == PicksOf(before);
    Prefix(g, anc, 4, map[], picks, |picks| - 1);
  }

  /** A package that fits holds nobody whose own package does not. */
  lemma NotInside(g: Graph, anc: Links, limit: int, events: seq<Event>, p: Pick, c: Id)
    requires Dag(g, anc) && IsPackage(g, anc, events, p)
    requires FitsAt(g, anc, 4, limit, events, Root(p)) && !FitsAt(g, anc, 4, limit, events, c)
    ensures c !in Elements(p.cluster)
  {
    hide PicksOf, Gone, CurrentOf, Shuts, Total, FreshTotals;
    var root, gone := Root(p), Gone(PicksOf(events));
    if c in Elements(p.cluster) && c != root {
      assert c in anc[root] && anc[c] <= anc[root];
      assert Package(anc, c, gone) <= Package(anc, root, gone);
      SmallerFits(g, anc, limit, Shuts(events), BASE_WEIGHT + Total(Weights(g), Gone(CurrentOf(events))), c, gone, root, gone);
    }
  }

  lemma LastEvent(g: Graph, anc: Links, limit: int, events: seq<Event>)
    requires Fair(g, anc, 4, limit, events) && events != []
    ensures var before, last := events[..|events| - 1], events[|events| - 1];
      && events == before + [last] && Fair(g, anc, 4, limit, before)
      && FairEvent(g, anc, 4, limit, before, last)
      && (last.Took? ==> last.pick.cluster != [] && FitsAt(g, anc, 4, limit, before, Root(last.pick)))
      && (last.Refused? ==> last.root in g && last.root !in Gone(PicksOf(before)) && !FitsAt(g, anc, 4, limit, before, last.root))
  {
    var n := |events| - 1;
    assert FairEvent(g, anc, 4, limit, events[..n], events[n]);
    FairPrefix(g, anc, 4, limit, events, n);
    hide Fair, FreshTotals, BestOf, MayGo, FitsAt, Gone, PicksOf;
  }

  lemma NothingHeld(anc: Links)
    ensures Calm(anc, []) && Doubled(anc, []) == Twins(anc, []) == Aside(anc, []) == OverflowOf([]) == {}
  {
  }

  /** Who is set aside has not been taken, and still does not fit. */
  lemma {:induction false} AsideUnused(g: Graph, anc: Links, limit: int, events: seq<Event>, c: Id)
    requires Dag(g, anc) && Fair(g, anc, 4, limit, events) && ValidPicks(g, anc, 4, map[], PicksOf(events))
    requires c in Aside(anc, events)
    ensures c in g && c !in Gone(PicksOf(events)) && !FitsAt(g, anc, 4, limit, events, c)
  {
    hide *;
    NothingHeld(anc);
    LastEvent(g, anc, limit, events);
    var n := |events| - 1;
    var before := events[..n];
    match events[n]
    case Took(p) =>
      PickAt(g, anc, before, p);
      TookOneMore(anc, before, p);
      AsideUnused(g, anc, limit, before, c);
      NotInside(g, anc, limit, before, p, c);
      StillNoRoom(g, anc, limit, before, p, c);
    case Refused(x) =>
      RefusedOneMore(anc, before, x);
      SameRoom(g, anc, limit, before, x, c);
      if c != x {
        AsideUnused(g, anc, limit, before, c);
      }
    case Shut =>
      ShutOneMore(anc, before);
  }

  lemma SameRoom(g: Graph, anc: Links, limit: int, before: seq<Event>, x: Id, c: Id)
    ensures FitsAt(g, anc, 4, limit, before + [Refused(x)], c) <==> FitsAt(g, anc, 4, limit, before, c)
  {
    RefusedOneMore(anc, before, x);
  }

  /** Taking a package on which "c" does not depend leaves its package as it was, and less room for it. */
  lemma StillNoRoom(g: Graph, anc: Links, limit: int, before: seq<Event>, p: Pick, c: Id)
    requires Dag(g, anc) && c in g && c !in DependentsOfAny(anc, Elements(p.cluster)) && c !in Elements(p.cluster)
    requires !FitsAt(g, anc, 4, limit, before, c) && c !in Gone(PicksOf(before))
    ensures !FitsAt(g, anc, 4, limit, before + [Took(p)], c) && c !in Gone(PicksOf(before + [Took(p)]))
  {
    hide Gone, PicksOf, CurrentOf, Shuts, Total, Aside, Calm, Doubled, Twins, OverflowOf, Lead, Failures;
    TookOneMore(anc, before, p);
    var gone, current := Gone(PicksOf(before)), CurrentOf(before);
    GoneOneMore(current, p);
    GoneOneMore(PicksOf(before), p);
    SamePackage(anc, c, gone, Elements(p.cluster));
    hide Package, DependentsOfAny, Dag;
    TotalMonotone(Weights(g), Gone(current), Gone(current) + Elements(p.cluster));
  }

  lemma SamePackage(anc: Links, c: Id, gone: set<Id>, taken: set<Id>)
    requires c in anc && c !in DependentsOfAny(anc, taken)
    ensures Package(anc, c, gone + taken) == Package(anc, c, gone)
  {
  }

  lemma GoneOneMore(picks: seq<Pick>, p: Pick)
    ensures Gone(picks + [p]) == Gone(picks) + Elements(p.cluster)
  {
    assert (picks + [p])[..|picks|] == picks;
  }

  // ---------- who is left over ----------

  lemma RunParts(g: Graph, anc: Links, limit: int, events: seq<Event>)
    requires Run(g, anc, limit, events)
    ensures Dag(g, anc) && ValidPicks(g, anc, 4, map[], PicksOf(events))
    ensures Fair(g, anc, 4, limit, events) && Exhausted(g, anc, limit, events)
  {
  }

  /** From a limit of 8000 on nobody who would fit an empty block is left over, whatever the mempool and whatever the
      run; and up to 4001 nobody would fit one. */
  lemma OversizedLeft(g: Graph, anc: Links, limit: int, events: seq<Event>)
    requires Run(g, anc, limit, events) && (limit <= 4001 || limit >= 8000)
    ensures OnlyOversizedLeft(g, anc, limit, PicksOf(events))
  {
    forall x | x in g && x !in Gone(PicksOf(events)) ensures NoRoom(g, anc, limit, Gone(PicksOf(events)), x) {
      if limit <= 4001 {
        PackageInPool(g, anc, x, Gone(PicksOf(events)));
        SizePositive(g, Package(anc, x, Gone(PicksOf(events))), x);
      } else {
        WaitsForNothing(g, anc, limit, events);
        RefusedByEmpty(g, anc, limit, events, x);
      }
    }
  }

  lemma WaitsForNothing(g: Graph, anc: Links, limit: int, events: seq<Event>)
    requires Run(g, anc, limit, events) && limit >= 8000 && !(g.Keys <= Gone(PicksOf(events)))
    ensures CurrentOf(events) == [] && Shuts(events) < BOUNDED_BLOCKS && NobodyWaits(g, anc, events)
  {
    assert Total(Weights(g), {}) == 0;
    hide Fair, ValidPicks, Total, Failures;
  }

  // ---------- if all full packages fit ----------

  lemma {:induction false} SizeIsWeight(g: Graph, s: set<Id>)
    requires WeighsItsSize(g)
    ensures Total(Sizes(g), s) == Total(Weights(g), s)
    decreases s
  {
    if s != {} {
      var x := AnyOf(s);
      TotalSplit(Sizes(g), s, x);
      TotalSplit(Weights(g), s, x);
      SizeIsWeight(g, s - {x});
    }
  }

  /** Only the weight can be in the way of a package that fits an empty block, and what a package loses when part of it
      is taken, the block gains. */
  lemma StillTooHeavy(g: Graph, anc: Links, limit: int, before: seq<Event>, p: Pick, c: Id)
    requires Dag(g, anc) && WeighsItsSize(g) && c in g && Shuts(before) < BOUNDED_BLOCKS
    requires !NoRoom(g, anc, limit, {}, c) && !FitsAt(g, anc, 4, limit, before, c)
    requires c !in Elements(p.cluster) && Elements(p.cluster) !! Gone(CurrentOf(before))
    ensures !FitsAt(g, anc, 4, limit, before + [Took(p)], c)
  {
    hide PicksOf, CurrentOf, Shuts, Aside, Calm, Doubled, Twins, OverflowOf, Lead, Failures, FreshTotals, Dag;
    var gone, open, taken := Gone(PicksOf(before)), Gone(CurrentOf(before)), Elements(p.cluster);
    TookOneMore(anc, before, p);
    GoneOneMore(PicksOf(before), p);
    GoneOneMore(CurrentOf(before), p);
    SmallerStillFits(g, anc, limit, gone, c);
    SmallerStillFits(g, anc, limit, gone + taken, c);
    hide Gone;
    FreshSize(g, anc, c, gone);
    FreshSize(g, anc, c, gone + taken);
    var q, q' := Package(anc, c, gone), Package(anc, c, gone + taken);
    assert q' == q - taken;
    hide Package;
    SizeIsWeight(g, q);
    SizeIsWeight(g, q');
    RoomLost(Weights(g), q, q', open, taken);
    hide Total, Weights;
  }

  lemma FreshSize(g: Graph, anc: Links, x: Id, gone: set<Id>)
    ensures FreshTotals(g, anc, 4, x, gone).size == Total(Sizes(g), Package(anc, x, gone))
  {
  }

  lemma {:induction false} OpenIsTaken(events: seq<Event>)
    ensures Gone(CurrentOf(events)) <= Gone(PicksOf(events))
  {
    if events != [] {
      var n := |events| - 1;
      OpenIsTaken(events[..n]);
      if events[n].Took? {
        GoneOneMore(CurrentOf(events[..n]), events[n].pick);
        GoneOneMore(PicksOf(events[..n]), events[n].pick);
      }
    }
  }

  /** If all full packages fit, nobody who was refused for the open block has been taken, even if pushed since. */
  lemma {:induction false} BackUnused(g: Graph, anc: Links, limit: int, events: seq<Event>, c: Id)
    requires Dag(g, anc) && WeighsItsSize(g) && AllFit(g, anc, limit)
    requires Fair(g, anc, 4, limit, events) && ValidPicks(g, anc, 4, map[], PicksOf(events))
    requires Shuts(events) < BOUNDED_BLOCKS && c in OverflowOf(events)
    ensures c in g && c !in Gone(PicksOf(events)) && !FitsAt(g, anc, 4, limit, events, c)
  {
    hide *;
    NothingHeld(anc);
    LastEvent(g, anc, limit, events);
    var n := |events| - 1;
    var before := events[..n];
    match events[n]
    case Took(p) =>
      PickAt(g, anc, before, p);
      TookOneMore(anc, before, p);
      BackUnused(g, anc, limit, before, c);
      NotInside(g, anc, limit, before, p, c);
      PickInPool(g, anc, 4, map[], PicksOf(before), p);
      OpenIsTaken(before);
      FitsEmpty(g, anc, limit, c);
      StillTooHeavy(g, anc, limit, before, p, c);
      GoneOneMore(PicksOf(before), p);
    case Refused(x) =>
      RefusedOneMore(anc, before, x);
      SameRoom(g, anc, limit, before, x, c);
      if c != x {
        BackUnused(g, anc, limit, before, c);
      }
    case Shut =>
      ShutOneMore(anc, before);
  }

  lemma FitsEmpty(g: Graph, anc: Links, limit: int, x: Id)
    requires AllFit(g, anc, limit) && x in g
    ensures !NoRoom(g, anc, limit, {}, x)
  {
  }

  /** If all full packages fit an empty block, everyone is taken under limits from 8000 on, and under any limit if the
      run is calm. */
  lemma AllFitAllTaken(g: Graph, anc: Links, limit: int, events: seq<Event>)
    requires Run(g, anc, limit, events) && AllFit(g, anc, limit) && (limit >= 8000 || Calm(anc, events))
    ensures g.Keys <= Gone(PicksOf(events))
  {
    var gone := Gone(PicksOf(events));
    hide *;
    RunParts(g, anc, limit, events);
    forall x | x in g && x !in gone ensures false {
      var c := LastRefused(g, anc, limit, events, x);
      RefusedByEmpty(g, anc, limit, events, c);
      FitsEmpty(g, anc, limit, c);
      SmallerStillFits(g, anc, limit, gone, c);
    }
  }

  /** While somebody is left at the end, somebody is set aside and the open block is empty. */
  lemma LastRefused(g: Graph, anc: Links, limit: int, events: seq<Event>, x: Id) returns (c: Id)
    requires Run(g, anc, limit, events) && AllFit(g, anc, limit) && (limit >= 8000 || Calm(anc, events))
    requires x in g && x !in Gone(PicksOf(events))
    ensures c in Aside(anc, events) && c in g && CurrentOf(events) == [] && Shuts(events) < BOUNDED_BLOCKS
  {
    if limit >= 8000 {
      WaitsForNothing(g, anc, limit, events);
      c := x;
    } else if NobodyWaits(g, anc, events) {
      c := x;
    } else {
      hide ValidPicks, PicksOf, Gone, Calm, Dag, Fair, FairEvent, AllFit, WeighsItsSize, NobodyWaits;
      assert Exceeded(g, limit, events) && !CleanCut(anc, events);
      CountGoesOn(events);
      if JustShut(events) { CutWasClean(g, anc, limit, events); }
      LastEvent(g, anc, limit, events);
      c := events[|events| - 1].root;
    }
  }

  lemma CutWasClean(g: Graph, anc: Links, limit: int, events: seq<Event>)
    requires Dag(g, anc) && WeighsItsSize(g) && AllFit(g, anc, limit)
    requires Fair(g, anc, 4, limit, events) && ValidPicks(g, anc, 4, map[], PicksOf(events))
    requires JustShut(events) && Shuts(events) < BOUNDED_BLOCKS && Calm(anc, events)
    ensures CleanCut(anc, events)
  {
    LastEvent(g, anc, limit, events);
    var before := events[..|events| - 1];
    ShutOneMore(anc, before);
    hide Fair, FairEvent, ValidPicks, PicksOf, Gone, Calm, Dag, AllFit, WeighsItsSize, Shuts, OverflowOf, Aside, Doubled, Twins, Lead, Failures;
    forall c | c in OverflowOf(before) ensures c !in Gone(PicksOf(events)) {
      BackUnused(g, anc, limit, before, c);
    }
  }

  // ---------- calm runs ----------

  ghost predicate ClosedUp(anc: Links, s: set<Id>) {
    forall x :: x in s && x in anc ==> anc[x] <= s
  }

  ghost predicate Outscores(g: Graph, anc: Links, gone: set<Id>, a: Id, x: Id) {
    FreshTotals(g, anc, 4, a, gone).score > FreshTotals(g, anc, 4, x, gone).score
  }

  /** No child pays for its parents: whatever has been taken, all ancestors left score more than their descendants. */
  ghost predicate NoChildPays(g: Graph, anc: Links) {
    forall gone: set<Id>, a: Id, x: Id {:trigger Outscores(g, anc, gone, a, x)} ::
      ClosedUp(anc, gone) && x in g && x in anc && a in anc[x] && a !in gone ==> Outscores(g, anc, gone, a, x)
  }

  /** Whoever waits for somebody waits for one who was set aside, or has been taken. */
  ghost predicate AllAside(anc: Links, events: seq<Event>) {
    forall c :: c in Aside(anc, events) && c in anc ==> anc[c] <= Gone(PicksOf(events)) + Aside(anc, events)
  }

  /** Then every run is calm under every limit. */
  lemma {:induction false} CalmWithoutPayingChildren(g: Graph, anc: Links, limit: int, events: seq<Event>)
    requires Dag(g, anc) && Fair(g, anc, 4, limit, events) && ValidPicks(g, anc, 4, map[], PicksOf(events)) && NoChildPays(g, anc)
    ensures Calm(anc, events) && Doubled(anc, events) == {} && Twins(anc, events) == {} && AllAside(anc, events)
  {
    hide *;
    NothingHeld(anc);
    if events == [] {
      NobodyAllAside(anc, []);
    } else {
      LastEvent(g, anc, limit, events);
      var n := |events| - 1;
      var before := events[..n];
      match events[n]
      case Took(p) =>
        PickAt(g, anc, before, p);
        CalmWithoutPayingChildren(g, anc, limit, before);
        TookOneMore(anc, before, p);
        NobodyPushed(g, anc, limit, before, p);
      case Refused(x) =>
        RefusedOneMore(anc, before, x);
        CalmWithoutPayingChildren(g, anc, limit, before);
        AncestorsRefused(g, anc, limit, before, x);
      case Shut =>
        ShutOneMore(anc, before);
        CalmWithoutPayingChildren(g, anc, limit, before);
        NobodyAllAside(anc, events);
    }
  }

  lemma NobodyAllAside(anc: Links, events: seq<Event>)
    requires Aside(anc, events) == {}
    ensures AllAside(anc, events)
  {
  }

  lemma NobodyPushed(g: Graph, anc: Links, limit: int, before: seq<Event>, p: Pick)
    requires Dag(g, anc) && Fair(g, anc, 4, limit, before) && ValidPicks(g, anc, 4, map[], PicksOf(before))
    requires ValidPick(g, anc, 4, map[], PicksOf(before), p) && IsPackage(g, anc, before, p) && FitsAt(g, anc, 4, limit, before, Root(p))
    requires AllAside(anc, before)
    ensures Aside(anc, before) * DependentsOfAny(anc, Elements(p.cluster)) == {} && AllAside(anc, before + [Took(p)])
  {
    hide Fair, ValidPicks, PicksOf, Gone, Aside, Calm, Doubled, Twins, OverflowOf, FreshTotals, FitsAt;
    PickInPool(g, anc, 4, map[], PicksOf(before), p);
    hide ValidPick;
    forall c | c in Aside(anc, before) && c in DependentsOfAny(anc, Elements(p.cluster)) ensures false {
      var b :| b in Elements(p.cluster) && b in anc[c];
      assert b in Aside(anc, before);
      AsideUnused(g, anc, limit, before, b);
      NotInside(g, anc, limit, before, p, b);
    }
    TookOneMore(anc, before, p);
    GoneOneMore(PicksOf(before), p);
    assert Aside(anc, before + [Took(p)]) == Aside(anc, before);
    hide Elements, DependentsOfAny;
  }

  lemma AncestorsRefused(g: Graph, anc: Links, limit: int, before: seq<Event>, x: Id)
    requires Dag(g, anc) && ValidPicks(g, anc, 4, map[], PicksOf(before)) && Calm(anc, before) && NoChildPays(g, anc)
    requires FairEvent(g, anc, 4, limit, before, Refused(x)) && AllAside(anc, before)
    ensures AllAside(anc, before + [Refused(x)])
  {
    var gone := Gone(PicksOf(before));
    TakenAncestors(g, anc, 4, map[], PicksOf(before));
    assert ClosedUp(anc, gone);
    hide ValidPicks, PicksOf, Gone, Aside, Calm, Doubled, FreshTotals, FitsAt, MayGo;
    forall a | a in anc[x] && a !in gone ensures a in Aside(anc, before) {
      assert Outscores(g, anc, gone, a, x);
    }
    RefusedOneMore(anc, before, x);
  }

  // ---------- conditions on the input ----------

  lemma ThreeWeighThree(g: Graph, p: set<Id>, a: Id, b: Id, x: Id)
    requires a in p && b in p && x in p && a != x && b != x && a != b && p <= g.Keys
    ensures Total(Sizes(g), p) >= 3
  {
    SizePositive(g, {a}, a);
    SizePositive(g, {b}, b);
    SizePositive(g, p - {a} - {b}, x);
    TotalUnion(Sizes(g), {a}, p - {a});
    TotalUnion(Sizes(g), {b}, p - {a} - {b});
    assert {a} + (p - {a}) == p && {b} + (p - {a} - {b}) == p - {a};
  }

  /** With room for two weight units, what fits has one ancestor at most. */
  lemma OneAncestor(g: Graph, anc: Links, limit: int, x: Id, a: Id, b: Id)
    requires Dag(g, anc) && x in g && a in anc[x] && b in anc[x] && limit <= 4003 && !NoRoom(g, anc, limit, {}, x)
    ensures a == b
  {
    if a != b {
      PackageInPool(g, anc, x, {});
      ThreeWeighThree(g, Package(anc, x, {}), a, b, x);
      assert false;
    }
  }

  /** Nobody who has been pushed while set aside depends on anyone who is left. */
  ghost predicate NoneLeftAbove(anc: Links, events: seq<Event>) {
    forall x :: x in Doubled(anc, events) + Twins(anc, events) && x in anc ==> anc[x] <= Gone(PicksOf(events))
  }

  /** Then no second entry ever gets a new score. */
  lemma {:induction false} CalmWithOneAncestor(g: Graph, anc: Links, limit: int, events: seq<Event>)
    requires Dag(g, anc) && AllFit(g, anc, limit) && limit <= 4003
    requires Fair(g, anc, 4, limit, events) && ValidPicks(g, anc, 4, map[], PicksOf(events))
    ensures Calm(anc, events) && NoneLeftAbove(anc, events)
  {
    hide *;
    NothingHeld(anc);
    if events == [] {
      NobodyAbove(anc, []);
    } else {
      LastEvent(g, anc, limit, events);
      var n := |events| - 1;
      var before := events[..n];
      match events[n]
      case Took(p) =>
        PickAt(g, anc, before, p);
        CalmWithOneAncestor(g, anc, limit, before);
        TookOneMore(anc, before, p);
        OnlyAncestorTaken(g, anc, limit, before, p);
      case Refused(x) =>
        RefusedOneMore(anc, before, x);
        CalmWithOneAncestor(g, anc, limit, before);
        SameAbove(anc, before, events);
      case Shut =>
        ShutOneMore(anc, before);
        CalmWithOneAncestor(g, anc, limit, before);
        SameAbove(anc, before, events);
    }
  }

  lemma NobodyAbove(anc: Links, events: seq<Event>)
    requires Doubled(anc, events) == Twins(anc, events) == {}
    ensures NoneLeftAbove(anc, events)
  {
  }

  lemma SameAbove(anc: Links, before: seq<Event>, events: seq<Event>)
    requires NoneLeftAbove(anc, before) && PicksOf(events) == PicksOf(before)
    requires Doubled(anc, events) + Twins(anc, events) <= Doubled(anc, before) + Twins(anc, before)
    ensures NoneLeftAbove(anc, events)
  {
    hide Doubled, Twins, Gone, PicksOf;
  }

  lemma OnlyAncestorTaken(g: Graph, anc: Links, limit: int, before: seq<Event>, p: Pick)
    requires Dag(g, anc) && AllFit(g, anc, limit) && limit <= 4003
    requires ValidPick(g, anc, 4, map[], PicksOf(before), p) && NoneLeftAbove(anc, before)
    ensures Twins(anc, before) !! DependentsOfAny(anc, Elements(p.cluster)) && NoneLeftAbove(anc, before + [Took(p)])
  {
    hide PicksOf, Gone, Aside, Calm, Doubled, Twins, OverflowOf, NoRoom;
    PickInPool(g, anc, 4, map[], PicksOf(before), p);
    hide ValidPick;
    TookOneMore(anc, before, p);
    GoneOneMore(PicksOf(before), p);
    var d := DependentsOfAny(anc, Elements(p.cluster));
    forall x | x in d ensures x in anc && anc[x] <= Elements(p.cluster) {
      var b :| b in Elements(p.cluster) && b in anc[x];
      forall a | a in anc[x] ensures a == b {
        OneAncestor(g, anc, limit, x, a, b);
      }
    }
    hide Elements, AllFit;
    forall x | x in Twins(anc, before) ensures x !in d {
      assert x in anc ==> Elements(p.cluster) !! anc[x];
    }
  }

  /** What makes sure that everyone is taken, if all full packages fit an empty block. */
  ghost predicate Thorough(g: Graph, anc: Links, limit: int, events: seq<Event>) {
    limit <= 4003 || limit >= 8000 || NoChildPays(g, anc) || Calm(anc, events)
  }

  /** Everyone is taken under limits up to 4003 and from 8000 on, under any limit if no child pays for its parents, and
      in any calm run. */
  lemma NobodyLeft(g: Graph, anc: Links, limit: int, events: seq<Event>)
    requires Run(g, anc, limit, events) && AllFit(g, anc, limit) && Thorough(g, anc, limit, events)
    ensures g.Keys <= Gone(PicksOf(events))
  {
    hide Run, Dag, AllFit, WeighsItsSize, ValidPicks, PicksOf, Gone, Fair, Exhausted, NoChildPays, Calm;
    RunParts(g, anc, limit, events);
    if limit <= 4003 {
      CalmWithOneAncestor(g, anc, limit, events);
    } else if limit < 8000 && NoChildPays(g, anc) {
      CalmWithoutPayingChildren(g, anc, limit, events);
    }
    AllFitAllTaken(g, anc, limit, events);
  }
}
