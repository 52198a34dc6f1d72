/** Mempools of four transactions, and runs that take one of them although another one left scores more. */
module WorseChoiceExample {
  import opened PackageGraph
  import opened Relatives
  import opened Selection
  import opened Packaging
  import opened TxEvents
  import opened LeftOvers
  import opened RunSteps

  ghost predicate Wide(lim: int) {
    lim >= 4008
  }

  /** A child that pays for its parent, but does not fit beside it; a child of both; and another child of the parent. */
  ghost function Member(lim: int, x: Id): TxInfo
    requires Wide(lim)
  {
    var room := lim - BASE_WEIGHT;
    if x == 0 then TxInfo(3, 3, 3, 0, x, [1])
    else if x == 1 then TxInfo(2 * (room - 3), room - 3, room - 3, 0, x, [])
    else if x == 2 then TxInfo(0, 3, 3, 0, x, [3])
    else TxInfo(9 * (room - 4), room - 4, room - 4, 0, x, [1])
  }

  ghost function Mempool(lim: int): Graph
    requires Wide(lim)
  {
    map x | 0 <= x < 4 :: Member(lim, x)
  }

  ghost function KinOf(x: Id): set<Id> {
    if x == 0 || x == 3 then {1} else if x == 2 then {1, 3} else {}
  }

  ghost function Kin(lim: int): Links
    requires Wide(lim)
  {
    map x | x in Mempool(lim) :: KinOf(x)
  }

  lemma Parents(lim: int, p: Id, x: Id)
    requires Wide(lim) && x in Mempool(lim)
    ensures IsParent(Mempool(lim), p, x) <==> (p == 1 && (x == 0 || x == 3)) || (p == 3 && x == 2)
  {
    assert 1 in Mempool(lim) && 3 in Mempool(lim);
    assert forall q: Id :: (q in [1] <==> q == 1) && (q in [3] <==> q == 3);
  }

  lemma IsAcyclic(lim: int)
    requires Wide(lim)
    ensures Acyclic(Mempool(lim))
  {
    var g := Mempool(lim);
    var rank := map x | x in g :: if x == 1 then 0 else if x == 2 then 2 else 1;
    forall p, x | IsParent(g, p, x) ensures rank[p] < rank[x] {
      Parents(lim, p, x);
    }
    assert Ranked(g, rank);
  }

  lemma IsKin(lim: int)
    requires Wide(lim)
    ensures Acyclic(Mempool(lim)) && Ancestry(Mempool(lim)) == Kin(lim) && Dag(Mempool(lim), Kin(lim)) && WeighsItsSize(Mempool(lim))
  {
    IsAcyclic(lim);
    AncestryIsDag(Mempool(lim));
    hide Acyclic, Dag, Generated, KinOf;
    forall x | x in Mempool(lim) ensures Ancestors(Mempool(lim), x) == KinOf(x) {
      SameKin(lim, x);
    }
    assert Ancestry(Mempool(lim)) == Kin(lim);
  }

  lemma SameKin(lim: int, x: Id)
    requires Wide(lim) && x in Mempool(lim)
    ensures Ancestors(Mempool(lim), x) == KinOf(x)
    decreases if x == 1 then 0 else if x == 2 then 2 else 1
  {
    var g := Mempool(lim);
    assert 1 in g && 3 in g;
    if x == 2 { SameKin(lim, 3); } else if x != 1 { SameKin(lim, 1); }
    forall a ensures a in Ancestors(g, x) <==> a in KinOf(x) {
      if a in Ancestors(g, x) {
        var p := AncestorStep(g, a, x);
        Parents(lim, p, x);
      }
      if a in KinOf(x) {
        var p := if x == 2 then 3 else 1;
        Parents(lim, p, x);
        ParentIsAncestor(g, p, x);
        if a != p { AncestorTransitive(g, a, p, x); }
      }
    }
  }

  // ---------- scores ----------

  /** In the run below, 1 is taken first and 2 after 3. */
  ghost predicate Stage(gone: set<Id>) {
    (3 in gone ==> 1 in gone) && (2 in gone ==> 3 in gone)
  }

  ghost function Size(lim: int, gone: set<Id>, x: Id): int {
    var room := lim - BASE_WEIGHT;
    if x == 0 then (if 1 in gone then 3 else room)
    else if x == 1 then room - 3
    else if x == 2 then (if 3 in gone then 3 else if 1 in gone then room - 1 else 2 * room - 4)
    else if 1 in gone then room - 4 else 2 * room - 7
  }

  /** Bounds on the scores, in satoshis per weight unit. */
  ghost function Low(gone: set<Id>, x: Id): int {
    if x == 0 then 1
    else if x == 1 then 2
    else if x == 2 then (if 3 in gone then 0 else if 1 in gone then 5 else 3)
    else if 1 in gone then 9 else 5
  }

  ghost function High(gone: set<Id>, x: Id): int {
    if x == 0 then (if 1 in gone then 1 else 2)
    else if x == 1 then 2
    else if x == 2 then (if 3 in gone then 0 else if 1 in gone then 9 else 6)
    else if 1 in gone then 9 else 6
  }

  lemma Scores(lim: int, gone: set<Id>, x: Id)
    requires Wide(lim) && x in Mempool(lim) && Stage(gone)
    ensures Scored(Mempool(lim), Kin(lim), gone, x, Size(lim, gone, x), Low(gone, x), High(gone, x))
  {
    hide Scored;
    var g, anc := Mempool(lim), Kin(lim);
    if KinOf(x) <= gone {
      ScoredAlone(g, anc, gone, x, Low(gone, x), High(gone, x));
    } else if x != 2 {
      ScoredPair(g, anc, gone, 1, x, Low(gone, x), High(gone, x));
    } else if 1 in gone {
      ScoredPair(g, anc, gone, 3, 2, 5, 9);
    } else {
      ScoredTriple(g, anc, gone, 1, 3, 2, 3, 6);
    }
  }

  /** The package of 2 is that of 3 and more weight, at no more fees. */
  lemma ThreeBeforeTwo(lim: int)
    requires Wide(lim)
    ensures FreshTotals(Mempool(lim), Kin(lim), 4, 2, {}).score <= FreshTotals(Mempool(lim), Kin(lim), 4, 3, {}).score
  {
    var g, anc := Mempool(lim), Kin(lim);
    assert Package(anc, 3, {}) == {1} + {3} && Package(anc, 2, {}) == {1} + {3} + {2};
    SumOfTwo(Fees(g), 1, 3);
    SumOfTwo(Sizes(g), 1, 3);
    SumOfThree(Fees(g), 1, 3, 2);
    SumOfThree(Sizes(g), 1, 3, 2);
    hide Total;
    MoreWeight(Total(Fees(g), {1} + {3}), Total(Sizes(g), {1} + {3}), Total(Sizes(g), {1} + {3} + {2}));
  }

  lemma MoreWeight(fee: int, size: int, size': int)
    requires 0 < size <= size' && fee >= 0
    ensures Rate(4, fee, size') <= Rate(4, fee, size)
  {
    Divided(4 as real * fee as real, size as real, size' as real);
  }

  lemma Divided(a: real, s: real, s': real)
    requires a >= 0.0 && 0.0 < s <= s'
    ensures a / s' <= a / s
  {
    var r, r' := a / s, a / s';
    NotNegative(r', s');
    assert r' * (s' - s) >= 0.0;
    assert (r - r') * s == a - r' * s' + r' * (s' - s);
    NotNegative(r - r', s);
  }

  lemma NotNegative(x: real, s: real)
    requires x * s >= 0.0 && s > 0.0
    ensures x >= 0.0
  {
  }

  // ---------- the steps ----------

  ghost predicate Happened(lim: int, events: seq<Event>, s: Seen)
    requires Wide(lim)
  {
    Told(Mempool(lim), Kin(lim), lim, events, s)
  }

  /** As long as the run is calm, nobody who waits scores more than "x". */
  lemma Look(lim: int, s: Seen, x: Id, took: bool)
    requires Wide(lim) && x in Mempool(lim) && x !in s.gone && s.failures <= 1000 && s.shuts < BOUNDED_BLOCKS && Stage(s.gone)
    requires took <==> s.weight + Size(lim, s.gone, x) < lim
    requires s.calm ==> x !in s.aside || x in s.twins
    requires s.calm ==> forall y :: 0 <= y < 4 && y != x && y !in s.gone && y !in s.aside ==> High(s.gone, y) <= Low(s.gone, x)
    ensures MayLook(Mempool(lim), Kin(lim), lim, s, x, took)
  {
    hide Scored, MayLook, Low, High, Size, Under, Kin;
    var g, anc := Mempool(lim), Kin(lim);
    Scores(lim, s.gone, x);
    if s.calm {
      forall y | y in g && y != x && y !in s.gone && y !in s.aside ensures Under(g, anc, s.gone, y, Low(s.gone, x)) {
        Scores(lim, s.gone, y);
        IsUnder(g, anc, s.gone, y, Size(lim, s.gone, y), Low(s.gone, y), High(s.gone, y), Low(s.gone, x));
      }
    }
    MayLookAt(g, anc, lim, s, x, Size(lim, s.gone, x), Low(s.gone, x), High(s.gone, x), took);
  }

  lemma FirstLook(lim: int)
    requires Wide(lim)
    ensures MayLook(Mempool(lim), Kin(lim), lim, AtStart(), 3, false)
  {
    hide FreshTotals, Kin;
    ThreeBeforeTwo(lim);
    Scores(lim, {}, 0);
    Scores(lim, {}, 1);
    Scores(lim, {}, 3);
  }

  lemma Refuse(lim: int, events: seq<Event>, s: Seen, x: Id) returns (more: seq<Event>)
    requires Wide(lim) && Happened(lim, events, s) && MayLook(Mempool(lim), Kin(lim), lim, s, x, false)
    ensures Happened(lim, more, AfterRefusing(s, x)) && more == events + [Refused(x)]
  {
    hide Told, MayLook, AfterRefusing;
    Refuses(Mempool(lim), Kin(lim), lim, events, s, x);
    more := events + [Refused(x)];
  }

  ghost function Children(x: Id): set<Id> {
    if x == 1 then {0, 2, 3} else if x == 3 then {2} else {}
  }

  lemma Effects(lim: int, x: Id)
    requires Wide(lim) && x in Mempool(lim)
    ensures Elements([x]) == {x} && DependentsOfAny(Kin(lim), {x}) == Children(x)
    ensures Total(Weights(Mempool(lim)), {x}) == Member(lim, x).weight
  {
    var g, anc := Mempool(lim), Kin(lim);
    assert 0 in anc && 2 in anc && 3 in anc;
    forall y ensures y in DependentsOfAny(anc, {x}) <==> y in Children(x) {
      assert y in anc ==> (KinOf(y) !! {x} <==> y !in Children(x));
    }
    SingleTotal(Weights(g), x);
  }

  ghost function Next(lim: int, s: Seen, picks: seq<Pick>, x: Id): Seen
    requires Wide(lim)
  {
    var d := Children(x);
    Seen(picks, s.gone + {x}, true, false, s.weight + Member(lim, x).weight, s.shuts, 0, s.aside - d, s.calm && s.twins !! d,
         s.doubled + s.aside * d, s.twins)
  }

  lemma Take(lim: int, events: seq<Event>, s: Seen, x: Id) returns (more: seq<Event>, picks: seq<Pick>)
    requires Wide(lim) && Happened(lim, events, s) && 0 <= x < 4 && KinOf(x) <= s.gone
    requires MayLook(Mempool(lim), Kin(lim), lim, s, x, true)
    ensures Happened(lim, more, Next(lim, s, picks, x))
    ensures |more| == |events| + 1 && more[..|events|] == events && more[|events|].Took? && LooksAt(more[|events|], x)
  {
    hide Told, MayLook, Mempool, Kin, DependentsOfAny, Elements, Total, Chosen, Dag, KinOf;
    IsKin(lim);
    OneIsCluster(lim, s.gone, x);
    Effects(lim, x);
    Takes(Mempool(lim), Kin(lim), lim, events, s, [x]);
    var p := Chosen(Mempool(lim), Kin(lim), s.picks, [x]);
    ChosenIs(Mempool(lim), Kin(lim), s.picks, [x]);
    picks := s.picks + [p];
    more := events + [Took(p)];
  }

  lemma OneIsCluster(lim: int, gone: set<Id>, x: Id)
    requires Wide(lim) && 0 <= x < 4 && KinOf(x) <= gone
    ensures IsCluster(Kin(lim), gone, [x]) && x in Mempool(lim)
  {
  }

  lemma Close(lim: int, events: seq<Event>, s: Seen) returns (more: seq<Event>)
    requires Wide(lim) && Happened(lim, events, s) && s.begun && s.shuts < BOUNDED_BLOCKS
    requires forall x :: 0 <= x < 4 && x !in s.gone ==> x in s.aside
    ensures Happened(lim, more, AfterClosing(s)) && more == events + [Shut]
  {
    hide Told;
    Closes(Mempool(lim), Kin(lim), lim, events, s);
    more := events + [Shut];
  }

  // ---------- the run ----------

  /** The child and its child are refused, the parent is taken, and both are pushed. */
  lemma ParentTaken(lim: int) returns (events: seq<Event>, picks: seq<Pick>)
    requires Wide(lim)
    ensures Happened(lim, events, Seen(picks, {1}, true, false, lim - 3, 0, 0, {}, true, {2, 3}, {}))
  {
    hide MayLook, Told;
    Begins(Mempool(lim), Kin(lim), lim);
    FirstLook(lim);
    events := Refuse(lim, [], AtStart(), 3);
    var s := Seen([], {}, false, false, BASE_WEIGHT, 0, 1, {3}, true, {}, {});
    assert AfterRefusing(AtStart(), 3) == s;
    Look(lim, s, 2, false);
    events := Refuse(lim, events, s, 2);
    var s' := Seen([], {}, false, false, BASE_WEIGHT, 0, 2, {2, 3}, true, {}, {});
    assert AfterRefusing(s, 2) == s';
    Look(lim, s', 1, true);
    events, picks := Take(lim, events, s', 1);
    assert Next(lim, s', picks, 1) == Seen(picks, {1}, true, false, lim - 3, 0, 0, {}, true, {2, 3}, {});
  }

  /** The block is closed when all three have been refused. */
  lemma FirstBlock(lim: int) returns (events: seq<Event>, picks: seq<Pick>)
    requires Wide(lim)
    ensures Happened(lim, events, Seen(picks, {1}, false, true, BASE_WEIGHT, 1, 3, {}, true, {}, {2, 3}))
  {
    hide Happened, MayLook;
    events, picks := ParentTaken(lim);
    var s := Seen(picks, {1}, true, false, lim - 3, 0, 0, {}, true, {2, 3}, {});
    Look(lim, s, 3, false);
    events := Refuse(lim, events, s, 3);
    assert {} + {3} == {3};
    s := s.(failures := 1, aside := {3});
    Look(lim, s, 2, false);
    events := Refuse(lim, events, s, 2);
    assert {3} + {2} == {2, 3};
    s := s.(failures := 2, aside := {2, 3});
    Look(lim, s, 0, false);
    events := Refuse(lim, events, s, 0);
    assert {2, 3} + {0} == {0, 2, 3};
    s := s.(failures := 3, aside := {0, 2, 3});
    events := Close(lim, events, s);
    assert {} + {2, 3} == {2, 3};
  }

  /** The child is taken: 2 has two entries, and its score falls to zero. */
  lemma ChildTaken(lim: int) returns (events: seq<Event>, picks: seq<Pick>)
    requires Wide(lim)
    ensures Happened(lim, events, Seen(picks, {1, 3}, true, false, lim - 4, 1, 0, {}, false, {}, {2, 3}))
  {
    hide Happened, MayLook;
    events, picks := FirstBlock(lim);
    var s := Seen(picks, {1}, false, true, BASE_WEIGHT, 1, 3, {}, true, {}, {2, 3});
    Look(lim, s, 3, true);
    events, picks := Take(lim, events, s, 3);
    assert {1} + {3} == {1, 3};
    assert Next(lim, s, picks, 3) == Seen(picks, {1, 3}, true, false, lim - 4, 1, 0, {}, false, {}, {2, 3});
  }

  ghost predicate NotTheBest(lim: int, events: seq<Event>, k: nat)
    requires Wide(lim) && k < |events|
  {
    var g, anc, before := Mempool(lim), Kin(lim), events[..k];
    events[k].Took? && LooksAt(events[k], 2) && !BestOf(g, anc, 4, Gone(PicksOf(before)), Aside(anc, before), 2)
  }

  lemma ZeroScoresMore(lim: int, events: seq<Event>, k: nat, s: Seen)
    requires Wide(lim) && k < |events| && events[k].Took? && LooksAt(events[k], 2) && Happened(lim, events[..k], s) && s.gone == {1, 3} && s.aside == {}
    ensures NotTheBest(lim, events, k)
  {
    hide Fair, ValidPicks, PicksOf, Gone, CurrentOf, Aside, Calm, Doubled, Twins, Shuts, Failures, Kin, FreshTotals, LooksAt, Total;
    Scores(lim, {1, 3}, 0);
    Scores(lim, {1, 3}, 2);
    assert 0 in Mempool(lim);
  }

  /** It is taken next, before 0, which still scores more. */
  lemma WorseTaken(lim: int) returns (events: seq<Event>, picks: seq<Pick>, k: nat)
    requires Wide(lim)
    ensures Happened(lim, events, Seen(picks, {1, 2, 3}, true, false, lim - 1, 1, 0, {}, false, {}, {2, 3}))
    ensures k < |events| && NotTheBest(lim, events, k)
  {
    hide Happened, MayLook, NotTheBest, LooksAt;
    var before;
    before, picks := ChildTaken(lim);
    var s := Seen(picks, {1, 3}, true, false, lim - 4, 1, 0, {}, false, {}, {2, 3});
    Look(lim, s, 2, true);
    k := |before|;
    events, picks := Take(lim, before, s, 2);
    ZeroScoresMore(lim, events, k, s);
    assert {1, 3} + {2} == {1, 2, 3};
    assert Next(lim, s, picks, 2) == Seen(picks, {1, 2, 3}, true, false, lim - 1, 1, 0, {}, false, {}, {2, 3});
  }

  lemma StillNotTheBest(lim: int, events: seq<Event>, k: nat, more: seq<Event>)
    requires Wide(lim) && k < |events| && NotTheBest(lim, events, k) && events <= more
    ensures k < |more| && NotTheBest(lim, more, k)
  {
    assert more[..k] == events[..k];
    hide Mempool, Kin, PicksOf, Gone, Aside, BestOf;
  }

  lemma LastBlock(lim: int) returns (events: seq<Event>, picks: seq<Pick>, k: nat)
    requires Wide(lim)
    ensures Happened(lim, events, Seen(picks, {0, 1, 2, 3}, false, true, BASE_WEIGHT, 3, 0, {}, false, {}, {2, 3}))
    ensures k < |events| && NotTheBest(lim, events, k)
  {
    hide Happened, MayLook, NotTheBest, LooksAt;
    var before;
    before, picks, k := WorseTaken(lim);
    var s := Seen(picks, {1, 2, 3}, true, false, lim - 1, 1, 0, {}, false, {}, {2, 3});
    Look(lim, s, 0, false);
    events := Refuse(lim, before, s, 0);
    s := s.(failures := 1, aside := {0});
    assert {} + {0} == {0};
    events := Close(lim, events, s);
    s := Seen(picks, {1, 2, 3}, false, true, BASE_WEIGHT, 2, 1, {}, false, {}, {2, 3});
    assert {2, 3} + {} == {2, 3};
    Look(lim, s, 0, true);
    events, picks := Take(lim, events, s, 0);
    assert {1, 2, 3} + {0} == {0, 1, 2, 3};
    assert Next(lim, s, picks, 0) == Seen(picks, {0, 1, 2, 3}, true, false, BASE_WEIGHT + 3, 2, 0, {}, false, {}, {2, 3});
    s := Seen(picks, {0, 1, 2, 3}, true, false, BASE_WEIGHT + 3, 2, 0, {}, false, {}, {2, 3});
    events := Close(lim, events, s);
    StillNotTheBest(lim, before, k, events);
  }

  /** A run may take 2, which scores nothing, before 0, which pays and waits, whatever room a block has for more than
      seven weight units. */
  lemma WorseChosen(lim: int) returns (events: seq<Event>, k: nat)
    requires Wide(lim)
    ensures var g := Mempool(lim); var anc := Ancestry(g);
      && Acyclic(g) && Run(g, anc, lim, events) && g.Keys <= Gone(PicksOf(events)) && k < |events|
      && events[k].Took? && LooksAt(events[k], 2)
      && !BestOf(g, anc, 4, Gone(PicksOf(events[..k])), Aside(anc, events[..k]), 2)
  {
    hide Told, Run, Dag, Acyclic, WeighsItsSize, Kin, Calm, Gone, PicksOf, Aside, BestOf;
    var picks;
    events, picks, k := LastBlock(lim);
    IsKin(lim);
    StopsAtLast(Mempool(lim), Kin(lim), lim, events, Seen(picks, {0, 1, 2, 3}, false, true, BASE_WEIGHT, 3, 0, {}, false, {}, {2, 3}));
  }
}
