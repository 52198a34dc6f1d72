/** Mempools every package of which would fit an empty block, and runs that take five transactions of more than a
    thousand: under every limit between 4004 and 8000 the loop can stop early on an empty block. */
module CoverExample {
  import opened PackageGraph
  import opened Relatives
  import opened Selection
  import opened Packaging
  import opened TxEvents
  import opened LeftOvers
  import opened RunSteps

  /** The limits under which three transactions fit one block, and an empty block counts as full. */
  ghost predicate Narrow(lim: int) {
    4004 <= lim < 8000
  }

  const CROWD: int := 1005

  /** A first block's filler; a child that pays for its parent 2; another parent and two children of it, one of them
      with both parents; two more children of 2; and the small ones. */
  ghost function Member(lim: int, x: Id): TxInfo
    requires Narrow(lim)
  {
    var room := lim - BASE_WEIGHT;
    if x == 0 then TxInfo(50 * (room - 2), room - 2, room - 2, 0, x, [])
    else if x == 1 then TxInfo(40 * (room - 3), room - 3, room - 3, 0, x, [2])
    else if x == 2 then TxInfo(0, 1, 1, 0, x, [])
    else if x == 3 then TxInfo(10, 1, 1, 0, x, [])
    else if x == 4 then TxInfo(12, 1, 1, 0, x, [3])
    else if x == 5 then TxInfo(22, 1, 1, 0, x, [3, 2])
    else if x <= 7 then TxInfo(14, 1, 1, 0, x, [2])
    else TxInfo(32, 2, 2, 0, x, [])
  }

  ghost function Mempool(lim: int): Graph
    requires Narrow(lim)
  {
    map x | 0 <= x < CROWD :: Member(lim, x)
  }

  ghost function KinOf(x: Id): set<Id> {
    if x == 4 then {3} else if x == 5 then {2, 3} else if x == 1 || x == 6 || x == 7 then {2} else {}
  }

  ghost function Kin(lim: int): Links
    requires Narrow(lim)
  {
    map x | x in Mempool(lim) :: KinOf(x)
  }

  lemma Parents(lim: int, p: Id, x: Id)
    requires Narrow(lim) && x in Mempool(lim)
    ensures IsParent(Mempool(lim), p, x) <==> p in KinOf(x)
    ensures p in KinOf(x) ==> p in Mempool(lim) && KinOf(p) == {}
  {
    assert 2 in Mempool(lim) && 3 in Mempool(lim);
    assert forall q: Id :: (q in [3] <==> q == 3) && (q in [2] <==> q == 2) && (q in [3, 2] <==> q == 3 || q == 2);
  }

  lemma IsAcyclic(lim: int)
    requires Narrow(lim)
    ensures Acyclic(Mempool(lim))
  {
    var g := Mempool(lim);
    var rank := map x | x in g :: if KinOf(x) == {} then 0 else 1;
    forall p, x | IsParent(g, p, x) ensures rank[p] < rank[x] {
      Parents(lim, p, x);
    }
    assert Ranked(g, rank);
  }

  lemma IsKin(lim: int)
    requires Narrow(lim)
    ensures Acyclic(Mempool(lim)) && Ancestry(Mempool(lim)) == Kin(lim) && Dag(Mempool(lim), Kin(lim))
  {
    hide Acyclic, Dag, Generated, KinOf;
    IsAcyclic(lim);
    AncestryIsDag(Mempool(lim));
    forall x | x in Mempool(lim) ensures Ancestors(Mempool(lim), x) == KinOf(x) {
      SameKin(lim, x);
    }
    assert Ancestry(Mempool(lim)) == Kin(lim);
  }

  lemma SameKin(lim: int, x: Id)
    requires Narrow(lim) && x in Mempool(lim)
    ensures Ancestors(Mempool(lim), x) == KinOf(x)
  {
    var g := Mempool(lim);
    forall a ensures a in Ancestors(g, x) <==> a in KinOf(x) {
      Parents(lim, a, x);
      if a in Ancestors(g, x) {
        var p := AncestorStep(g, a, x);
        Parents(lim, p, x);
        if a != p {
          var q := AncestorStep(g, a, p);
          Parents(lim, q, p);
        }
      }
      if a in KinOf(x) { ParentIsAncestor(g, a, x); }
    }
  }

  // ---------- scores ----------

  /** In the run below, 3 is taken before 2. */
  ghost predicate Stage(gone: set<Id>) {
    2 in gone ==> 3 in gone
  }

  ghost function Size(lim: int, gone: set<Id>, x: Id): int {
    var room := lim - BASE_WEIGHT;
    if x == 0 then room - 2
    else if x == 1 then (if 2 in gone then room - 3 else room - 2)
    else if x == 2 || x == 3 then 1
    else if x == 4 then (if 3 in gone then 1 else 2)
    else if x == 5 then (if 2 in gone then 1 else if 3 in gone then 2 else 3)
    else if x <= 7 then (if 2 in gone then 1 else 2)
    else 2
  }

  /** Bounds on the scores, in satoshis per weight unit. */
  ghost function Low(gone: set<Id>, x: Id): int {
    if x == 0 then 50
    else if x == 1 then (if 2 in gone then 40 else 20)
    else if x == 2 then 0
    else if x == 3 then 10
    else if x == 4 then (if 3 in gone then 12 else 11)
    else if x == 5 then (if 2 in gone then 22 else if 3 in gone then 11 else 10)
    else if x <= 7 then (if 2 in gone then 14 else 7)
    else 16
  }

  ghost function High(gone: set<Id>, x: Id): int {
    if x == 1 then 40 else if x == 5 && 3 !in gone then 11 else Low(gone, x)
  }

  lemma Scores(lim: int, gone: set<Id>, x: Id)
    requires Narrow(lim) && x in Mempool(lim) && Stage(gone)
    ensures Scored(Mempool(lim), Kin(lim), gone, x, Size(lim, gone, x), Low(gone, x), High(gone, x))
  {
    hide Scored;
    var g, anc := Mempool(lim), Kin(lim);
    if KinOf(x) <= gone {
      ScoredAlone(g, anc, gone, x, Low(gone, x), High(gone, x));
    } else if x == 4 {
      ScoredPair(g, anc, gone, 3, x, 11, 11);
    } else if x == 5 && 3 !in gone {
      ScoredTriple(g, anc, gone, 3, 2, x, 10, 11);
    } else {
      ScoredPair(g, anc, gone, 2, x, Low(gone, x), High(gone, x));
    }
  }

  lemma EverythingFits(lim: int)
    requires Narrow(lim)
    ensures AllFit(Mempool(lim), Kin(lim), lim)
  {
    forall x | x in Mempool(lim) ensures !NoRoom(Mempool(lim), Kin(lim), lim, {}, x) {
      Scores(lim, {}, x);
    }
    hide FreshTotals;
  }

  // ---------- the steps ----------

  /** As long as the run is calm, nobody who waits scores more than "x". */
  lemma Look(lim: int, s: Seen, x: Id, took: bool)
    requires Narrow(lim) && x in Mempool(lim) && x !in s.gone && (s.failures <= 1000 || s.closed) && s.shuts < BOUNDED_BLOCKS && Stage(s.gone)
    requires took <==> s.weight + Size(lim, s.gone, x) < lim
    requires s.calm ==> x !in s.aside || x in s.twins
    requires s.calm ==> forall y :: 0 <= y < CROWD && y != x && y !in s.gone && y !in s.aside ==> High(s.gone, y) <= Low(s.gone, x)
    ensures MayLook(Mempool(lim), Kin(lim), lim, s, x, took)
  {
    hide Scored, MayLook, Low, High, Size, Under, Kin;
    var g, anc := Mempool(lim), Kin(lim);
    Scores(lim, s.gone, x);
    if s.calm {
      forall y | y in g && y != x && y !in s.gone && y !in s.aside ensures Under(g, anc, s.gone, y, Low(s.gone, x)) {
        Scores(lim, s.gone, y);
        IsUnder(g, anc, s.gone, y, Size(lim, s.gone, y), Low(s.gone, y), High(s.gone, y), Low(s.gone, x));
      }
    }
    MayLookAt(g, anc, lim, s, x, Size(lim, s.gone, x), Low(s.gone, x), High(s.gone, x), took);
  }

  ghost predicate Happened(lim: int, events: seq<Event>, s: Seen)
    requires Narrow(lim)
  {
    Told(Mempool(lim), Kin(lim), lim, events, s)
  }

  lemma Refuse(lim: int, events: seq<Event>, s: Seen, x: Id) returns (more: seq<Event>)
    requires Narrow(lim) && Happened(lim, events, s) && MayLook(Mempool(lim), Kin(lim), lim, s, x, false)
    ensures Happened(lim, more, AfterRefusing(s, x))
  {
    hide Told, MayLook, AfterRefusing;
    Refuses(Mempool(lim), Kin(lim), lim, events, s, x);
    more := events + [Refused(x)];
  }

  ghost function Bulk(lim: int, cluster: seq<Id>): int {
    if cluster == [2, 1] || cluster == [0] then lim - BASE_WEIGHT - 2 else 1
  }

  ghost function Children(cluster: seq<Id>): set<Id> {
    if cluster == [2, 1] then {1, 5, 6, 7} else if cluster == [3] then {4, 5} else {}
  }

  lemma Effects(lim: int, cluster: seq<Id>)
    requires Narrow(lim) && cluster in {[0], [3], [2, 1], [5]}
    ensures DependentsOfAny(Kin(lim), Elements(cluster)) == Children(cluster)
    ensures Total(Weights(Mempool(lim)), Elements(cluster)) == Bulk(lim, cluster)
  {
    var g, anc := Mempool(lim), Kin(lim);
    assert 1 in anc && 4 in anc && 5 in anc && 6 in anc && 7 in anc;
    forall x ensures x in DependentsOfAny(anc, Elements(cluster)) <==> x in Children(cluster) {
      assert x in anc ==> (KinOf(x) !! Elements(cluster) <==> x !in Children(cluster));
    }
    hide Total, Children, DependentsOfAny, Kin;
    if cluster == [2, 1] {
      assert Elements(cluster) == {2} + {1};
      SumOfTwo(Weights(g), 2, 1);
    } else {
      assert Elements(cluster) == {cluster[0]};
      SingleTotal(Weights(g), cluster[0]);
    }
  }

  ghost function Next(lim: int, s: Seen, picks: seq<Pick>, cluster: seq<Id>): Seen {
    var d := Children(cluster);
    Seen(picks, s.gone + Elements(cluster), true, false, s.weight + Bulk(lim, cluster), s.shuts, 0, s.aside - d, s.calm && s.twins !! d,
         s.doubled + s.aside * d, s.twins)
  }

  lemma Take(lim: int, events: seq<Event>, s: Seen, cluster: seq<Id>) returns (more: seq<Event>, picks: seq<Pick>)
    requires Narrow(lim) && Happened(lim, events, s) && cluster in {[0], [3], [2, 1], [5]}
    requires MayLook(Mempool(lim), Kin(lim), lim, s, cluster[|cluster| - 1], true) && IsCluster(Kin(lim), s.gone, cluster)
    ensures Happened(lim, more, Next(lim, s, picks, cluster))
  {
    hide Told, MayLook, IsCluster, Mempool, Kin, DependentsOfAny, Elements, Total, Chosen;
    IsKin(lim);
    Takes(Mempool(lim), Kin(lim), lim, events, s, cluster);
    Effects(lim, cluster);
    picks := s.picks + [Chosen(Mempool(lim), Kin(lim), s.picks, cluster)];
    more := events + [Took(Chosen(Mempool(lim), Kin(lim), s.picks, cluster))];
  }

  // ---------- the small ones ----------

  ghost predicate IsSmall(x: Id) {
    x >= 8
  }

  ghost function Smalls(k: nat): set<Id> {
    set x | 8 <= x < 8 + k && IsSmall(x)
  }

  ghost function WithSmalls(s: Seen, k: nat): Seen {
    s.(failures := s.failures + k, aside := s.aside + Smalls(k))
  }

  lemma OneMoreSmall(s: Seen, k: nat)
    requires !s.closed
    ensures WithSmalls(s, k + 1) == AfterRefusing(WithSmalls(s, k), k + 8) && WithSmalls(s, 0) == s
  {
    assert s.aside + Smalls(k + 1) == s.aside + Smalls(k) + {k + 8};
    assert s.aside + Smalls(0) == s.aside;
  }

  /** The small ones are next: there is no room for them, and while the run is calm only those wait who score less. */
  ghost predicate SmallsNext(lim: int, s: Seen) {
    && !s.closed && s.shuts < BOUNDED_BLOCKS && s.weight + 2 >= lim && Stage(s.gone) && (forall x :: x in s.gone || x in s.aside ==> x < 8)
    && (s.calm ==> 2 !in s.gone && {0, 1} <= s.gone + s.aside)
  }

  lemma {:induction false} RefuseSmalls(lim: int, events: seq<Event>, s: Seen, k: nat) returns (more: seq<Event>)
    requires Narrow(lim) && Happened(lim, events, s) && SmallsNext(lim, s) && k <= 997 && s.failures + k <= 1000
    ensures Happened(lim, more, WithSmalls(s, k))
  {
    hide Happened, SmallsNext, WithSmalls, MayLook;
    assert !s.closed by { NotClosed(lim, s); }
    OneMoreSmall(s, 0);
    if k == 0 {
      more := events;
    } else {
      more := RefuseSmalls(lim, events, s, k - 1);
      NextSmall(lim, s, k - 1);
      more := Refuse(lim, more, WithSmalls(s, k - 1), k + 7);
      OneMoreSmall(s, k - 1);
    }
  }

  lemma NotClosed(lim: int, s: Seen)
    requires SmallsNext(lim, s)
    ensures !s.closed
  {
  }

  lemma NextSmall(lim: int, s: Seen, k: nat)
    requires Narrow(lim) && k < 997 && s.failures + k <= 1000 && SmallsNext(lim, s)
    ensures MayLook(Mempool(lim), Kin(lim), lim, WithSmalls(s, k), k + 8, false)
  {
    hide MayLook;
    Look(lim, WithSmalls(s, k), k + 8, false);
  }

  // ---------- the first block ----------

  ghost function First(lim: int, picks: seq<Pick>, gone: set<Id>, left: int, failures: nat, aside: set<Id>, doubled: set<Id>): Seen {
    Seen(picks, gone, true, false, lim - left, 0, failures, aside, true, doubled, {})
  }

  /** One more refusal in the first block. */
  lemma RefuseFirst(lim: int, events: seq<Event>, s: Seen, x: Id, aside: set<Id>) returns (more: seq<Event>)
    requires Narrow(lim) && Happened(lim, events, s) && 0 <= x < CROWD && x !in s.gone + s.aside && s.failures <= 1000 && s.shuts < BOUNDED_BLOCKS
    requires s.calm && Stage(s.gone) && !s.closed && s.weight + Size(lim, s.gone, x) >= lim && aside == s.aside + {x}
    requires forall y :: 0 <= y < CROWD && y !in s.gone + aside ==> High(s.gone, y) <= Low(s.gone, x)
    ensures Happened(lim, more, s.(failures := s.failures + 1, aside := aside))
  {
    hide Happened, MayLook, Low, High, Size;
    Look(lim, s, x, false);
    more := Refuse(lim, events, s, x);
  }

  lemma Filled(lim: int) returns (events: seq<Event>, picks: seq<Pick>)
    requires Narrow(lim)
    ensures Happened(lim, events, First(lim, picks, {0}, 2, 0, {}, {}))
  {
    hide MayLook, Told;
    Begins(Mempool(lim), Kin(lim), lim);
    Look(lim, AtStart(), 0, true);
    events, picks := Take(lim, [], AtStart(), [0]);
    assert Next(lim, AtStart(), picks, [0]) == First(lim, picks, {0}, 2, 0, {}, {});
  }

  /** All but two of the others that do not fit are refused... */
  lemma Crowded(lim: int) returns (events: seq<Event>, picks: seq<Pick>)
    requires Narrow(lim)
    ensures Happened(lim, events, First(lim, picks, {0}, 2, 1000, Smalls(997) + {1, 4, 5}, {}))
  {
    hide Happened;
    events, picks := Filled(lim);
    events := RefuseFirst(lim, events, First(lim, picks, {0}, 2, 0, {}, {}), 1, {1});
    events := RefuseSmalls(lim, events, First(lim, picks, {0}, 2, 1, {1}, {}), 997);
    assert {1} + Smalls(997) == Smalls(997) + {1};
    events := RefuseFirst(lim, events, First(lim, picks, {0}, 2, 998, Smalls(997) + {1}, {}), 4, Smalls(997) + {1, 4});
    events := RefuseFirst(lim, events, First(lim, picks, {0}, 2, 999, Smalls(997) + {1, 4}, {}), 5, Smalls(997) + {1, 4, 5});
  }

  /** ...before the parent of two of them is taken, and both are pushed. */
  lemma ParentTaken(lim: int) returns (events: seq<Event>, picks: seq<Pick>)
    requires Narrow(lim)
    ensures Happened(lim, events, First(lim, picks, {0, 3}, 1, 0, Smalls(997) + {1}, {4, 5}))
  {
    hide Happened, MayLook;
    events, picks := Crowded(lim);
    var s := First(lim, picks, {0}, 2, 1000, Smalls(997) + {1, 4, 5}, {});
    Look(lim, s, 3, true);
    events, picks := Take(lim, events, s, [3]);
    assert s.gone + Elements([3]) == {0, 3} && s.aside - {4, 5} == Smalls(997) + {1} && s.aside * {4, 5} == {4, 5};
    assert Next(lim, s, picks, [3]) == First(lim, picks, {0, 3}, 1, 0, Smalls(997) + {1}, {4, 5});
  }

  /** The block is closed when nobody waits. */
  lemma FirstBlock(lim: int) returns (events: seq<Event>, picks: seq<Pick>)
    requires Narrow(lim)
    ensures Happened(lim, events, Seen(picks, {0, 3}, false, true, BASE_WEIGHT, 1, 5, {}, true, {}, {4, 5}))
  {
    hide Happened;
    var gone, twins := {0, 3}, {4, 5};
    events, picks := ParentTaken(lim);
    events := RefuseFirst(lim, events, First(lim, picks, gone, 1, 0, Smalls(997) + {1}, twins), 4, Smalls(997) + {1, 4});
    events := RefuseFirst(lim, events, First(lim, picks, gone, 1, 1, Smalls(997) + {1, 4}, twins), 5, Smalls(997) + {1, 4, 5});
    events := RefuseFirst(lim, events, First(lim, picks, gone, 1, 2, Smalls(997) + {1, 4, 5}, twins), 7, Smalls(997) + {1, 4, 5, 7});
    events := RefuseFirst(lim, events, First(lim, picks, gone, 1, 3, Smalls(997) + {1, 4, 5, 7}, twins), 6, Smalls(997) + {1, 4, 5, 6, 7});
    events := RefuseFirst(lim, events, First(lim, picks, gone, 1, 4, Smalls(997) + {1, 4, 5, 6, 7}, twins), 2, Smalls(997) + {1, 2, 4, 5, 6, 7});
    events := FirstClosed(lim, events, picks);
  }

  lemma FirstClosed(lim: int, before: seq<Event>, picks: seq<Pick>) returns (events: seq<Event>)
    requires Narrow(lim) && Happened(lim, before, First(lim, picks, {0, 3}, 1, 5, Smalls(997) + {1, 2, 4, 5, 6, 7}, {4, 5}))
    ensures Happened(lim, events, Seen(picks, {0, 3}, false, true, BASE_WEIGHT, 1, 5, {}, true, {}, {4, 5}))
  {
    hide Told;
    var s := First(lim, picks, {0, 3}, 1, 5, Smalls(997) + {1, 2, 4, 5, 6, 7}, {4, 5});
    Closes(Mempool(lim), Kin(lim), lim, before, s);
    events := before + [Shut];
    assert {} + {4, 5} == {4, 5};
    assert AfterClosing(s) == Seen(picks, {0, 3}, false, true, BASE_WEIGHT, 1, 5, {}, true, {}, {4, 5});
  }

  // ---------- the second block ----------

  /** The package of 2 and 1 is taken: 5 depends on it, and has two entries. */
  ghost function Second(lim: int, picks: seq<Pick>, gone: set<Id>, left: int, failures: nat, aside: set<Id>): Seen {
    Seen(picks, gone, true, false, lim - left, 1, failures, aside, false, {}, {4, 5})
  }

  lemma PackageTaken(lim: int) returns (events: seq<Event>, picks: seq<Pick>)
    requires Narrow(lim)
    ensures Happened(lim, events, Second(lim, picks, {0, 1, 2, 3}, 2, 0, {}))
  {
    hide Happened, MayLook;
    events, picks := FirstBlock(lim);
    var s := Seen(picks, {0, 3}, false, true, BASE_WEIGHT, 1, 5, {}, true, {}, {4, 5});
    Look(lim, s, 1, true);
    events, picks := Take(lim, events, s, [2, 1]);
    assert s.gone + Elements([2, 1]) == {0, 1, 2, 3};
    assert Next(lim, s, picks, [2, 1]) == Second(lim, picks, {0, 1, 2, 3}, 2, 0, {});
  }

  lemma ChildTaken(lim: int) returns (events: seq<Event>, picks: seq<Pick>)
    requires Narrow(lim)
    ensures Happened(lim, events, Second(lim, picks, {0, 1, 2, 3, 5}, 1, 0, {}))
  {
    hide Happened, MayLook;
    events, picks := PackageTaken(lim);
    var s := Second(lim, picks, {0, 1, 2, 3}, 2, 0, {});
    Look(lim, s, 5, true);
    events, picks := Take(lim, events, s, [5]);
    assert s.gone + Elements([5]) == {0, 1, 2, 3, 5};
    assert Next(lim, s, picks, [5]) == Second(lim, picks, {0, 1, 2, 3, 5}, 1, 0, {});
  }

  /** One more refusal in the second block. */
  lemma RefuseSecond(lim: int, events: seq<Event>, picks: seq<Pick>, failures: nat, x: Id, aside: set<Id>) returns (more: seq<Event>)
    requires Narrow(lim) && Happened(lim, events, Second(lim, picks, {0, 1, 2, 3, 5}, 1, failures, aside)) && failures <= 1000
    requires 4 <= x < CROWD && x != 5
    ensures Happened(lim, more, Second(lim, picks, {0, 1, 2, 3, 5}, 1, failures + 1, aside + {x}))
  {
    hide Happened, MayLook;
    Look(lim, Second(lim, picks, {0, 1, 2, 3, 5}, 1, failures, aside), x, false);
    more := Refuse(lim, events, Second(lim, picks, {0, 1, 2, 3, 5}, 1, failures, aside), x);
  }

  /** Everyone left is refused: 4 twice, by each of its entries, which makes more than a thousand. */
  lemma SecondBlock(lim: int) returns (events: seq<Event>, picks: seq<Pick>, aside: set<Id>)
    requires Narrow(lim)
    ensures Happened(lim, events, Second(lim, picks, {0, 1, 2, 3, 5}, 1, 1001, aside))
  {
    hide Happened;
    events, picks := ChildTaken(lim);
    events := RefuseSmalls(lim, events, Second(lim, picks, {0, 1, 2, 3, 5}, 1, 0, {}), 997);
    aside := {} + Smalls(997);
    hide *;
    events := RefuseSecond(lim, events, picks, 997, 7, aside);
    events := RefuseSecond(lim, events, picks, 998, 6, aside + {7});
    events := RefuseSecond(lim, events, picks, 999, 4, aside + {7} + {6});
    events := RefuseSecond(lim, events, picks, 1000, 4, aside + {7} + {6} + {4});
    aside := aside + {7} + {6} + {4} + {4};
  }

  /** Every package fits an empty block, and yet a run may end with a thousand transactions left: straight after
      closing its second block, which a calm run could not do. */
  lemma ThousandLeft(lim: int) returns (events: seq<Event>)
    requires Narrow(lim)
    ensures var g := Mempool(lim); var anc := Ancestry(g);
      && Acyclic(g) && AllFit(g, anc, lim) && Run(g, anc, lim, events) && !Calm(anc, events)
      && Gone(PicksOf(events)) == {0, 1, 2, 3, 5} && (forall x :: 0 <= x < CROWD ==> x in g)
  {
    hide *;
    var before, picks, aside := SecondBlock(lim);
    EverythingFits(lim);
    IsKin(lim);
    events := before + [Shut];
    Ends(lim, before, picks, aside);
    AllThere(lim);
  }

  lemma Ends(lim: int, before: seq<Event>, picks: seq<Pick>, aside: set<Id>)
    requires Narrow(lim) && Happened(lim, before, Second(lim, picks, {0, 1, 2, 3, 5}, 1, 1001, aside)) && Dag(Mempool(lim), Kin(lim))
    ensures var events := before + [Shut];
      Run(Mempool(lim), Kin(lim), lim, events) && !Calm(Kin(lim), events) && Gone(PicksOf(events)) == {0, 1, 2, 3, 5}
  {
    hide *;
    var s := Second(lim, picks, {0, 1, 2, 3, 5}, 1, 1001, aside);
    SecondFull(lim, picks, aside);
    AsTold(lim, before, s);
    Closes(Mempool(lim), Kin(lim), lim, before, s);
    RunSteps.StopsEarly(Mempool(lim), Kin(lim), lim, before + [Shut], AfterClosing(s));
  }

  lemma SecondFull(lim: int, picks: seq<Pick>, aside: set<Id>)
    requires Narrow(lim)
    ensures var s := Second(lim, picks, {0, 1, 2, 3, 5}, 1, 1001, aside); var s' := AfterClosing(s);
      && MayClose(Mempool(lim), lim, s) && s.gone == s'.gone == {0, 1, 2, 3, 5}
      && !s'.begun && s'.shuts < BOUNDED_BLOCKS && s'.failures > 1000 && s'.weight > lim - BASE_WEIGHT && !s'.calm
    ensures WeighsItsSize(Mempool(lim))
  {
  }

  lemma AsTold(lim: int, events: seq<Event>, s: Seen)
    requires Narrow(lim) && Happened(lim, events, s)
    ensures Told(Mempool(lim), Kin(lim), lim, events, s)
  {
  }

  lemma AllThere(lim: int)
    requires Narrow(lim)
    ensures forall x :: 0 <= x < CROWD ==> x in Mempool(lim)
  {
  }

  lemma FiveTaken(lim: int, events: seq<Event>)
    requires Narrow(lim) && Gone(PicksOf(events)) == {0, 1, 2, 3, 5} && forall x :: 0 <= x < CROWD ==> x in Mempool(lim)
    ensures !(Mempool(lim).Keys <= Gone(PicksOf(events)))
  {
    assert 4 in Mempool(lim).Keys;
    hide Gone, PicksOf, Mempool;
  }

  lemma IsNarrow(limit: int)
    requires 4004 <= limit < 8000
    ensures Narrow(limit)
  {
  }

  lemma IsThorough(g: Graph, anc: Links, limit: int, events: seq<Event>)
    requires limit <= 4003 || limit >= 8000
    ensures Thorough(g, anc, limit, events)
  {
  }

  /** The limits under which every run takes everyone, on every mempool all full packages of which fit an empty block. */
  lemma EveryoneTakenIff(limit: int)
    ensures (forall g: Graph, events: seq<Event> ::
              Acyclic(g) && AllFit(g, Ancestry(g), limit) && Run(g, Ancestry(g), limit, events) ==> g.Keys <= Gone(PicksOf(events)))
        <==> limit <= 4003 || limit >= 8000
  {
    hide *;
    if limit <= 4003 || limit >= 8000 {
      forall g: Graph, events: seq<Event> | Acyclic(g) && AllFit(g, Ancestry(g), limit) && Run(g, Ancestry(g), limit, events)
        ensures g.Keys <= Gone(PicksOf(events))
      {
        IsThorough(g, Ancestry(g), limit, events);
        NobodyLeft(g, Ancestry(g), limit, events);
      }
    } else {
      IsNarrow(limit);
      var events := ThousandLeft(limit);
      FiveTaken(limit, events);
    }
  }
}
