/** Mempools of which the worker leaves all but one transaction behind, although they would fit: under a block limit
    between 4001 and 8000 its loop can stop on an empty block. */
module EarlyStopExample {
  import opened Collections
  import opened PackageGraph
  import opened Relatives
  import opened Selection
  import opened Packaging
  import opened TxEvents
  import opened LeftOvers
  import opened TxSelection
  import opened Mempools

  /** The limits under which something fits an empty block, and one counts as full after too many refusals. */
  ghost predicate Tight(lim: int) {
    4001 < lim < 8000
  }

  /** A transaction that never fits, one that fills a block, and "n" small ones that would fit another. */
  function Starved(lim: int, n: nat): seq<CompactTx>
    requires Tight(lim)
  {
    var fill := lim - BASE_WEIGHT - 1;
    seq(n + 2, i requires 0 <= i < n + 2 =>
      if i == 0 then CompactTx(0, 10 * lim, lim, 0, 40.0, 40.0, [])
      else if i == 1 then CompactTx(1, 2 * fill, fill, 0, 8.0, 8.0, [])
      else CompactTx(i, 1, 1, 0, 4.0, 4.0, []))
  }

  ghost function Crowd(lim: int, n: nat): Graph
    requires Tight(lim)
  {
    var fill := lim - BASE_WEIGHT - 1;
    map x | 0 <= x < n + 2 ::
      if x == 0 then TxInfo(10 * lim, lim, lim, 0, 0, []) else if x == 1 then TxInfo(2 * fill, fill, fill, 0, 1, []) else TxInfo(1, 1, 1, 0, x, [])
  }

  ghost function Alone(lim: int, n: nat): Links
    requires Tight(lim)
  {
    map x | x in Crowd(lim, n) :: {}
  }

  ghost function Small(lim: int, n: nat): set<Id>
    requires Tight(lim)
  {
    set x | x in Crowd(lim, n) && x >= 2
  }

  lemma UidsOf(lim: int, n: nat)
    requires Tight(lim)
    ensures |Uids(Starved(lim, n))| == n + 2 && forall i :: 0 <= i < n + 2 ==> Uids(Starved(lim, n))[i] == i
    ensures Distinct(Uids(Starved(lim, n))) && AcyclicMempool(Starved(lim, n))
  {
    assert RankedMempool(Starved(lim, n), map x | x in Crowd(lim, n) :: 0);
  }

  lemma IsCrowd(g: Graph, lim: int, n: nat)
    requires Tight(lim)
    requires IsPool(g, Starved(lim, n))
    ensures g == Crowd(lim, n)
  {
    UidsOf(lim, n);
    forall x ensures x in g <==> 0 <= x < n + 2 {
      assert x in g ==> x in Uids(Starved(lim, n));
      assert 0 <= x < n + 2 ==> Uids(Starved(lim, n))[x] == x;
    }
    forall x | 0 <= x < n + 2 ensures g[x] == Crowd(lim, n)[x] {
      assert Starved(lim, n)[x].uid == x;
    }
  }

  lemma AreAlone(lim: int, n: nat)
    requires Tight(lim)
    ensures Ancestry(Crowd(lim, n)) == Alone(lim, n)
  {
    forall x, a ensures a !in Ancestors(Crowd(lim, n), x) {
      if a in Ancestors(Crowd(lim, n), x) { var p := AncestorStep(Crowd(lim, n), a, x); }
    }
    forall x | 0 <= x < n + 2 ensures Ancestors(Crowd(lim, n), x) == {} {
    }
  }

  /** Nobody depends on anybody: the run stays calm and nobody gets a second chance. */
  lemma {:induction false} AlwaysCalm(lim: int, n: nat, events: seq<Event>)
    requires Tight(lim)
    ensures Calm(Alone(lim, n), events) && Doubled(Alone(lim, n), events) == Twins(Alone(lim, n), events) == {}
  {
    if events != [] {
      AlwaysCalm(lim, n, events[..|events| - 1]);
      if events[|events| - 1].Took? { NoDependents(lim, n, Elements(events[|events| - 1].pick.cluster)); }
    }
  }

  lemma NoDependents(lim: int, n: nat, s: set<Id>)
    requires Tight(lim)
    ensures DependentsOfAny(Alone(lim, n), s) == {}
  {
  }

  /** Everyone's package is the transaction itself. */
  lemma Scores(lim: int, n: nat, gone: set<Id>, x: Id)
    requires Tight(lim)
    requires x in Crowd(lim, n)
    ensures Package(Alone(lim, n), x, gone) == {x}
    ensures var t := FreshTotals(Crowd(lim, n), Alone(lim, n), 4, x, gone);
      t.size == Crowd(lim, n)[x].size && t.sigops == 0 && t.score == (if x == 0 then 40.0 else if x == 1 then 8.0 else 4.0)
  {
    var g := Crowd(lim, n);
    assert Package(Alone(lim, n), x, gone) == {x};
    SingleTotal(Fees(g), x);
    SingleTotal(Sizes(g), x);
    SingleTotal(Sigops(g), x);
    RateOfMultiple(10, lim);
    RateOfMultiple(2, lim - BASE_WEIGHT - 1);
    RateOfMultiple(1, 1);
    hide Total, Rate;
  }

  /** Once the second transaction is taken: "j" of the small ones have been refused. */
  ghost predicate Refusing(lim: int, n: nat, p: Pick, events: seq<Event>, j: nat)
    requires Tight(lim)
  {
    && PicksOf(events) == CurrentOf(events) == [p] && Shuts(events) == 0 && Failures(events) == j
    && Aside(Alone(lim, n), events) <= {0} + Small(lim, n) && 0 in Aside(Alone(lim, n), events)
    && |Aside(Alone(lim, n), events) - {0}| == j
  }

  ghost predicate TakesSecond(p: Pick) {
    p.cluster != [] && Root(p) == 1 && Elements(p.cluster) == {1}
  }

  lemma OpenWeight(lim: int, n: nat, p: Pick)
    requires Tight(lim)
    requires TakesSecond(p)
    ensures Gone([p]) == {1} && Total(Weights(Crowd(lim, n)), Gone([p])) == lim - BASE_WEIGHT - 1
    ensures Total(Weights(Crowd(lim, n)), Gone([])) == 0 && Gone([]) == {}
  {
    assert [p][..0] == [];
    SingleTotal(Weights(Crowd(lim, n)), 1);
  }

  lemma SmallOnes(lim: int, n: nat)
    requires Tight(lim)
    ensures |Small(lim, n)| == n && forall x :: x in Small(lim, n) <==> 2 <= x < n + 2
  {
    if n > 0 {
      SmallOnes(lim, n - 1);
      assert Small(lim, n) == Small(lim, n - 1) + {n + 1};
    } else {
      assert Small(lim, 0) == {};
    }
  }

  lemma FirstEvent(lim: int, n: nat, e: Event)
    requires Tight(lim)
    requires FairEvent(Crowd(lim, n), Alone(lim, n), 4, lim, [], e)
    ensures e == Refused(0)
  {
    var root := if e.Took? then Root(e.pick) else if e.Refused? then e.root else -1;
    assert e != Shut;
    Scores(lim, n, {}, 0);
    Scores(lim, n, {}, root);
    AlwaysCalm(lim, n, []);
    assert Gone(PicksOf([])) == {} && Aside(Alone(lim, n), []) == {} && Total(Weights(Crowd(lim, n)), {}) == 0;
    hide FreshTotals, Total, Gone, PicksOf, Aside, Calm, MayGo;
    assert BestOf(Crowd(lim, n), Alone(lim, n), 4, {}, {}, root);
    assert root == 0;
  }

  lemma AfterFirst(lim: int, n: nat)
    requires Tight(lim)
    ensures var events := [Refused(0)];
      && PicksOf(events) == CurrentOf(events) == [] && Shuts(events) == 0 && Failures(events) == 1 && Aside(Alone(lim, n), events) == {0}
  {
    RefusedOneMore(Alone(lim, n), [], 0);
    assert [Refused(0)] == [] + [Refused(0)];
  }

  lemma SecondEvent(lim: int, n: nat, e: Event)
    requires Tight(lim)
    requires FairEvent(Crowd(lim, n), Alone(lim, n), 4, lim, [Refused(0)], e)
    ensures e.Took? && e.pick.cluster != [] && Root(e.pick) == 1
  {
    var root := if e.Took? then Root(e.pick) else if e.Refused? then e.root else -1;
    AfterFirst(lim, n);
    Scores(lim, n, {}, 1);
    AlwaysCalm(lim, n, [Refused(0)]);
    assert Total(Weights(Crowd(lim, n)), {}) == 0 && Gone([]) == {};
    assert e != Shut;
    assert root in Crowd(lim, n);
    Scores(lim, n, {}, root);
    hide FreshTotals, Total, Gone, PicksOf, CurrentOf, Aside, Calm, MayGo, Shuts, Failures;
    assert BestOf(Crowd(lim, n), Alone(lim, n), 4, {}, {0}, root);
    assert root == 1;
  }

  lemma AfterSecond(lim: int, n: nat, p: Pick)
    requires Tight(lim)
    requires TakesSecond(p)
    ensures Refusing(lim, n, p, [Refused(0), Took(p)], 0)
  {
    AfterFirst(lim, n);
    TookOneMore(Alone(lim, n), [Refused(0)], p);
    assert [Refused(0), Took(p)] == [Refused(0)] + [Took(p)];
    NoDependents(lim, n, Elements(p.cluster));
    assert {0} - {} == {0} && {0} - {0} == {};
  }

  /** Up to the thousandth, another small transaction is looked at, and does not fit. */
  lemma NextRefusal(lim: int, n: nat, p: Pick, events: seq<Event>, j: nat, e: Event)
    requires Tight(lim)
    requires TakesSecond(p) && Refusing(lim, n, p, events, j) && j <= 1000 < n
    requires FairEvent(Crowd(lim, n), Alone(lim, n), 4, lim, events, e)
    ensures e.Refused? && Refusing(lim, n, p, events + [e], j + 1)
  {
    hide Total, Gone, PicksOf, CurrentOf, Aside, Calm, Doubled, Twins, OverflowOf, Lead, MayGo, Shuts, Failures, BestOf, FreshTotals, Exceeded, NobodyWaits, Alone;
    var g, anc, aside := Crowd(lim, n), Alone(lim, n), Aside(Alone(lim, n), events);
    SomeoneWaits(lim, n, p, events, j);
    assert e != Shut;
    var root := if e.Took? then Root(e.pick) else e.root;
    AlwaysCalm(lim, n, events);
    assert Looked(g, anc, 4, lim, events, root, e.Took?);
    OpenWeight(lim, n, p);
    assert root in g && root != 1 && root !in aside;
    Scores(lim, n, Gone([p]), root);
    assert e == Refused(root);
    RefusedOneMore(anc, events, root);
    OneMoreAside(lim, n, aside, root);
  }

  lemma OneMoreAside(lim: int, n: nat, aside: set<Id>, root: Id)
    requires Tight(lim)
    requires aside <= {0} + Small(lim, n) && 0 in aside && (root == 0 || root in Small(lim, n)) && root != 1 && root !in aside
    ensures aside + {root} <= {0} + Small(lim, n) && |aside + {root} - {0}| == |aside - {0}| + 1
  {
    assert aside + {root} - {0} == (aside - {0}) + {root};
  }

  lemma SomeoneWaits(lim: int, n: nat, p: Pick, events: seq<Event>, j: nat)
    requires Tight(lim)
    requires TakesSecond(p) && Refusing(lim, n, p, events, j) && j <= 1000 < n
    ensures !Exceeded(Crowd(lim, n), lim, events) && !NobodyWaits(Crowd(lim, n), Alone(lim, n), events)
  {
    var aside := Aside(Alone(lim, n), events);
    SmallOnes(lim, n);
    OpenWeight(lim, n, p);
    if Small(lim, n) <= aside {
      assert Small(lim, n) <= aside - {0};
      CardinalityOrder(Small(lim, n), aside - {0});
    }
    SomeOutside(Small(lim, n), aside);
    var x :| x in Small(lim, n) && x !in aside;
    assert x in Crowd(lim, n) && x !in Gone(PicksOf(events));
  }

  lemma SomeOutside(s: set<Id>, t: set<Id>)
    requires !(s <= t)
    ensures exists x :: x in s && x !in t
  {
    if s - t == {} {
      forall x | x in s ensures x in t { assert x !in s - t; }
    }
    NonEmpty(s - t);
    var x :| x in s - t;
  }

  lemma CardinalityOrder(s: set<Id>, t: set<Id>)
    requires s <= t
    ensures |s| <= |t|
  {
    assert t == s + (t - s);
  }

  lemma EventAt(lim: int, n: nat, events: seq<Event>, k: nat)
    requires Tight(lim)
    requires Fair(Crowd(lim, n), Alone(lim, n), 4, lim, events) && k < |events|
    ensures FairEvent(Crowd(lim, n), Alone(lim, n), 4, lim, events[..k], events[k]) && events[..k + 1] == events[..k] + [events[k]]
  {
    hide FairEvent, Crowd, Alone;
  }

  /** The run cannot end while somebody is left and the open block holds a package. */
  lemma GoesOn(lim: int, n: nat, p: Pick, events: seq<Event>, j: nat)
    requires Tight(lim)
    requires TakesSecond(p) && Refusing(lim, n, p, events, j) && n > 0
    ensures !Exhausted(Crowd(lim, n), Alone(lim, n), lim, events)
  {
    OpenWeight(lim, n, p);
    SmallOnes(lim, n);
    assert 2 in Crowd(lim, n) && 2 !in Gone(PicksOf(events));
  }

  lemma NotAtStart(lim: int, n: nat)
    requires Tight(lim)
    requires n > 0
    ensures !Exhausted(Crowd(lim, n), Alone(lim, n), lim, []) && !Exhausted(Crowd(lim, n), Alone(lim, n), lim, [Refused(0)])
  {
    AfterFirst(lim, n);
    assert PicksOf([]) == [] && Gone([]) == {} && Aside(Alone(lim, n), []) == {} && Failures([]) == 0;
    SmallOnes(lim, n);
    assert 2 in Crowd(lim, n);
    hide Total, Small;
  }

  lemma Longer(lim: int, n: nat, events: seq<Event>, start: seq<Event>)
    requires Tight(lim)
    requires Exhausted(Crowd(lim, n), Alone(lim, n), lim, events) && !Exhausted(Crowd(lim, n), Alone(lim, n), lim, start) && start <= events
    ensures |events| > |start|
  {
    assert |events| == |start| ==> events == start;
    hide Exhausted;
  }

  lemma TakenSecond(lim: int, n: nat, events: seq<Event>) returns (p: Pick)
    requires Tight(lim)
    requires n > 0 && Run(Crowd(lim, n), Alone(lim, n), lim, events)
    ensures |events| >= 2 && events[..2] == [Refused(0), Took(p)] && TakesSecond(p) && Distinct(p.cluster)
  {
    hide *;
    RunParts(Crowd(lim, n), Alone(lim, n), lim, events);
    NotAtStart(lim, n);
    Longer(lim, n, events, []);
    EventAt(lim, n, events, 0);
    assert events[..0] == [];
    FirstEvent(lim, n, events[0]);
    assert events[..1] == [Refused(0)];
    Longer(lim, n, events, [Refused(0)]);
    EventAt(lim, n, events, 1);
    SecondEvent(lim, n, events[1]);
    p := events[1].pick;
    FirstPick(lim, n, events, p);
  }

  lemma FirstPick(lim: int, n: nat, events: seq<Event>, p: Pick)
    requires Tight(lim)
    requires ValidPicks(Crowd(lim, n), Alone(lim, n), 4, map[], PicksOf(events))
    requires |events| >= 2 && events[..2] == [Refused(0), Took(p)] && p.cluster != [] && Root(p) == 1
    ensures TakesSecond(p) && Distinct(p.cluster)
  {
    AfterFirst(lim, n);
    hide *;
    TookOneMore(Alone(lim, n), [Refused(0)], p);
    assert [Refused(0), Took(p)] == [Refused(0)] + [Took(p)];
    PicksPrefix(events, 2);
    SecondIsPick(lim, n, PicksOf(events), p);
  }

  lemma SecondIsPick(lim: int, n: nat, picks: seq<Pick>, p: Pick)
    requires Tight(lim)
    requires ValidPicks(Crowd(lim, n), Alone(lim, n), 4, map[], picks) && [p] <= picks && p.cluster != [] && Root(p) == 1
    ensures TakesSecond(p) && Distinct(p.cluster)
  {
    assert picks[0] == p && picks[..0] == [];
    assert ValidPick(Crowd(lim, n), Alone(lim, n), 4, map[], [], p);
    hide FreshTotals, DependencyRate, ParentsFirst, ValidPicks, Gone;
    assert 1 in Crowd(lim, n);
    Scores(lim, n, Gone([]), 1);
  }

  /** All the way to the refusal that is one too many. */
  lemma {:induction false} ManyRefusals(lim: int, n: nat, p: Pick, events: seq<Event>, j: nat)
    requires Tight(lim)
    requires n > 1000 && Run(Crowd(lim, n), Alone(lim, n), lim, events)
    requires TakesSecond(p) && |events| >= 2 && events[..2] == [Refused(0), Took(p)] && j <= 1001
    ensures |events| > j + 2 && Refusing(lim, n, p, events[..j + 2], j)
    decreases j
  {
    hide *;
    RunParts(Crowd(lim, n), Alone(lim, n), lim, events);
    if j == 0 {
      AfterSecond(lim, n, p);
    } else {
      ManyRefusals(lim, n, p, events, j - 1);
      EventAt(lim, n, events, j + 1);
      NextRefusal(lim, n, p, events[..j + 1], j - 1, events[j + 1]);
    }
    GoesOn(lim, n, p, events[..j + 2], j);
    Longer(lim, n, events, events[..j + 2]);
  }

  /** Then the block is closed... */
  lemma BlockClosed(lim: int, n: nat, p: Pick, events: seq<Event>, e: Event)
    requires Tight(lim)
    requires TakesSecond(p) && Refusing(lim, n, p, events, 1001) && FairEvent(Crowd(lim, n), Alone(lim, n), 4, lim, events, e)
    requires events != [] && events[|events| - 1] != Shut
    ensures e == Shut
  {
    OpenWeight(lim, n, p);
    assert Exceeded(Crowd(lim, n), lim, events);
    hide Total, Gone, PicksOf, CurrentOf, Aside, Calm, BestOf, FreshTotals;
  }

  /** ...the first transaction is looked at again... */
  lemma FirstAgain(lim: int, n: nat, p: Pick, events: seq<Event>, e: Event)
    requires Tight(lim)
    requires TakesSecond(p) && Refusing(lim, n, p, events, 1001) && FairEvent(Crowd(lim, n), Alone(lim, n), 4, lim, events + [Shut], e)
    ensures e == Refused(0)
  {
    var root := if e.Took? then Root(e.pick) else if e.Refused? then e.root else -1;
    ShutOneMore(Alone(lim, n), events);
    OpenWeight(lim, n, p);
    Scores(lim, n, {1}, 0);
    AlwaysCalm(lim, n, events + [Shut]);
    assert e != Shut;
    assert root in Crowd(lim, n);
    Scores(lim, n, {1}, root);
    hide FreshTotals, Total, Gone, PicksOf, CurrentOf, Aside, Calm, MayGo, Shuts, Failures;
    assert BestOf(Crowd(lim, n), Alone(lim, n), 4, {1}, {}, root);
    assert root == 0;
  }

  /** ...and that is the end. */
  lemma NoMore(lim: int, n: nat, p: Pick, events: seq<Event>, e: Event)
    requires Tight(lim)
    requires TakesSecond(p) && Refusing(lim, n, p, events, 1001)
    ensures !FairEvent(Crowd(lim, n), Alone(lim, n), 4, lim, events + [Shut] + [Refused(0)], e)
    ensures PicksOf(events + [Shut] + [Refused(0)]) == PicksOf(events + [Shut]) == [p]
  {
    ShutOneMore(Alone(lim, n), events);
    RefusedOneMore(Alone(lim, n), events + [Shut], 0);
    OpenWeight(lim, n, p);
    hide Gone, Total, PicksOf, CurrentOf, Aside, Calm, Shuts, Failures, BestOf, FreshTotals;
  }

  lemma LastIs(events: seq<Event>, k: nat)
    requires k < |events|
    ensures events[..k + 1] != [] && events[..k + 1][|events[..k + 1]| - 1] == events[k]
  {
  }

  /** Whatever the worker does with more than a thousand small transactions, it takes only the second one. */
  lemma OnlySecondTaken(lim: int, n: nat, events: seq<Event>) returns (p: Pick)
    requires Tight(lim)
    requires n > 1000 && Run(Crowd(lim, n), Alone(lim, n), lim, events)
    ensures PicksOf(events) == [p] && TakesSecond(p) && Distinct(p.cluster)
  {
    hide *;
    RunParts(Crowd(lim, n), Alone(lim, n), lim, events);
    p := TakenSecond(lim, n, events);
    ManyRefusals(lim, n, p, events, 1001);
    var k := 1003;
    ManyRefusals(lim, n, p, events, 1000);
    EventAt(lim, n, events, 1002);
    NextRefusal(lim, n, p, events[..1002], 1000, events[1002]);
    LastIs(events, 1002);
    EventAt(lim, n, events, k);
    BlockClosed(lim, n, p, events[..k], events[k]);
    assert events[..k + 1] == events[..k] + [Shut];
    NoMore(lim, n, p, events[..k], Shut);
    if |events| > k + 1 {
      EventAt(lim, n, events, k + 1);
      FirstAgain(lim, n, p, events[..k], events[k + 1]);
      assert events[..k + 2] == events[..k] + [Shut] + [Refused(0)];
      if |events| > k + 2 {
        EventAt(lim, n, events, k + 2);
        NoMore(lim, n, p, events[..k], events[k + 2]);
      }
      assert events == events[..k + 2];
    } else {
      assert events == events[..k + 1];
    }
  }

  /** The small ones would fit, each into a block of its own. */
  lemma SmallFit(lim: int, n: nat, x: Id)
    requires Tight(lim)
    requires x in Small(lim, n)
    ensures x in Crowd(lim, n) && !NoRoom(Crowd(lim, n), Alone(lim, n), lim, {1}, x)
  {
    Scores(lim, n, {1}, x);
    hide FreshTotals;
  }

  lemma {:induction false} FlatLonger(closed: seq<seq<Pick>>)
    requires forall i :: 0 <= i < |closed| ==> closed[i] != []
    ensures |Flat(closed)| >= |closed|
  {
    if closed != [] { FlatLonger(closed[..|closed| - 1]); }
  }

  lemma OnlyBlock(blockPicks: seq<seq<Pick>>, p: Pick)
    requires Flat(blockPicks) == [p] && forall i :: 0 <= i < |blockPicks| ==> blockPicks[i] != []
    ensures blockPicks == [[p]]
  {
    FlatLonger(blockPicks);
    assert blockPicks != [];
    assert |blockPicks| == 1;
    assert blockPicks[..0] == [];
    assert Flat(blockPicks) == Flat(blockPicks[..0]) + blockPicks[0];
    assert Flat(blockPicks[..0]) == [];
    assert blockPicks[0] == [p];
  }

  lemma SingleIds(p: Pick)
    requires TakesSecond(p) && Distinct(p.cluster)
    ensures EmittedIds([p]) == [1]
  {
    SamePermutation(p.cluster, [1]);
    assert |p.cluster| == |multiset(p.cluster)| == 1;
    assert p.cluster[0] in multiset(p.cluster);
    assert [p][..0] == [] && EmittedIds([]) == [];
    assert Popping(p, 1) == Popping(p, 0) + [p.cluster[0]];
  }

  lemma BlocksOf(g: Graph, anc: Links, lim: int, effective: map<Id, real>, blocks: seq<seq<Id>>, notes: Notes, blockPicks: seq<seq<Pick>>)
    requires Selected(g, anc, lim, effective, blocks, notes, blockPicks)
    ensures |blocks| == |blockPicks| && ValidPicks(g, anc, 4, map[], Flat(blockPicks))
    ensures forall i :: 0 <= i < |blocks| ==> blockPicks[i] != [] && blocks[i] == EmittedIds(blockPicks[i])
  {
    hide ValidPicks, Noted, Flat, EmittedIds, ClosedBlock;
  }

  /** The worker's answer: one block with one transaction. */
  method StarvedBlocks(lim: int, n: nat) returns (blocks: seq<seq<Id>>)
    requires Tight(lim)
    requires n > 1000
    ensures blocks == [[1]]
  {
    hide *;
    UidsOf(lim, n);
    var rates, clusters;
    ghost var g, blockPicks, notes, effective, own, events;
    blocks, rates, clusters, g, blockPicks, notes, effective, own, events := MakeBlockTemplates(Starved(lim, n), lim);
    IsCrowd(g, lim, n);
    AreAlone(lim, n);
    BlocksOf(g, Ancestry(g), lim, effective, blocks, notes, blockPicks);
    ghost var p := OnlySecondTaken(lim, n, events);
    OnlyBlock(blockPicks, p);
    SingleIds(p);
  }

  // ---------- the run itself ----------

  ghost function Second(): Pick {
    Pick([1], 8.0)
  }

  /** The first transaction refused, the second taken, and "j" small ones refused. */
  ghost function Story(j: nat): seq<Event> {
    if j == 0 then [Refused(0), Took(Second())] else Story(j - 1) + [Refused(j + 1)]
  }

  /** Where that leads, with the ids of those refused. */
  ghost predicate Told(lim: int, n: nat, j: nat)
    requires Tight(lim)
  {
    var g, anc, events := Crowd(lim, n), Alone(lim, n), Story(j);
    && Fair(g, anc, 4, lim, events) && PicksOf(events) == CurrentOf(events) == [Second()] && Shuts(events) == 0 && Failures(events) == j
    && AllUpTo(Aside(anc, events), j)
  }

  /** The first transaction and the first "j" small ones. */
  ghost predicate AllUpTo(s: set<Id>, j: nat) {
    forall x :: x in s <==> x == 0 || 2 <= x < j + 2
  }

  lemma Beginning(lim: int, n: nat)
    requires Tight(lim)
    ensures Told(lim, n, 0)
  {
    var g, anc := Crowd(lim, n), Alone(lim, n);
    FairBeginning(lim, n);
    hide Fair, PicksOf, CurrentOf, Shuts, Failures, Aside, Crowd, Alone, Calm, Doubled, Twins, OverflowOf, Lead, DependentsOfAny;
    AfterFirst(lim, n);
    TookOneMore(anc, [Refused(0)], Second());
    NoDependents(lim, n, Elements(Second().cluster));
    assert [Refused(0)] + [Took(Second())] == Story(0);
  }

  lemma FairBeginning(lim: int, n: nat)
    requires Tight(lim)
    ensures Fair(Crowd(lim, n), Alone(lim, n), 4, lim, Story(0))
  {
    hide Fair, FairEvent, Crowd, Alone;
    var g, anc := Crowd(lim, n), Alone(lim, n);
    NothingYet(lim, g, anc);
    FirstLook(lim, n);
    FairExtended(g, anc, 4, lim, [], Refused(0));
    assert [] + [Refused(0)] == [Refused(0)];
    SecondLook(lim, n);
    FairExtended(g, anc, 4, lim, [Refused(0)], Took(Second()));
    assert [Refused(0)] + [Took(Second())] == Story(0);
  }

  lemma NothingYet(lim: int, g: Graph, anc: Links)
    ensures Fair(g, anc, 4, lim, [])
  {
  }

  lemma FirstLook(lim: int, n: nat)
    requires Tight(lim)
    ensures FairEvent(Crowd(lim, n), Alone(lim, n), 4, lim, [], Refused(0))
  {
    NoEvents(lim, n);
    FirstRefuses(lim, n);
    FirstBest(lim, n);
    hide FreshTotals, Total, Gone, PicksOf, CurrentOf, Shuts, Aside, Calm, Alone, FitsAt, BestOf;
  }

  lemma FirstRefuses(lim: int, n: nat)
    requires Tight(lim)
    ensures !FitsAt(Crowd(lim, n), Alone(lim, n), 4, lim, [], 0)
  {
    NoEvents(lim, n);
    hide FreshTotals, Total, Gone, PicksOf, CurrentOf, Shuts, Alone;
    Scores(lim, n, {}, 0);
  }

  lemma FirstBest(lim: int, n: nat)
    requires Tight(lim)
    ensures BestOf(Crowd(lim, n), Alone(lim, n), 4, {}, {}, 0)
  {
    hide FreshTotals, Alone;
    Scores(lim, n, {}, 0);
    forall x | x in Crowd(lim, n) ensures FreshTotals(Crowd(lim, n), Alone(lim, n), 4, x, {}).score <= 40.0 {
      Scores(lim, n, {}, x);
    }
  }

  lemma NoEvents(lim: int, n: nat)
    requires Tight(lim)
    ensures PicksOf([]) == CurrentOf([]) == [] && Shuts([]) == 0 && Gone([]) == {} && Aside(Alone(lim, n), []) == {}
    ensures Total(Weights(Crowd(lim, n)), Gone([])) == 0
  {
  }

  lemma SecondLook(lim: int, n: nat)
    requires Tight(lim)
    ensures FairEvent(Crowd(lim, n), Alone(lim, n), 4, lim, [Refused(0)], Took(Second()))
  {
    SecondFits(lim, n);
    SecondBest(lim, n);
    SecondTakes();
    NoEvents(lim, n);
    hide FreshTotals, Total, Gone, PicksOf, CurrentOf, Shuts, Failures, Aside, Calm, Alone, FitsAt, BestOf, Second, Elements;
    AfterFirst(lim, n);
  }

  lemma SecondFits(lim: int, n: nat)
    requires Tight(lim)
    ensures FitsAt(Crowd(lim, n), Alone(lim, n), 4, lim, [Refused(0)], 1)
  {
    NoEvents(lim, n);
    hide FreshTotals, Total, Gone, PicksOf, CurrentOf, Shuts, Failures, Aside, Calm, Alone;
    AfterFirst(lim, n);
    Scores(lim, n, {}, 1);
  }

  lemma SecondBest(lim: int, n: nat)
    requires Tight(lim)
    ensures BestOf(Crowd(lim, n), Alone(lim, n), 4, {}, {0}, 1)
  {
    hide FreshTotals, Alone;
    Scores(lim, n, {}, 1);
    forall x | x in Crowd(lim, n) && x != 0 ensures FreshTotals(Crowd(lim, n), Alone(lim, n), 4, x, {}).score <= 8.0 {
      Scores(lim, n, {}, x);
    }
  }

  lemma SecondTakes()
    ensures TakesSecond(Second())
  {
  }

  /** The "j"-th small one does not fit either. */
  lemma NextLook(lim: int, n: nat, j: nat)
    requires Tight(lim) && Told(lim, n, j) && j <= 1000 && j < n
    ensures FairEvent(Crowd(lim, n), Alone(lim, n), 4, lim, Story(j), Refused(j + 2))
  {
    hide FreshTotals, Total, Gone, PicksOf, CurrentOf, Shuts, Failures, Aside, Calm, Story, Fair, Alone, Root;
    var g, anc, root := Crowd(lim, n), Alone(lim, n), j + 2;
    SecondTakes();
    OpenWeight(lim, n, Second());
    Scores(lim, n, {1}, root);
    forall x | x in g && x != 0 && x != 1 ensures FreshTotals(g, anc, 4, x, {1}).score <= 4.0 {
      Scores(lim, n, {1}, x);
    }
  }

  lemma ToldOn(lim: int, n: nat, j: nat)
    requires Tight(lim) && Told(lim, n, j)
    requires FairEvent(Crowd(lim, n), Alone(lim, n), 4, lim, Story(j), Refused(j + 2))
    ensures Told(lim, n, j + 1)
  {
    hide *;
    StoryOn(j);
    ToldParts(lim, n, j);
    FairExtended(Crowd(lim, n), Alone(lim, n), 4, lim, Story(j), Refused(j + 2));
    RefusedOneMore(Alone(lim, n), Story(j), j + 2);
    OneMoreUpTo(Aside(Alone(lim, n), Story(j)), j);
    ToldWhole(lim, n, j + 1);
  }

  lemma StoryOn(j: nat)
    ensures Story(j + 1) == Story(j) + [Refused(j + 2)]
  {
  }

  lemma ToldParts(lim: int, n: nat, j: nat)
    requires Tight(lim) && Told(lim, n, j)
    ensures var g, anc, events := Crowd(lim, n), Alone(lim, n), Story(j);
      && Fair(g, anc, 4, lim, events) && PicksOf(events) == CurrentOf(events) == [Second()] && Shuts(events) == 0 && Failures(events) == j
      && AllUpTo(Aside(anc, events), j)
  {
    hide Fair, PicksOf, CurrentOf, Shuts, Failures, Aside, Crowd, Alone, Story, AllUpTo, Second;
  }

  lemma ToldWhole(lim: int, n: nat, j: nat)
    requires Tight(lim)
    requires var g, anc, events := Crowd(lim, n), Alone(lim, n), Story(j);
      && Fair(g, anc, 4, lim, events) && PicksOf(events) == CurrentOf(events) == [Second()] && Shuts(events) == 0 && Failures(events) == j
      && AllUpTo(Aside(anc, events), j)
    ensures Told(lim, n, j)
  {
    hide Fair, PicksOf, CurrentOf, Shuts, Failures, Aside, Crowd, Alone, Story, AllUpTo, Second;
  }

  lemma OneMoreUpTo(s: set<Id>, j: nat)
    requires AllUpTo(s, j)
    ensures AllUpTo(s + {j + 2}, j + 1)
  {
  }

  lemma {:induction false} Continued(lim: int, n: nat, j: nat)
    requires Tight(lim) && j <= 1001 <= n
    ensures Told(lim, n, j)
  {
    hide *;
    if j == 0 {
      Beginning(lim, n);
    } else {
      Continued(lim, n, j - 1);
      NextLook(lim, n, j - 1);
      ToldOn(lim, n, j - 1);
    }
  }

  /** The block is closed, the first transaction is refused again, and the loop ends. */
  ghost function Ending(): seq<Event> {
    Story(1001) + [Shut] + [Refused(0)]
  }

  lemma LastLooks(lim: int)
    requires Tight(lim) && Told(lim, 1001, 1001)
    ensures Fair(Crowd(lim, 1001), Alone(lim, 1001), 4, lim, Ending())
    ensures PicksOf(Ending()) == [Second()] && Exhausted(Crowd(lim, 1001), Alone(lim, 1001), lim, Ending())
  {
    hide Fair, FairEvent, PicksOf, CurrentOf, Shuts, Failures, Aside, Crowd, Alone, Story, Total, Gone, Calm, Doubled, Twins, OverflowOf, Lead, NobodyWaits;
    var g, anc, events := Crowd(lim, 1001), Alone(lim, 1001), Story(1001);
    ShutOneMore(anc, events);
    RefusedOneMore(anc, events + [Shut], 0);
    FairShut(lim, events);
    FairExtended(g, anc, 4, lim, events, Shut);
    FairAgain(lim, events);
    FairExtended(g, anc, 4, lim, events + [Shut], Refused(0));
    SecondTakes();
    OpenWeight(lim, 1001, Second());
  }

  lemma FairShut(lim: int, events: seq<Event>)
    requires Tight(lim) && CurrentOf(events) == [Second()] && Shuts(events) == 0 && Failures(events) == 1001
    ensures FairEvent(Crowd(lim, 1001), Alone(lim, 1001), 4, lim, events, Shut)
  {
    SecondTakes();
    OpenWeight(lim, 1001, Second());
    hide CurrentOf, Shuts, Failures, Total, Gone;
  }

  lemma FairAgain(lim: int, events: seq<Event>)
    requires Tight(lim) && PicksOf(events) == [Second()] && Shuts(events) == 0
    ensures FairEvent(Crowd(lim, 1001), Alone(lim, 1001), 4, lim, events + [Shut], Refused(0))
  {
    hide FreshTotals, Total, Gone, PicksOf, CurrentOf, Shuts, Failures, Aside, Calm, Doubled, Twins, OverflowOf, Lead, Alone, Exceeded;
    var g, anc := Crowd(lim, 1001), Alone(lim, 1001);
    SecondTakes();
    OpenWeight(lim, 1001, Second());
    ShutOneMore(anc, events);
    Scores(lim, 1001, {1}, 0);
    forall x | x in g ensures FreshTotals(g, anc, 4, x, {1}).score <= 40.0 {
      Scores(lim, 1001, {1}, x);
    }
  }

  lemma SecondIsValid(lim: int)
    requires Tight(lim)
    ensures Dag(Crowd(lim, 1001), Alone(lim, 1001)) && WeighsItsSize(Crowd(lim, 1001))
    ensures ValidPicks(Crowd(lim, 1001), Alone(lim, 1001), 4, map[], [Second()])
  {
    Scores(lim, 1001, {}, 1);
    assert [Second()][..0] == [];
    hide FreshTotals;
  }

  lemma ARun(lim: int)
    requires Tight(lim)
    ensures Run(Crowd(lim, 1001), Alone(lim, 1001), lim, Ending()) && PicksOf(Ending()) == [Second()]
  {
    hide *;
    Continued(lim, 1001, 1001);
    LastLooks(lim);
    SecondIsValid(lim);
    IsRun(Crowd(lim, 1001), Alone(lim, 1001), lim, Ending());
  }

  lemma LeavesSome(lim: int)
    requires Tight(lim)
    ensures !OnlyOversizedLeft(Crowd(lim, 1001), Alone(lim, 1001), lim, [Second()])
  {
    SecondTakes();
    OpenWeight(lim, 1001, Second());
    assert 2 in Small(lim, 1001);
    SmallFit(lim, 1001, 2);
    hide NoRoom, Gone, Total;
  }

  lemma CrowdAcyclic(lim: int, n: nat)
    requires Tight(lim)
    ensures Acyclic(Crowd(lim, n))
  {
    assert Ranked(Crowd(lim, n), map x | x in Crowd(lim, n) :: 0);
  }

  /** The limits under which no run on any mempool leaves anybody behind who would fit an empty block. */
  lemma NobodyStarvesIff(limit: int)
    ensures (forall g: Graph, events: seq<Event> ::
              Acyclic(g) && Run(g, Ancestry(g), limit, events) ==> OnlyOversizedLeft(g, Ancestry(g), limit, PicksOf(events)))
        <==> limit <= 4001 || limit >= 8000
  {
    hide *;
    if limit <= 4001 || limit >= 8000 {
      forall g: Graph, events: seq<Event> | Acyclic(g) && Run(g, Ancestry(g), limit, events)
        ensures OnlyOversizedLeft(g, Ancestry(g), limit, PicksOf(events))
      {
        OversizedLeft(g, Ancestry(g), limit, events);
      }
    } else {
      IsTight(limit);
      ARun(limit);
      AreAlone(limit, 1001);
      CrowdAcyclic(limit, 1001);
      LeavesSome(limit);
    }
  }

  lemma IsTight(limit: int)
    requires 4001 < limit < 8000
    ensures Tight(limit)
  {
  }
}
