/** A pool whose block template breaks the rate cap, whichever run the mini-miner takes. */
module RateCapExample {
  import opened Collections
  import opened PackageGraph
  import opened Relatives
  import opened Selection
  import opened Packaging
  import opened MiniMiner
  import opened Candidates
  import opened RateCaps

  /** A parent that pays nothing and a child that pays for both. */
  function ParentAndChild(): seq<Candidate> {
    [Candidate(1, 0, 0, 401, 0, []), Candidate(2, 0, 1000, 400, 0, [1])]
  }

  /** The pair counts for four times its 201 vbytes and does not fit, although it weighs only 801. */
  function TightLimit(): Limits {
    Limits(2, Some(803), None)
  }

  ghost function Family(): Graph {
    map[1 := TxInfo(0, 101, 401, 0, 0, []), 2 := TxInfo(1000, 100, 400, 0, 0, [1])]
  }

  ghost function Kin(): Links {
    map[1 := {}, 2 := {1}]
  }

  lemma IsFamily(g: Graph)
    requires IsPool(g, ParentAndChild(), [])
    ensures g == Family()
  {
    var candidates := ParentAndChild();
    assert Txids(candidates) == [1, 2];
    assert g.Keys == {1, 2};
    assert candidates[0].txid == 1 && candidates[1].txid == 2;
    assert Same(g[1], candidates[0], 0) && Same(g[2], candidates[1], 0);
  }

  lemma IsKin()
    ensures Ancestry(Family()) == Kin()
  {
    var g := Family();
    assert IsParent(g, 1, 2);
    ParentIsAncestor(g, 1, 2);
    forall a ensures a !in Ancestors(g, 1) {
      if a in Ancestors(g, 1) { var p := AncestorStep(g, a, 1); }
    }
    forall a | a in Ancestors(g, 2) ensures a == 1 {
      var p := AncestorStep(g, a, 2);
      assert p == 1;
    }
    assert Ancestors(g, 1) == {} && Ancestors(g, 2) == {1};
  }

  lemma PairTotal(m: map<Id, int>)
    ensures Total(m, {1, 2}) == At(m, 1) + At(m, 2)
  {
    TotalSplit(m, {1, 2}, 2);
    assert {1, 2} - {2} == {1};
    SingleTotal(m, 1);
  }

  lemma Parent()
    ensures FreshTotals(Family(), Kin(), 1, 1, {}) == Totals(0, 101, 0, 0.0)
    ensures Total(Weights(Family()), {1}) == 401 && Total(Sigops(Family()), {1}) == 0
  {
    var g := Family();
    assert Package(Kin(), 1, {}) == {1};
    SingleTotal(Fees(g), 1);
    SingleTotal(Sizes(g), 1);
    SingleTotal(Sigops(g), 1);
    SingleTotal(Weights(g), 1);
  }

  lemma Child()
    ensures FreshTotals(Family(), Kin(), 1, 2, {}) == Totals(1000, 201, 0, 1000.0 / 201.0)
    ensures FreshTotals(Family(), Kin(), 1, 2, {1}) == Totals(1000, 100, 0, 10.0)
  {
    var g := Family();
    assert Package(Kin(), 2, {}) == {1, 2} && Package(Kin(), 2, {1}) == {2};
    PairTotal(Fees(g));
    PairTotal(Sizes(g));
    PairTotal(Sigops(g));
    SingleTotal(Fees(g), 2);
    SingleTotal(Sizes(g), 2);
    SingleTotal(Sigops(g), 2);
  }

  lemma NothingTotal(m: map<Id, int>)
    ensures Total(m, {}) == 0
  {
  }

  /** At the start the child is looked at, and its package does not fit. */
  lemma FirstChoice(before: seq<Choice>, c: Choice)
    requires before == [] && GreedyStep(Family(), Kin(), 1, TightLimit(), before, c)
    ensures c == Refused(2)
  {
    var g, root := Family(), if c.Took? then Root(c.pick) else c.root;
    Parent();
    Child();
    NothingTotal(Weights(g));
    assert Gone(PicksOf(before)) == {} && Aside(Kin(), before) == {};
    hide FreshTotals, Total, Exceeded, Gone, PicksOf, Aside;
    assert 1000.0 / 201.0 > 0.0;
    assert BestOf(g, Kin(), 1, {}, {}, root);
    assert root == 2;
  }

  /** Then the parent is taken, for nothing. */
  lemma SecondChoice(before: seq<Choice>, c: Choice)
    requires before == [Refused(2)] && GreedyStep(Family(), Kin(), 1, TightLimit(), before, c)
    ensures c.Took? && c.pick.cluster != [] && Root(c.pick) == 1
  {
    var g, root := Family(), if c.Took? then Root(c.pick) else c.root;
    Parent();
    NothingTotal(Weights(g));
    NothingTotal(Sigops(g));
    AfterRefusal();
    hide FreshTotals, Total, Exceeded, Gone, PicksOf, Aside, BestOf;
    assert root == 1;
  }

  lemma AfterRefusal()
    ensures PicksOf([Refused(2)]) == [] && Gone([]) == {} && Aside(Kin(), [Refused(2)]) == {2} && Failures([Refused(2)]) == 1
  {
    RefusedOneMore(Kin(), [], 2);
    assert [Refused(2)] == [] + [Refused(2)];
  }

  lemma ParentPick(p: Pick)
    requires ValidPick(Family(), Kin(), 1, OwnRates(Family()), [], p) && Root(p) == 1
    ensures Elements(p.cluster) == {1} && p.rate == 0.0
  {
    Parent();
    hide Total, Distinct, ParentsFirst;
    assert Gone([]) == {} && Package(Kin(), 1, {}) == {1};
  }

  lemma AfterParent(p: Pick)
    requires Elements(p.cluster) == {1}
    ensures var trace := [Refused(2), Took(p)];
      PicksOf(trace) == [p] && Gone([p]) == {1} && Aside(Kin(), trace) == {} && Failures(trace) == 0
  {
    AfterRefusal();
    TookOneMore(Kin(), [Refused(2)], p);
    assert [Refused(2), Took(p)] == [Refused(2)] + [Took(p)];
    assert [p][..0] == [];
    assert Gone([p]) == {1};
    assert 2 in Kin() && 1 in Kin()[2];
    assert 2 in Flagged(Kin(), [] + [p]) && 2 !in Flagged(Kin(), []);
  }

  /** Now the child waits again, and fits: by weight the parent takes less room than by rounded vbytes. */
  lemma ThirdChoice(before: seq<Choice>, p: Pick, c: Choice)
    requires Elements(p.cluster) == {1} && before == [Refused(2), Took(p)]
    requires GreedyStep(Family(), Kin(), 1, TightLimit(), before, c)
    ensures c.Took? && c.pick.cluster != [] && Root(c.pick) == 2
  {
    var g, root := Family(), if c.Took? then Root(c.pick) else c.root;
    Parent();
    Child();
    AfterParent(p);
    hide FreshTotals, Total, Exceeded, Gone, PicksOf, Aside, BestOf;
    assert root == 2;
  }

  /** The child's dependency rate of zero is forgotten. */
  lemma ChildPick(p: Pick, q: Pick)
    requires Elements(p.cluster) == {1} && p.rate == 0.0
    requires ValidPick(Family(), Kin(), 1, OwnRates(Family()), [p], q) && Root(q) == 2
    ensures Elements(q.cluster) == {2} && q.rate == 10.0
  {
    Child();
    AfterParent(p);
    hide Total, Distinct, ParentsFirst, FreshTotals;
    var initial := InitialRate(OwnRates(Family()), 2);
    assert [p][..0] == [];
    assert DependencyRate(Kin(), [], initial, 2) == initial;
    assert TakesAncestorOf(Kin(), p, 2);
    assert DependencyRate(Kin(), [p], initial, 2) == 0.0;
    assert Package(Kin(), 2, {1}) == {2};
  }

  lemma AfterBoth(p: Pick, q: Pick)
    requires Elements(p.cluster) == {1} && 2 in q.cluster
    ensures PicksOf([Refused(2), Took(p), Took(q)]) == [p, q] && {1, 2} <= Gone([p, q])
  {
    AfterParent(p);
    TookOneMore(Kin(), [Refused(2), Took(p)], q);
    assert [Refused(2), Took(p), Took(q)] == [Refused(2), Took(p)] + [Took(q)];
    assert [p, q][..1] == [p];
    assert 2 in Elements(q.cluster);
  }

  /** While somebody is neither taken nor set aside, the run goes on. */
  lemma GoesOn(g: Graph, anc: Links, trace: seq<Choice>, x: Id)
    requires x in g && x !in Gone(PicksOf(trace)) && x !in Aside(anc, trace) && Failures(trace) <= 1000
    ensures !Exhausted(g, anc, TightLimit(), trace)
  {
  }

  lemma StepAt(g: Graph, anc: Links, limits: Limits, trace: seq<Choice>, k: nat)
    requires Greedy(g, anc, 1, limits, trace) && k < |trace|
    ensures GreedyStep(g, anc, 1, limits, trace[..k], trace[k])
  {
  }

  lemma PickAt(g: Graph, anc: Links, initial: map<Id, real>, picks: seq<Pick>, k: nat)
    requires ValidPicks(g, anc, 1, initial, picks) && k < |picks|
    ensures ValidPick(g, anc, 1, initial, picks[..k], picks[k])
  {
  }

  lemma NobodyLeft(before: seq<Choice>, c: Choice)
    requires {1, 2} <= Gone(PicksOf(before)) && Family().Keys == {1, 2}
    ensures !GreedyStep(Family(), Kin(), 1, TightLimit(), before, c)
  {
  }

  lemma NotYet(trace: seq<Choice>)
    requires trace == [] || trace == [Refused(2)] || exists p :: trace == [Refused(2), Took(p)] && Elements(p.cluster) == {1}
    ensures !Exhausted(Family(), Kin(), TightLimit(), trace)
  {
    AfterRefusal();
    assert PicksOf([]) == [] && Aside(Kin(), []) == {} && Failures([]) == 0;
    InFamily();
    if p :| trace == [Refused(2), Took(p)] && Elements(p.cluster) == {1} {
      AfterParent(p);
      hide *;
      GoesOn(Family(), Kin(), trace, 2);
    } else {
      hide *;
      GoesOn(Family(), Kin(), trace, 1);
    }
  }

  lemma InFamily()
    ensures 1 in Family() && 2 in Family() && Family().Keys == {1, 2}
  {
  }

  lemma Longer(trace: seq<Choice>, start: seq<Choice>)
    requires Exhausted(Family(), Kin(), TightLimit(), trace) && !Exhausted(Family(), Kin(), TightLimit(), start) && start <= trace
    ensures |trace| > |start|
  {
    assert |trace| == |start| ==> trace == start;
  }

  lemma FirstTwo(trace: seq<Choice>) returns (p: Pick)
    requires Greedy(Family(), Kin(), 1, TightLimit(), trace) && Exhausted(Family(), Kin(), TightLimit(), trace)
    ensures |trace| >= 2 && trace[..2] == [Refused(2), Took(p)] && p.cluster != [] && Root(p) == 1
  {
    var g, anc := Family(), Kin();
    hide *;
    NotYet([]);
    Longer(trace, []);
    StepAt(g, anc, TightLimit(), trace, 0);
    FirstChoice(trace[..0], trace[0]);
    NotYet([Refused(2)]);
    assert trace[..1] == [Refused(2)];
    Longer(trace, [Refused(2)]);
    StepAt(g, anc, TightLimit(), trace, 1);
    SecondChoice(trace[..1], trace[1]);
    p := trace[1].pick;
  }

  lemma ParentIsFirstPick(trace: seq<Choice>, p: Pick)
    requires ValidPicks(Family(), Kin(), 1, OwnRates(Family()), PicksOf(trace))
    requires |trace| >= 2 && trace[..2] == [Refused(2), Took(p)] && p.cluster != [] && Root(p) == 1
    ensures |PicksOf(trace)| >= 1 && PicksOf(trace)[0] == p && Elements(p.cluster) == {1} && p.rate == 0.0 && Distinct(p.cluster)
  {
    hide *;
    AfterRefusal();
    TookOneMore(Kin(), [Refused(2)], p);
    assert [Refused(2), Took(p)] == [Refused(2)] + [Took(p)];
    PicksPrefix(trace, 2);
    PickAt(Family(), Kin(), OwnRates(Family()), PicksOf(trace), 0);
    assert PicksOf(trace)[..0] == [];
    ParentPick(p);
    DistinctPick(Family(), Kin(), OwnRates(Family()), [], p);
  }

  lemma DistinctPick(g: Graph, anc: Links, initial: map<Id, real>, before: seq<Pick>, p: Pick)
    requires ValidPick(g, anc, 1, initial, before, p)
    ensures Distinct(p.cluster)
  {
  }

  /** The run is determined: the child is refused, the parent is taken, and then the child. */
  lemma OnlyRun(trace: seq<Choice>) returns (p: Pick, q: Pick)
    requires Greedy(Family(), Kin(), 1, TightLimit(), trace) && Exhausted(Family(), Kin(), TightLimit(), trace)
    requires ValidPicks(Family(), Kin(), 1, OwnRates(Family()), PicksOf(trace))
    ensures trace == [Refused(2), Took(p), Took(q)] && PicksOf(trace) == [p, q]
    ensures Elements(p.cluster) == {1} && p.rate == 0.0 && Distinct(p.cluster)
    ensures Elements(q.cluster) == {2} && q.rate == 10.0 && Distinct(q.cluster)
  {
    var g, anc := Family(), Kin();
    hide *;
    p := FirstTwo(trace);
    ParentIsFirstPick(trace, p);
    NotYet([Refused(2), Took(p)]);
    Longer(trace, [Refused(2), Took(p)]);
    StepAt(g, anc, TightLimit(), trace, 2);
    ThirdChoice(trace[..2], p, trace[2]);
    q := trace[2].pick;
    ChildIsSecondPick(trace, p, q);
    if |trace| > 3 {
      StepAt(g, anc, TightLimit(), trace, 3);
      InFamily();
      NobodyLeft(trace[..3], trace[3]);
    }
    assert trace == trace[..3];
  }

  lemma ChildIsSecondPick(trace: seq<Choice>, p: Pick, q: Pick)
    requires ValidPicks(Family(), Kin(), 1, OwnRates(Family()), PicksOf(trace))
    requires |trace| >= 3 && trace[..2] == [Refused(2), Took(p)] && Elements(p.cluster) == {1} && p.rate == 0.0
    requires trace[2] == Took(q) && q.cluster != [] && Root(q) == 2
    ensures trace[..3] == [Refused(2), Took(p), Took(q)] && PicksOf(trace[..3]) == [p, q] && {1, 2} <= Gone([p, q])
    ensures Elements(q.cluster) == {2} && q.rate == 10.0 && Distinct(q.cluster)
  {
    hide *;
    assert trace[..3] == trace[..2] + [Took(q)];
    RootInCluster(q);
    AfterBoth(p, q);
    assert trace[..3] == [Refused(2), Took(p), Took(q)];
    PicksPrefix(trace, 3);
    PickAt(Family(), Kin(), OwnRates(Family()), PicksOf(trace), 1);
    assert PicksOf(trace)[..1] == [p];
    ChildPick(p, q);
    DistinctPick(Family(), Kin(), OwnRates(Family()), [p], q);
  }

  lemma RootInCluster(q: Pick)
    requires q.cluster != []
    ensures Root(q) in q.cluster
  {
  }

  lemma Single(s: seq<Id>, x: Id)
    requires Distinct(s) && Elements(s) == {x}
    ensures s == [x]
  {
    SamePermutation(s, [x]);
    assert |s| == |multiset(s)| == 1;
    assert s[0] in multiset(s);
  }

  lemma AcyclicFamily()
    ensures Distinct(Txids(ParentAndChild())) && AcyclicCandidates(ParentAndChild())
  {
    assert Txids(ParentAndChild()) == [1, 2];
    assert RankedCandidates(ParentAndChild(), map[1 := 0, 2 := 1]);
  }

  lemma EmittedPair(p: Pick, q: Pick)
    requires p.cluster == [1] && q.cluster == [2]
    ensures Emitted([p, q]) == [Taken(1, p.rate, [1]), Taken(2, q.rate, [2])]
  {
    assert [p, q][..1] == [p] && [p][..0] == [];
    assert EmittedPick(p, 1) == EmittedPick(p, 0) + [Taken(1, p.rate, [1])];
    assert EmittedPick(q, 1) == EmittedPick(q, 0) + [Taken(2, q.rate, [2])];
    assert Emitted([p]) == Emitted([]) + EmittedPick(p, 1) == [Taken(1, p.rate, [1])];
    assert Emitted([p, q]) == Emitted([p]) + EmittedPick(q, 1);
  }

  /** The template: the child is given a rate of 10, on top of a parent at 0. */
  method TightTemplate() returns (transactions: seq<Taken>)
    ensures transactions == [Taken(1, 0.0, [1]), Taken(2, 10.0, [2])]
  {
    hide *;
    AcyclicFamily();
    ghost var g, trace;
    transactions, g, trace := MakeBlockTemplate(ParentAndChild(), [], TightLimit());
    IsFamily(g);
    IsKin();
    ghost var p, q := OnlyRun(trace);
    Single(p.cluster, 1);
    Single(q.cluster, 2);
    EmittedPair(p, q);
  }

  lemma BothBreakCap(p: Pick, q: Pick)
    requires Elements(p.cluster) == {1} && p.rate == 0.0 && Elements(q.cluster) == {2} && q.rate == 10.0
    ensures !CapsHold(Kin(), [p, q])
  {
    assert 1 in Elements(p.cluster) && 2 in Elements(q.cluster);
    assert OverCap(Kin(), [p, q], 0, 1, 2, 1);
  }

  /** Whatever run the builder takes on this pool, it breaks a cap. */
  lemma EveryRunBreaksCap(g: Graph, trace: seq<Choice>)
    requires IsPool(g, ParentAndChild(), []) && ValidPicks(g, Ancestry(g), 1, OwnRates(g), PicksOf(trace))
    requires Greedy(g, Ancestry(g), 1, TightLimit(), trace) && Exhausted(g, Ancestry(g), TightLimit(), trace)
    ensures !CapsHold(Ancestry(g), PicksOf(trace))
  {
    hide *;
    IsFamily(g);
    IsKin();
    var p, q := OnlyRun(trace);
    BothBreakCap(p, q);
  }
}
