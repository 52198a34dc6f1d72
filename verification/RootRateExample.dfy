/** Four candidates whose template reports a vbyte at less than they pay for it. */
module RootRateExample {
  import opened Collections
  import opened PackageGraph
  import opened Relatives
  import opened Selection
  import opened Packaging
  import opened RateCaps
  import opened Candidates
  import opened MiniMiner
  import opened RootRates

  /** A large free transaction, two that pay for it, and one on top of both that pays little. */
  function Four(): seq<Candidate> {
    [Candidate(1, 0, 0, 12, 0, []), Candidate(2, 0, 3, 4, 0, [1]), Candidate(3, 0, 3, 4, 0, [1]), Candidate(4, 0, 1, 4, 0, [2, 3])]
  }

  ghost function Pool(): Graph {
    map[1 := TxInfo(0, 3, 12, 0, 0, []), 2 := TxInfo(3, 1, 4, 0, 0, [1]), 3 := TxInfo(3, 1, 4, 0, 0, [1]), 4 := TxInfo(1, 1, 4, 0, 0, [2, 3])]
  }

  ghost function Kin(): Links {
    map[1 := {}, 2 := {1}, 3 := {1}, 4 := {1, 2, 3}]
  }

  lemma IsFour(g: Graph)
    requires IsPool(g, Four(), [])
    ensures g == Pool()
  {
    var candidates := Four();
    assert Txids(candidates) == [1, 2, 3, 4];
    assert g.Keys == {1, 2, 3, 4};
    assert Same(g[candidates[0].txid], candidates[0], 0) && Same(g[candidates[1].txid], candidates[1], 0);
    assert Same(g[candidates[2].txid], candidates[2], 0) && Same(g[candidates[3].txid], candidates[3], 0);
    hide Bid, Txids;
  }

  lemma FourOrdered()
    ensures Distinct(Txids(Four())) && AcyclicCandidates(Four()) && multiset(Txids(Four())) == multiset{1, 2, 3, 4}
  {
    assert Txids(Four()) == [1, 2, 3, 4];
    FourRanked();
    hide RankedCandidates, Four;
  }

  lemma FourRanked()
    ensures RankedCandidates(Four(), map[1 := 0, 2 := 1, 3 := 1, 4 := 2])
  {
  }

  lemma Inputs(p: Id, x: Id)
    ensures IsParent(Pool(), p, x) <==> (p == 1 && (x == 2 || x == 3)) || ((p == 2 || p == 3) && x == 4)
  {
    assert forall q: Id :: (q in [1] <==> q == 1) && (q in [2, 3] <==> q == 2 || q == 3);
  }

  lemma IsKin()
    ensures Ancestry(Pool()) == Kin()
  {
    var g := Pool();
    forall x | x in g ensures Ancestors(g, x) == Kin()[x] {
      SameKin(x);
    }
    hide Ancestors;
  }

  lemma SameKin(x: Id)
    requires 1 <= x <= 4
    ensures Ancestors(Pool(), x) == Kin()[x]
    decreases if x == 1 then 0 else if x == 4 then 2 else 1
  {
    var g := Pool();
    if x == 4 {
      SameKin(2);
      SameKin(3);
    } else if x != 1 {
      SameKin(1);
    }
    forall a ensures a in Ancestors(g, x) <==> a in Kin()[x] {
      if a in Ancestors(g, x) {
        var p := AncestorStep(g, a, x);
        Inputs(p, x);
      }
      if a in Kin()[x] {
        var p := if x == 4 && a != 3 then 2 else if x == 4 then 3 else 1;
        Inputs(p, x);
        ParentIsAncestor(g, p, x);
        if a != p { AncestorTransitive(g, a, p, x); }
      }
    }
  }

  lemma TopIsLowest()
    ensures Lowest(Kin(), 4, 2, 3, 1) && |Kin()[4]| == 3 && Repriced(Pool(), 4, 2, 3, 1, 3) == Pool()
  {
    assert Diamond(Kin(), 4, 2, 3, 1);
    assert Kin()[4] == {1, 2, 3};
  }

  /** The whole pool is one package, taken at the rate of its last transaction. */
  lemma OnePackage(limits: Limits, trace: seq<Choice>)
    requires limits.maxBlocks <= 1 && Greedy(Pool(), Kin(), 1, limits, trace) && Exhausted(Pool(), Kin(), limits, trace)
    requires ValidPicks(Pool(), Kin(), 1, OwnRates(Pool()), PicksOf(trace)) && Dag(Pool(), Kin())
    ensures |PicksOf(trace)| == 1
    ensures var p := PicksOf(trace)[0]; p.cluster != [] && Distinct(p.cluster) && Elements(p.cluster) == {1, 2, 3, 4} && p.rate == 1.0
  {
    var g, anc, picks := Pool(), Kin(), PicksOf(trace);
    TopIsLowest();
    assert g[4].fee == 1 && g[4].size == 1 && g.Keys == {1, 2, 3, 4};
    PackageOfFour();
    hide *;
    UnboundedTakesBest(g, anc, 1, limits, trace);
    NothingPicked(g, anc, 1, OwnRates(g));
    assert 1 in g.Keys;
    SomePicked(picks, 1);
    assert picks[..0] == [];
    BestRootAt(g, anc, picks, 0);
    forall y | y in g ensures var s := FreshTotals(g, anc, 1, y, {}).score; if y == 4 then s > 1.0 else s <= 1.0 {
      RepricedBest(g, anc, 4, 2, 3, 1, 3, y);
    }
    BestIsFour(g, anc, Root(picks[0]));
    FirstPick(g, anc, picks);
    StartRate(g, anc, picks[0], 4);
    if |picks| > 1 { NoSecond(g, anc, picks); }
  }

  lemma SomePicked(picks: seq<Pick>, x: Id)
    requires x in Gone(picks)
    ensures picks != []
  {
  }

  lemma PackageOfFour()
    ensures Package(Kin(), 4, {}) == {1, 2, 3, 4}
  {
  }

  lemma BestIsFour(g: Graph, anc: Links, root: Id)
    requires BestOf(g, anc, 1, {}, {}, root) && 4 in g && root in g
    requires forall y :: y in g ==> var s := FreshTotals(g, anc, 1, y, {}).score; if y == 4 then s > 1.0 else s <= 1.0
    ensures root == 4
  {
    hide FreshTotals;
  }

  lemma FirstPick(g: Graph, anc: Links, picks: seq<Pick>)
    requires ValidPicks(g, anc, 1, OwnRates(g), picks) && picks != []
    ensures ValidPick(g, anc, 1, OwnRates(g), [], picks[0]) && picks[0].cluster != [] && Distinct(picks[0].cluster) && Root(picks[0]) in g
    ensures Elements(picks[0].cluster) == Package(anc, Root(picks[0]), {})
  {
    assert picks[..0] == [];
    hide FreshTotals, DependencyRate, ParentsFirst, Distinct, Package;
  }

  lemma NoSecond(g: Graph, anc: Links, picks: seq<Pick>)
    requires Dag(g, anc) && ValidPicks(g, anc, 1, OwnRates(g), picks) && |picks| > 1
    ensures !(g.Keys <= Elements(picks[0].cluster))
  {
    assert ValidPick(g, anc, 1, OwnRates(g), picks[..1], picks[1]);
    assert picks[..1][..0] == [] && Gone(picks[..1]) == Elements(picks[0].cluster);
    hide FreshTotals, DependencyRate, ParentsFirst, Distinct, Package, ValidPicks, Gone;
  }

  /** Six vbytes with fees of seven are all reported at a rate of one. */
  method Diluted() returns (transactions: seq<Taken>)
    ensures multiset(TxidsOf(transactions)) == multiset{1, 2, 3, 4}
    ensures forall t :: t in transactions ==> t.effectiveFeePerVsize == 1.0 && Elements(t.cluster) == {1, 2, 3, 4}
  {
    hide *;
    FourOrdered();
    var limits := Limits(1, None, None);
    ghost var g, trace;
    transactions, g, trace := MakeBlockTemplate(Four(), [], limits);
    IsFour(g);
    IsKin();
    OnePackage(limits, trace);
    ghost var p := PicksOf(trace)[0];
    assert PicksOf(trace) == [p];
    EmittedAlone(p);
  }

  lemma EmittedAlone(p: Pick)
    ensures forall t :: t in Emitted([p]) ==> t.effectiveFeePerVsize == p.rate && t.cluster == p.cluster
  {
    var n := |p.cluster|;
    assert [p][..0] == [] && Emitted([p]) == [] + EmittedPick(p, n);
    EmittedMembers(p, n);
  }

  lemma {:induction false} EmittedMembers(p: Pick, n: nat)
    requires n <= |p.cluster|
    ensures forall t :: t in EmittedPick(p, n) ==> t.effectiveFeePerVsize == p.rate && t.cluster == p.cluster
  {
    if n > 0 { EmittedMembers(p, n - 1); }
  }
}
