/** The selection worker's input, and what its answer means in terms of the input's own fields. */
module Mempools {
  import opened Collections
  import opened PackageGraph
  import opened Relatives
  import opened Selection
  import opened Packaging
  import opened TxEvents
  import opened RateCaps
  import opened Families

  datatype CompactTx = CompactTx(uid: Id, fee: int, weight: pos, sigops: nat, feePerVsize: real, effectiveFeePerVsize: real,
                                 inputs: seq<Id>)

  function Uids(mempool: seq<CompactTx>): seq<Id> {
    seq(|mempool|, i requires 0 <= i < |mempool| => mempool[i].uid)
  }

  ghost predicate IsPool(g: Graph, mempool: seq<CompactTx>) {
    && g.Keys == Elements(Uids(mempool))
    && forall i :: 0 <= i < |mempool| ==> mempool[i].uid in g && Same(g[mempool[i].uid], mempool[i])
  }

  /** Sizes are weights; ties between equal scores are broken by the uid. */
  ghost predicate Same(t: TxInfo, tx: CompactTx) {
    t.fee == tx.fee && t.size == t.weight == tx.weight && t.sigops == tx.sigops && t.order == tx.uid && t.inputs == tx.inputs
  }

  /** The effective rates and own rates the mempool came with. */
  ghost predicate IsRates(effective: map<Id, real>, own: map<Id, real>, mempool: seq<CompactTx>) {
    && effective.Keys == own.Keys == Elements(Uids(mempool))
    && forall i :: 0 <= i < |mempool| ==>
      && mempool[i].uid in effective && mempool[i].uid in own
      && effective[mempool[i].uid] == mempool[i].effectiveFeePerVsize && own[mempool[i].uid] == mempool[i].feePerVsize
  }

  ghost predicate AcyclicMempool(mempool: seq<CompactTx>) {
    exists rank: map<Id, nat> :: RankedMempool(mempool, rank)
  }

  ghost predicate RankedMempool(mempool: seq<CompactTx>, rank: map<Id, nat>) {
    && (forall i :: 0 <= i < |mempool| ==> mempool[i].uid in rank)
    && forall i, j :: 0 <= i < |mempool| && 0 <= j < |mempool| && mempool[j].uid in mempool[i].inputs ==>
      rank[mempool[j].uid] < rank[mempool[i].uid]
  }

  lemma IndexOf(g: Graph, mempool: seq<CompactTx>, x: Id) returns (i: nat)
    requires IsPool(g, mempool) && x in g
    ensures i < |mempool| && mempool[i].uid == x && Same(g[x], mempool[i])
  {
    assert x in Elements(Uids(mempool));
    i :| 0 <= i < |mempool| && Uids(mempool)[i] == x;
  }

  lemma PoolAcyclic(g: Graph, mempool: seq<CompactTx>)
    requires IsPool(g, mempool) && AcyclicMempool(mempool)
    ensures Acyclic(g) && WeighsItsSize(g)
  {
    var rank: map<Id, nat> :| RankedMempool(mempool, rank);
    forall x | x in g ensures x in rank && g[x].size == g[x].weight {
      var i := IndexOf(g, mempool, x);
    }
    forall p, x | IsParent(g, p, x) ensures rank[p] < rank[x] {
      var i := IndexOf(g, mempool, x);
      var j := IndexOf(g, mempool, p);
    }
    assert Ranked(g, rank);
  }

  lemma ReadOneMore(g: Graph, effective: map<Id, real>, own: map<Id, real>, mempool: seq<CompactTx>, tx: CompactTx, t: TxInfo)
    requires Same(t, tx) && IsPool(g, mempool) && IsRates(effective, own, mempool) && tx.uid !in Elements(Uids(mempool))
    ensures IsPool(g[tx.uid := t], mempool + [tx])
    ensures IsRates(effective[tx.uid := tx.effectiveFeePerVsize], own[tx.uid := tx.feePerVsize], mempool + [tx])
  {
    assert Uids(mempool + [tx]) == Uids(mempool) + [tx.uid];
    assert Elements(Uids(mempool + [tx])) == Elements(Uids(mempool)) + {tx.uid};
    forall j | 0 <= j < |mempool| ensures mempool[j].uid != tx.uid {
      assert Uids(mempool)[j] == mempool[j].uid;
    }
  }

  lemma IsSame(t: TxInfo, tx: CompactTx)
    requires t == TxInfo(tx.fee, tx.weight, tx.weight, tx.sigops, tx.uid, tx.inputs)
    ensures Same(t, tx)
  {
  }

  method ReadMempool(mempool: seq<CompactTx>) returns (g: Graph, effective: map<Id, real>, own: map<Id, real>)
    requires Distinct(Uids(mempool))
    ensures IsPool(g, mempool) && IsRates(effective, own, mempool)
  {
    g, effective, own := map[], map[], map[];
    for i := 0 to |mempool|
      invariant IsPool(g, mempool[..i]) && IsRates(effective, own, mempool[..i])
    {
      var tx := mempool[i];
      assert mempool[..i + 1] == mempool[..i] + [tx];
      NewUid(mempool, i);
      hide *;
      var t := TxInfo(tx.fee, tx.weight, tx.weight, tx.sigops, tx.uid, tx.inputs);
      IsSame(t, tx);
      ReadOneMore(g, effective, own, mempool[..i], tx, t);
      g, effective, own := g[tx.uid := t], effective[tx.uid := tx.effectiveFeePerVsize], own[tx.uid := tx.feePerVsize];
    }
    assert mempool[..|mempool|] == mempool;
  }

  lemma NewUid(mempool: seq<CompactTx>, i: nat)
    requires Distinct(Uids(mempool)) && i < |mempool|
    ensures mempool[i].uid !in Elements(Uids(mempool[..i]))
  {
    forall j | 0 <= j < i ensures Uids(mempool[..i])[j] != mempool[i].uid {
      assert Uids(mempool)[j] != Uids(mempool)[i];
    }
  }

  // ---------- the mempool's own inputs, fees, weights and sigops ----------

  /** Some transaction with identifier "x" spends from "q". */
  ghost predicate HasInput(mempool: seq<CompactTx>, x: Id, q: Id) {
    exists i :: 0 <= i < |mempool| && mempool[i].uid == x && q in mempool[i].inputs
  }

  ghost function InputsOf(mempool: seq<CompactTx>): Links {
    map x | x in Uids(mempool) :: set q | q in Uids(mempool) && HasInput(mempool, x, q)
  }

  ghost function FeesOf(mempool: seq<CompactTx>): (m: map<Id, int>)
    requires Distinct(Uids(mempool))
    ensures m.Keys == Elements(Uids(mempool))
  {
    UidsDiffer(mempool);
    UidsAre(mempool);
    map i | 0 <= i < |mempool| :: mempool[i].uid := mempool[i].fee
  }

  ghost function WeightsOf(mempool: seq<CompactTx>): (m: map<Id, int>)
    requires Distinct(Uids(mempool))
    ensures m.Keys == Elements(Uids(mempool))
  {
    UidsDiffer(mempool);
    UidsAre(mempool);
    map i | 0 <= i < |mempool| :: mempool[i].uid := mempool[i].weight
  }

  ghost function SigopsOf(mempool: seq<CompactTx>): (m: map<Id, int>)
    requires Distinct(Uids(mempool))
    ensures m.Keys == Elements(Uids(mempool))
  {
    UidsDiffer(mempool);
    UidsAre(mempool);
    map i | 0 <= i < |mempool| :: mempool[i].uid := mempool[i].sigops
  }

  lemma UidsAre(mempool: seq<CompactTx>)
    ensures Elements(Uids(mempool)) == set i | 0 <= i < |mempool| :: mempool[i].uid
  {
    forall i | 0 <= i < |mempool| ensures mempool[i].uid in Elements(Uids(mempool)) {
      assert Uids(mempool)[i] == mempool[i].uid;
    }
  }

  lemma UidsDiffer(mempool: seq<CompactTx>)
    requires Distinct(Uids(mempool))
    ensures forall i, j :: 0 <= i < |mempool| && 0 <= j < |mempool| && mempool[i].uid == mempool[j].uid ==> i == j
  {
    forall i, j | 0 <= i < |mempool| && 0 <= j < |mempool| && mempool[i].uid == mempool[j].uid ensures i == j {
      assert Uids(mempool)[i] == Uids(mempool)[j];
    }
  }

  /** The pool holds the same. */
  lemma SameFields(g: Graph, mempool: seq<CompactTx>)
    requires IsPool(g, mempool) && Distinct(Uids(mempool))
    ensures InputsOf(mempool) == InputsIn(g) && FeesOf(mempool) == Fees(g) && SigopsOf(mempool) == Sigops(g)
    ensures WeightsOf(mempool) == Weights(g) == Sizes(g)
  {
    hide *;
    FieldKeys(g, mempool);
    forall x | x in g
      ensures InputsOf(mempool)[x] == InputsIn(g)[x] && FeesOf(mempool)[x] == Fees(g)[x] && SigopsOf(mempool)[x] == Sigops(g)[x]
      ensures WeightsOf(mempool)[x] == Weights(g)[x] == Sizes(g)[x]
    {
      SameInputs(g, mempool, x);
      FieldsAt(g, mempool, x);
    }
    assert InputsOf(mempool) == InputsIn(g);
    assert FeesOf(mempool) == Fees(g) && SigopsOf(mempool) == Sigops(g);
    assert WeightsOf(mempool) == Weights(g) == Sizes(g);
  }

  lemma FieldKeys(g: Graph, mempool: seq<CompactTx>)
    requires IsPool(g, mempool) && Distinct(Uids(mempool))
    ensures InputsOf(mempool).Keys == InputsIn(g).Keys == FeesOf(mempool).Keys == Fees(g).Keys == SigopsOf(mempool).Keys == Sigops(g).Keys == g.Keys
    ensures WeightsOf(mempool).Keys == Weights(g).Keys == Sizes(g).Keys == g.Keys
  {
    hide Distinct, HasInput, FeesOf, WeightsOf, SigopsOf, Same;
    assert forall x :: x in Uids(mempool) <==> x in Elements(Uids(mempool));
  }

  lemma FieldsAt(g: Graph, mempool: seq<CompactTx>, x: Id)
    requires IsPool(g, mempool) && Distinct(Uids(mempool)) && x in g
    ensures x in FeesOf(mempool) && FeesOf(mempool)[x] == Fees(g)[x] && x in SigopsOf(mempool) && SigopsOf(mempool)[x] == Sigops(g)[x]
    ensures x in WeightsOf(mempool) && WeightsOf(mempool)[x] == Weights(g)[x] == Sizes(g)[x]
  {
    var i := IndexOf(g, mempool, x);
    UidsDiffer(mempool);
    hide Distinct, Uids;
  }

  lemma SameInputs(g: Graph, mempool: seq<CompactTx>, x: Id)
    requires IsPool(g, mempool) && x in g
    ensures x in Uids(mempool) && InputsOf(mempool)[x] == InputsIn(g)[x]
  {
    assert forall y :: y in Uids(mempool) <==> y in Elements(Uids(mempool));
    var i := IndexOf(g, mempool, x);
    forall q ensures HasInput(mempool, x, q) <==> q in g[x].inputs {
    }
  }

  // ---------- what the answer means for the mempool ----------

  ghost predicate InBlockUpTo(blocks: seq<seq<Id>>, k: int, x: Id) {
    exists l :: 0 <= l <= k && l < |blocks| && x in blocks[l]
  }

  /** Whatever a transaction of block "k" spends from the mempool is in that block or an earlier one. */
  ghost predicate ParentsNotLater(mempool: seq<CompactTx>, blocks: seq<seq<Id>>) {
    forall i, j, k :: 0 <= i < |mempool| && 0 <= j < |mempool| && 0 <= k < |blocks| && mempool[j].uid in mempool[i].inputs ==>
      mempool[i].uid in blocks[k] ==> InBlockUpTo(blocks, k, mempool[j].uid)
  }

  /** At most eight blocks; the first seven, with 4000 units reserved, stay below the limit, and each of their packages has
      at most 80000 sigops. */
  ghost predicate WithinLimits(mempool: seq<CompactTx>, limit: int, blocks: seq<seq<Id>>, blockPicks: seq<seq<Pick>>)
    requires Distinct(Uids(mempool))
  {
    && |blocks| == |blockPicks| <= 8
    && (forall k :: 0 <= k < |blocks| && k < 7 ==> 4000 + Total(WeightsOf(mempool), Elements(blocks[k])) < limit)
    && forall k, n :: 0 <= k < |blockPicks| && k < 7 && 0 <= n < |blockPicks[k]| ==> Total(SigopsOf(mempool), Elements(blockPicks[k][n].cluster)) <= 80000
  }

  /** Every package is a family at its price, which is per vbyte of four weight units; the rates the transactions came with
      have no part in it. */
  ghost predicate FamiliesPriced(mempool: seq<CompactTx>, picks: seq<Pick>)
    requires Distinct(Uids(mempool))
  {
    forall k :: 0 <= k < |picks| ==>
      IsFamily(InputsOf(mempool), picks, k) && IsPriced(InputsOf(mempool), FeesOf(mempool), WeightsOf(mempool), 4, map[], picks, k)
  }

  /** A transaction taken at another rate than it came with is reported at that rate, or at its own if that is 0; no other
      is reported. */
  ghost predicate RatesReported(mempool: seq<CompactTx>, picks: seq<Pick>, rates: map<Id, real>) {
    && (forall i, k :: 0 <= i < |mempool| && 0 <= k < |picks| && mempool[i].uid in picks[k].cluster ==> Reports(rates, mempool[i], picks[k].rate))
    && forall x :: x in rates ==> TakenEarlier(picks, |picks|, x)
  }

  ghost predicate Reports(rates: map<Id, real>, tx: CompactTx, rate: real) {
    && (tx.uid in rates <==> rate != tx.effectiveFeePerVsize)
    && (tx.uid in rates ==> rates[tx.uid] == if rate != 0.0 then rate else tx.feePerVsize)
  }

  /** The clusters are the packages of two or more, under their last members. */
  ghost predicate ClustersReported(picks: seq<Pick>, clusters: map<Id, seq<Id>>) {
    && (forall k :: 0 <= k < |picks| ==> ClusterKept(picks[k].cluster, clusters))
    && forall r :: r in clusters ==> FromPick(picks, r, clusters[r])
  }

  ghost predicate ClusterKept(c: seq<Id>, clusters: map<Id, seq<Id>>) {
    |c| > 1 ==> c[|c| - 1] in clusters && clusters[c[|c| - 1]] == c
  }

  ghost predicate FromPick(picks: seq<Pick>, r: Id, c: seq<Id>) {
    |c| > 1 && c[|c| - 1] == r && exists k :: 0 <= k < |picks| && picks[k].cluster == c
  }

  lemma PicksPriced(g: Graph, anc: Links, mempool: seq<CompactTx>, picks: seq<Pick>)
    requires IsPool(g, mempool) && Distinct(Uids(mempool)) && Dag(g, anc) && Generated(g, anc) && ValidPicks(g, anc, 4, map[], picks)
    ensures FamiliesPriced(mempool, picks)
  {
    SameFields(g, mempool);
    hide Dag, Generated, ValidPicks, IsFamily, IsPriced, InputsOf, FeesOf, WeightsOf, IsPool, Distinct;
    forall k | 0 <= k < |picks|
      ensures IsFamily(InputsOf(mempool), picks, k) && IsPriced(InputsOf(mempool), FeesOf(mempool), WeightsOf(mempool), 4, map[], picks, k)
    {
      FamilyPriced(g, anc, 4, map[], picks, k);
    }
  }
}
