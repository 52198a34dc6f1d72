/** The mini-miner's input: candidates for a block and the bids that accelerate some of them. */
module Candidates {
  import opened Collections
  import opened PackageGraph
  import opened Relatives
  import opened Families

  datatype Candidate = Candidate(txid: Id, order: int, fee: int, weight: pos, sigops: nat, inputs: seq<Id>)

  datatype Acceleration = Acceleration(txid: Id, maxBid: int)

  /** Math.ceil(Math.max(weight / 4, 5 * sigops)): the least whole vsize covering both. */
  function AdjustedVsize(weight: pos, sigops: nat): (v: pos)
    ensures weight <= 4 * v && 5 * sigops <= v
    ensures 4 * (v - 1) < weight || v - 1 < 5 * sigops
  {
    var quarters := if weight >= 20 * sigops then weight else 20 * sigops;
    (quarters + 3) / 4
  }

  /** Acceleration "k" is the last one of the transaction. */
  ghost predicate LastBid(accelerations: seq<Acceleration>, txid: Id, k: int) {
    && 0 <= k < |accelerations| && accelerations[k].txid == txid
    && forall j :: k < j < |accelerations| ==> accelerations[j].txid != txid
  }

  /** The bid of the last acceleration of a transaction, or 0. */
  ghost function Bid(accelerations: seq<Acceleration>, txid: Id): (b: int)
    ensures forall k :: LastBid(accelerations, txid, k) ==> b == accelerations[k].maxBid
    ensures (forall k :: 0 <= k < |accelerations| ==> accelerations[k].txid != txid) ==> b == 0
  {
    if accelerations == [] then 0 else
    var a := accelerations[|accelerations| - 1];
    if a.txid == txid then a.maxBid else Bid(accelerations[..|accelerations| - 1], txid)
  }

  function Txids(candidates: seq<Candidate>): seq<Id> {
    seq(|candidates|, i requires 0 <= i < |candidates| => candidates[i].txid)
  }

  /** "g" holds the candidates, each with the bid of its last acceleration. */
  ghost predicate IsPool(g: Graph, candidates: seq<Candidate>, accelerations: seq<Acceleration>) {
    && g.Keys == Elements(Txids(candidates))
    && forall i :: 0 <= i < |candidates| ==>
      candidates[i].txid in g && Same(g[candidates[i].txid], candidates[i], Bid(accelerations, candidates[i].txid))
  }

  ghost predicate Same(t: TxInfo, c: Candidate, bid: int) {
    && t.fee == c.fee + bid && t.size == AdjustedVsize(c.weight, c.sigops) && t.weight == c.weight && t.sigops == c.sigops
    && t.order == c.order && t.inputs == c.inputs
  }

  ghost predicate IsFees(fees: map<Id, int>, candidates: seq<Candidate>) {
    && fees.Keys == Elements(Txids(candidates))
    && forall i :: 0 <= i < |candidates| ==> candidates[i].txid in fees && fees[candidates[i].txid] == candidates[i].fee
  }

  lemma ReadOneMore(g: Graph, fees: map<Id, int>, candidates: seq<Candidate>, c: Candidate, t: TxInfo)
    requires Same(t, c, 0) && IsPool(g, candidates, []) && IsFees(fees, candidates) && c.txid !in Elements(Txids(candidates))
    ensures IsPool(g[c.txid := t], candidates + [c], []) && IsFees(fees[c.txid := c.fee], candidates + [c])
  {
    assert Txids(candidates + [c]) == Txids(candidates) + [c.txid];
    assert Elements(Txids(candidates + [c])) == Elements(Txids(candidates)) + {c.txid};
    forall j | 0 <= j < |candidates| ensures candidates[j].txid != c.txid {
      assert Txids(candidates)[j] == candidates[j].txid;
    }
  }

  lemma IsSame(t: TxInfo, c: Candidate)
    requires t == TxInfo(c.fee, AdjustedVsize(c.weight, c.sigops), c.weight, c.sigops, c.order, c.inputs)
    ensures Same(t, c, 0)
  {
  }

  lemma NewTxid(candidates: seq<Candidate>, i: nat)
    requires Distinct(Txids(candidates)) && i < |candidates|
    ensures candidates[i].txid !in Elements(Txids(candidates[..i])) && candidates[..i + 1] == candidates[..i] + [candidates[i]]
  {
    forall j | 0 <= j < i ensures Txids(candidates[..i])[j] != candidates[i].txid {
      assert Txids(candidates)[j] != Txids(candidates)[i];
    }
  }

  lemma AcceleratedOneMore(g: Graph, fees: map<Id, int>, candidates: seq<Candidate>, done: seq<Acceleration>, a: Acceleration)
    requires IsPool(g, candidates, done) && IsFees(fees, candidates)
    ensures a.txid in g ==> a.txid in fees
    ensures a.txid in g ==> IsPool(g[a.txid := g[a.txid].(fee := fees[a.txid] + a.maxBid)], candidates, done + [a])
    ensures a.txid !in g ==> IsPool(g, candidates, done + [a])
  {
    assert (done + [a])[..|done|] == done;
  }

  /** Fills the audit pool: all candidates first, then the accelerations over them. */
  method CandidatePool(candidates: seq<Candidate>, accelerations: seq<Acceleration>) returns (g: Graph)
    requires Distinct(Txids(candidates))
    ensures IsPool(g, candidates, accelerations)
  {
    g := map[];
    var fees: map<Id, int> := map[];
    for i := 0 to |candidates|
      invariant IsPool(g, candidates[..i], []) && IsFees(fees, candidates[..i])
    {
      var c := candidates[i];
      NewTxid(candidates, i);
      hide *;
      var t := TxInfo(c.fee, AdjustedVsize(c.weight, c.sigops), c.weight, c.sigops, c.order, c.inputs);
      IsSame(t, c);
      ReadOneMore(g, fees, candidates[..i], c, t);
      g, fees := g[c.txid := t], fees[c.txid := c.fee];
    }
    assert candidates[..|candidates|] == candidates;
    for i := 0 to |accelerations|
      invariant IsPool(g, candidates, accelerations[..i])
    {
      var a := accelerations[i];
      assert accelerations[..i + 1] == accelerations[..i] + [a];
      hide *;
      AcceleratedOneMore(g, fees, candidates, accelerations[..i], a);
      if a.txid in g {
        g := g[a.txid := g[a.txid].(fee := fees[a.txid] + a.maxBid)];
      }
    }
    assert accelerations[..|accelerations|] == accelerations;
  }

  /** Transactions spend outputs of transactions made before them. */
  ghost predicate AcyclicCandidates(candidates: seq<Candidate>) {
    exists rank: map<Id, nat> :: RankedCandidates(candidates, rank)
  }

  ghost predicate RankedCandidates(candidates: seq<Candidate>, rank: map<Id, nat>) {
    && (forall i :: 0 <= i < |candidates| ==> candidates[i].txid in rank)
    && forall i, j :: 0 <= i < |candidates| && 0 <= j < |candidates| && candidates[j].txid in candidates[i].inputs ==>
      rank[candidates[j].txid] < rank[candidates[i].txid]
  }

  lemma PoolAcyclic(g: Graph, candidates: seq<Candidate>, accelerations: seq<Acceleration>)
    requires IsPool(g, candidates, accelerations) && AcyclicCandidates(candidates)
    ensures Acyclic(g) && forall x :: x in g ==> g[x].weight <= 4 * g[x].size
  {
    var rank: map<Id, nat> :| RankedCandidates(candidates, rank);
    forall x | x in g ensures x in rank && g[x].weight <= 4 * g[x].size {
      var i := IndexOf(g, candidates, accelerations, x);
    }
    forall p, x | IsParent(g, p, x) ensures rank[p] < rank[x] {
      var i := IndexOf(g, candidates, accelerations, x);
      var j := IndexOf(g, candidates, accelerations, p);
    }
    assert Ranked(g, rank);
  }

  lemma PoolKeys(g: Graph, candidates: seq<Candidate>, accelerations: seq<Acceleration>)
    requires IsPool(g, candidates, accelerations)
    ensures g.Keys == Elements(Txids(candidates))
  {
  }

  lemma IndexOf(g: Graph, candidates: seq<Candidate>, accelerations: seq<Acceleration>, x: Id) returns (i: nat)
    requires IsPool(g, candidates, accelerations) && x in g
    ensures i < |candidates| && candidates[i].txid == x && Same(g[x], candidates[i], Bid(accelerations, x))
  {
    assert x in Elements(Txids(candidates));
    i :| 0 <= i < |candidates| && Txids(candidates)[i] == x;
  }

  // ---------- the candidates' own inputs, fees, sizes and rates ----------

  /** Some candidate with identifier "x" spends from "q". */
  ghost predicate HasInput(candidates: seq<Candidate>, x: Id, q: Id) {
    exists i :: 0 <= i < |candidates| && candidates[i].txid == x && q in candidates[i].inputs
  }

  ghost function InputsOf(candidates: seq<Candidate>): Links {
    map x | x in Txids(candidates) :: set q | q in Txids(candidates) && HasInput(candidates, x, q)
  }

  /** Fees with the bid of the last acceleration. */
  ghost function FeesOf(candidates: seq<Candidate>, accelerations: seq<Acceleration>): (m: map<Id, int>)
    requires Distinct(Txids(candidates))
    ensures m.Keys == Elements(Txids(candidates))
  {
    TxidsDiffer(candidates);
    TxidsAre(candidates);
    map i | 0 <= i < |candidates| :: candidates[i].txid := candidates[i].fee + Bid(accelerations, candidates[i].txid)
  }

  ghost function VsizesOf(candidates: seq<Candidate>): (m: map<Id, int>)
    requires Distinct(Txids(candidates))
    ensures m.Keys == Elements(Txids(candidates))
  {
    TxidsDiffer(candidates);
    TxidsAre(candidates);
    map i | 0 <= i < |candidates| :: candidates[i].txid := AdjustedVsize(candidates[i].weight, candidates[i].sigops)
  }

  ghost function WeightsOf(candidates: seq<Candidate>): (m: map<Id, int>)
    requires Distinct(Txids(candidates))
    ensures m.Keys == Elements(Txids(candidates))
  {
    TxidsDiffer(candidates);
    TxidsAre(candidates);
    map i | 0 <= i < |candidates| :: candidates[i].txid := candidates[i].weight
  }

  ghost function SigopsOf(candidates: seq<Candidate>): (m: map<Id, int>)
    requires Distinct(Txids(candidates))
    ensures m.Keys == Elements(Txids(candidates))
  {
    TxidsDiffer(candidates);
    TxidsAre(candidates);
    map i | 0 <= i < |candidates| :: candidates[i].txid := candidates[i].sigops
  }

  /** What each candidate pays for a vbyte of its own. */
  ghost function RatesOf(candidates: seq<Candidate>, accelerations: seq<Acceleration>): map<Id, real>
    requires Distinct(Txids(candidates))
  {
    PerVbyte(FeesOf(candidates, accelerations), VsizesOf(candidates))
  }

  ghost function PerVbyte(fees: map<Id, int>, vsizes: map<Id, int>): map<Id, real> {
    map x | x in fees && x in vsizes && vsizes[x] > 0 :: fees[x] as real / vsizes[x] as real
  }

  lemma TxidsAre(candidates: seq<Candidate>)
    ensures Elements(Txids(candidates)) == set i | 0 <= i < |candidates| :: candidates[i].txid
  {
    forall i | 0 <= i < |candidates| ensures candidates[i].txid in Elements(Txids(candidates)) {
      assert Txids(candidates)[i] == candidates[i].txid;
    }
  }

  lemma TxidsDiffer(candidates: seq<Candidate>)
    requires Distinct(Txids(candidates))
    ensures forall i, j :: 0 <= i < |candidates| && 0 <= j < |candidates| && candidates[i].txid == candidates[j].txid ==> i == j
  {
    forall i, j | 0 <= i < |candidates| && 0 <= j < |candidates| && candidates[i].txid == candidates[j].txid ensures i == j {
      assert Txids(candidates)[i] == Txids(candidates)[j];
    }
  }

  /** The pool holds the same. */
  lemma SameFields(g: Graph, candidates: seq<Candidate>, accelerations: seq<Acceleration>)
    requires IsPool(g, candidates, accelerations) && Distinct(Txids(candidates))
    ensures InputsOf(candidates) == InputsIn(g) && FeesOf(candidates, accelerations) == Fees(g) && VsizesOf(candidates) == Sizes(g)
    ensures WeightsOf(candidates) == Weights(g) && SigopsOf(candidates) == Sigops(g)
  {
    hide *;
    FieldKeys(g, candidates, accelerations);
    forall x | x in g
      ensures InputsOf(candidates)[x] == InputsIn(g)[x] && FeesOf(candidates, accelerations)[x] == Fees(g)[x] && VsizesOf(candidates)[x] == Sizes(g)[x]
      ensures WeightsOf(candidates)[x] == Weights(g)[x] && SigopsOf(candidates)[x] == Sigops(g)[x]
    {
      SameInputs(g, candidates, accelerations, x);
      FieldsAt(g, candidates, accelerations, x);
    }
    assert InputsOf(candidates) == InputsIn(g);
    assert FeesOf(candidates, accelerations) == Fees(g) && VsizesOf(candidates) == Sizes(g);
    assert WeightsOf(candidates) == Weights(g) && SigopsOf(candidates) == Sigops(g);
  }

  lemma FieldKeys(g: Graph, candidates: seq<Candidate>, accelerations: seq<Acceleration>)
    requires IsPool(g, candidates, accelerations) && Distinct(Txids(candidates))
    ensures InputsOf(candidates).Keys == InputsIn(g).Keys == FeesOf(candidates, accelerations).Keys == Fees(g).Keys == g.Keys
    ensures VsizesOf(candidates).Keys == Sizes(g).Keys == WeightsOf(candidates).Keys == Weights(g).Keys == SigopsOf(candidates).Keys == Sigops(g).Keys == g.Keys
  {
    hide Distinct, HasInput, FeesOf, VsizesOf, WeightsOf, SigopsOf, Same;
    assert forall x :: x in Txids(candidates) <==> x in Elements(Txids(candidates));
  }

  lemma FieldsAt(g: Graph, candidates: seq<Candidate>, accelerations: seq<Acceleration>, x: Id)
    requires IsPool(g, candidates, accelerations) && Distinct(Txids(candidates)) && x in g
    ensures x in FeesOf(candidates, accelerations) && FeesOf(candidates, accelerations)[x] == Fees(g)[x]
    ensures x in VsizesOf(candidates) && VsizesOf(candidates)[x] == Sizes(g)[x]
    ensures x in WeightsOf(candidates) && WeightsOf(candidates)[x] == Weights(g)[x]
    ensures x in SigopsOf(candidates) && SigopsOf(candidates)[x] == Sigops(g)[x]
  {
    var i := IndexOf(g, candidates, accelerations, x);
    TxidsDiffer(candidates);
    hide Distinct, Txids, Bid, AdjustedVsize, IsPool, HasInput;
    assert FeesOf(candidates, accelerations)[x] == candidates[i].fee + Bid(accelerations, x);
    assert VsizesOf(candidates)[x] == AdjustedVsize(candidates[i].weight, candidates[i].sigops);
    hide FeesOf, VsizesOf;
    assert WeightsOf(candidates)[x] == candidates[i].weight;
    assert SigopsOf(candidates)[x] == candidates[i].sigops;
  }

  /** The rates the transactions come with. */
  lemma SameRates(g: Graph, candidates: seq<Candidate>, accelerations: seq<Acceleration>)
    requires IsPool(g, candidates, accelerations) && Distinct(Txids(candidates))
    ensures RatesOf(candidates, accelerations) == map x | x in g :: Rate(1, g[x].fee, g[x].size)
  {
    SameFields(g, candidates, accelerations);
    hide *;
    PoolRates(g);
    RatesAre(candidates, accelerations);
  }

  lemma RatesAre(candidates: seq<Candidate>, accelerations: seq<Acceleration>)
    requires Distinct(Txids(candidates))
    ensures RatesOf(candidates, accelerations) == PerVbyte(FeesOf(candidates, accelerations), VsizesOf(candidates))
  {
  }

  lemma PoolRates(g: Graph)
    ensures PerVbyte(Fees(g), Sizes(g)) == map x | x in g :: Rate(1, g[x].fee, g[x].size)
  {
    hide Rate;
    forall x | x in g ensures Rate(1, g[x].fee, g[x].size) == g[x].fee as real / g[x].size as real {
      RateIs(g[x].fee, g[x].size);
    }
  }

  lemma RateIs(fee: int, size: pos)
    ensures Rate(1, fee, size) == fee as real / size as real
  {
  }

  lemma SameInputs(g: Graph, candidates: seq<Candidate>, accelerations: seq<Acceleration>, x: Id)
    requires IsPool(g, candidates, accelerations) && x in g
    ensures x in Txids(candidates) && InputsOf(candidates)[x] == InputsIn(g)[x]
  {
    assert forall y :: y in Txids(candidates) <==> y in Elements(Txids(candidates));
    var i := IndexOf(g, candidates, accelerations, x);
    forall q ensures HasInput(candidates, x, q) <==> q in g[x].inputs {
    }
  }
}
