/** The fast estimate of a mined block's effective fee rates: clusters of adjacent transactions, then ancestor caps. */
module FastCpfp {
  type Txid = int

  /** A transaction of the block; a missing fee counts as 0. "vin" are the transactions it spends from. */
  datatype Tx = Tx(txid: Txid, fee: int, weight: int, vin: seq<Txid>)

  datatype Cluster = Cluster(root: Txid, txs: seq<Txid>, rate: real)

  /** The transactions "lo" to "hi" - 1 of the block. */
  datatype Segment = Segment(lo: int, hi: int)

  ghost predicate WellFormed(block: seq<Tx>) {
    && (forall i :: 0 <= i < |block| ==> block[i].weight > 0)
    && forall i, j :: 0 <= i < j < |block| ==> block[i].txid != block[j].txid
  }

  // ---------- the segments of the reverse pass ----------

  /** Some transaction from "lo" to "hi" - 1 spends from "x". */
  ghost predicate SpentWithin(block: seq<Tx>, x: Txid, lo: int, hi: int) {
    exists j :: lo <= j < hi && 0 <= j < |block| && x in block[j].vin
  }

  /** Every member but the last is spent by a later member, and the transaction before is not. */
  ghost predicate IsCluster(block: seq<Tx>, s: Segment) {
    && 0 <= s.lo < s.hi <= |block|
    && (forall i :: s.lo <= i < s.hi - 1 ==> SpentWithin(block, block[i].txid, i + 1, s.hi))
    && (s.lo > 0 ==> !SpentWithin(block, block[s.lo - 1].txid, s.lo, s.hi))
  }

  /** The segments, last first, cover the block from "from" on, each starting where the next one ends. */
  ghost predicate Partition(block: seq<Tx>, segs: seq<Segment>, from: int) {
    && 0 <= from <= |block|
    && (forall k :: 0 <= k < |segs| ==> IsCluster(block, segs[k]))
    && (forall j, k :: 0 <= j < k < |segs| && k == j + 1 ==> segs[k].hi == segs[j].lo)
    && (if segs == [] then from == |block| else segs[0].hi == |block| && segs[|segs| - 1].lo == from)
  }

  /** There is only one such partition. */
  lemma {:induction false} PartitionUnique(block: seq<Tx>, s: seq<Segment>, t: seq<Segment>, k: nat)
    requires Partition(block, s, 0) && Partition(block, t, 0) && k < |s| && k < |t|
    ensures s[k] == t[k]
    decreases k
  {
    if k > 0 { PartitionUnique(block, s, t, k - 1); }
    assert k > 0 ==> s[k].hi == s[k - 1].lo && t[k].hi == t[k - 1].lo;
    assert s[k].hi == t[k].hi;
    NotLower(block, s[k], t[k]);
    NotLower(block, t[k], s[k]);
  }

  lemma NotLower(block: seq<Tx>, a: Segment, b: Segment)
    requires IsCluster(block, a) && IsCluster(block, b) && a.hi == b.hi
    ensures a.lo >= b.lo
  {
    hide *;
    ClusterBounds(block, a);
    ClusterBounds(block, b);
    if a.lo < b.lo {
      NextSpent(block, a, b.lo - 1);
    }
  }

  lemma ClusterBounds(block: seq<Tx>, s: Segment)
    requires IsCluster(block, s)
    ensures 0 <= s.lo < s.hi <= |block| && (s.lo > 0 ==> !SpentWithin(block, block[s.lo - 1].txid, s.lo, s.hi))
  {
  }

  lemma NextSpent(block: seq<Tx>, s: Segment, i: int)
    requires IsCluster(block, s) && s.lo <= i < s.hi - 1
    ensures 0 <= i < |block| && SpentWithin(block, block[i].txid, i + 1, s.hi)
  {
  }

  /** Every transaction of the block lies in exactly one segment. */
  lemma {:induction false} Covered(block: seq<Tx>, segs: seq<Segment>, from: int, i: int) returns (k: nat)
    requires Partition(block, segs, from) && from <= i < |block|
    ensures k < |segs| && segs[k].lo <= i < segs[k].hi
    decreases |segs|
  {
    var n := |segs| - 1;
    if segs[n].lo <= i < segs[n].hi {
      k := n;
    } else {
      assert n > 0 ==> segs[n].hi == segs[n - 1].lo;
      k := Covered(block, segs[..n], segs[n].hi, i);
    }
  }

  // ---------- totals ----------

  ghost function FeeOf(block: seq<Tx>, lo: int, hi: int): int
    decreases hi - lo
  {
    if 0 <= lo < hi <= |block| then FeeOf(block, lo + 1, hi) + block[lo].fee else 0
  }

  ghost function WeightOf(block: seq<Tx>, lo: int, hi: int): int
    decreases hi - lo
  {
    if 0 <= lo < hi <= |block| then WeightOf(block, lo + 1, hi) + block[lo].weight else 0
  }

  lemma {:induction false} WeightPositive(block: seq<Tx>, lo: int, hi: int)
    requires WellFormed(block) && 0 <= lo <= hi <= |block|
    ensures WeightOf(block, lo, hi) >= 0 && (lo < hi ==> WeightOf(block, lo, hi) > 0)
    decreases hi - lo
  {
    if lo < hi { WeightPositive(block, lo + 1, hi); }
  }

  function Rate(fee: int, weight: int): real {
    if weight == 0 then 0.0 else fee as real / (weight as real / 4.0)
  }

  ghost function SegmentRate(block: seq<Tx>, s: Segment): real {
    var w := WeightOf(block, s.lo, s.hi);
    if w == 0 then 0.0 else FeeOf(block, s.lo, s.hi) as real / (w as real / 4.0)
  }

  /** At its segment's rate, a segment pays exactly its fees. */
  lemma FeesConserved(block: seq<Tx>, s: Segment)
    requires WellFormed(block) && IsCluster(block, s)
    ensures SegmentRate(block, s) * (WeightOf(block, s.lo, s.hi) as real / 4.0) == FeeOf(block, s.lo, s.hi) as real
  {
    WeightPositive(block, s.lo, s.hi);
    hide IsCluster, WellFormed;
  }

  /** The identifiers of a segment, the last transaction first, which is the order it is gathered in. */
  ghost function Members(block: seq<Tx>, lo: int, hi: int): (r: seq<Txid>)
    requires 0 <= lo <= hi <= |block|
    ensures |r| == hi - lo
  {
    seq(hi - lo, k requires 0 <= k < hi - lo => block[hi - 1 - k].txid)
  }

  /** The clusters recorded for the segments: those with more than one member. */
  ghost function ClustersOf(block: seq<Tx>, segs: seq<Segment>): seq<Cluster>
    requires forall k :: 0 <= k < |segs| ==> IsCluster(block, segs[k])
  {
    if segs == [] then [] else
    var s := segs[|segs| - 1];
    assert IsCluster(block, s);
    ClustersOf(block, segs[..|segs| - 1])
      + if s.hi - s.lo > 1 then [Cluster(block[s.hi - 1].txid, Members(block, s.lo, s.hi), SegmentRate(block, s))] else []
  }

  // ---------- the state of the reverse pass ----------

  /** Transactions in closed segments have their segment's rate, the others the rate they came with. */
  ghost predicate Rated(block: seq<Tx>, segs: seq<Segment>, from: int, rate0: map<Txid, real>, rate: map<Txid, real>) {
    && (forall k, i :: 0 <= k < |segs| && segs[k].lo <= i < segs[k].hi && 0 <= i < |block| ==>
          block[i].txid in rate && rate[block[i].txid] == SegmentRate(block, segs[k]))
    && (forall i :: 0 <= i < from && i < |block| ==>
          (block[i].txid in rate <==> block[i].txid in rate0) && (block[i].txid in rate ==> rate[block[i].txid] == rate0[block[i].txid]))
  }

  function ParentsOf(tx: Tx): set<Txid> {
    set x | x in tx.vin
  }

  /** The segment being gathered, from "lo" to "hi" - 1, and its working variables. */
  ghost predicate Gathering(block: seq<Tx>, lo: int, hi: int, clusterTxs: seq<Tx>, ancestors: set<Txid>) {
    && 0 <= lo <= hi <= |block|
    && |clusterTxs| == hi - lo && (forall k :: 0 <= k < hi - lo ==> clusterTxs[k] == block[hi - 1 - k])
    && (forall x :: x in ancestors <==> SpentWithin(block, x, lo, hi))
    && (forall i :: lo <= i < hi - 1 ==> SpentWithin(block, block[i].txid, i + 1, hi))
  }

  lemma GatherMore(block: seq<Tx>, lo: int, hi: int, clusterTxs: seq<Tx>, ancestors: set<Txid>, ancestors': set<Txid>)
    requires Gathering(block, lo, hi, clusterTxs, ancestors) && lo > 0
    requires lo < hi ==> block[lo - 1].txid in ancestors
    requires ancestors' == ancestors + ParentsOf(block[lo - 1])
    ensures Gathering(block, lo - 1, hi, clusterTxs + [block[lo - 1]], ancestors')
  {
    forall x ensures x in ancestors' <==> SpentWithin(block, x, lo - 1, hi) {
      SpentFrom(block, x, lo - 1, hi);
    }
    forall i | lo - 1 <= i < hi - 1 ensures SpentWithin(block, block[i].txid, i + 1, hi) {
    }
    hide SpentWithin;
  }

  lemma SpentFrom(block: seq<Tx>, x: Txid, lo: int, hi: int)
    requires 0 <= lo < |block| && lo <= hi
    ensures SpentWithin(block, x, lo, hi) <==> SpentWithin(block, x, lo + 1, hi) || (lo < hi && x in block[lo].vin)
  {
    if SpentWithin(block, x, lo, hi) {
      var j :| lo <= j < hi && 0 <= j < |block| && x in block[j].vin;
      assert j > lo ==> SpentWithin(block, x, lo + 1, hi);
    }
  }

  lemma GatherNothing(block: seq<Tx>, lo: int)
    requires 0 <= lo <= |block|
    ensures Gathering(block, lo, lo, [], {})
  {
  }

  lemma CloseSegment(block: seq<Tx>, segs: seq<Segment>, lo: int, hi: int, clusterTxs: seq<Tx>, ancestors: set<Txid>)
    requires Partition(block, segs, hi) && Gathering(block, lo, hi, clusterTxs, ancestors) && lo < hi
    requires lo > 0 ==> block[lo - 1].txid !in ancestors
    ensures Partition(block, segs + [Segment(lo, hi)], lo)
  {
    assert IsCluster(block, Segment(lo, hi));
    hide IsCluster, SpentWithin;
  }

  lemma {:induction false} SegmentsAbove(block: seq<Tx>, segs: seq<Segment>, from: int, k: nat)
    requires Partition(block, segs, from) && k < |segs|
    ensures segs[k].lo >= from
    decreases |segs| - k
  {
    if k < |segs| - 1 {
      SegmentsAbove(block, segs, from, k + 1);
      assert segs[k + 1].hi == segs[k].lo && IsCluster(block, segs[k + 1]);
    }
    hide IsCluster;
  }

  /** Rates once the members of the segment from "lo" to "hi" - 1 are written. */
  lemma CloseRates(block: seq<Tx>, segs: seq<Segment>, lo: int, hi: int, rate0: map<Txid, real>, rate: map<Txid, real>, rate': map<Txid, real>)
    requires WellFormed(block) && Partition(block, segs, hi) && Rated(block, segs, hi, rate0, rate) && 0 <= lo <= hi
    requires Written(block, rate, rate', lo, hi, SegmentRate(block, Segment(lo, hi)))
    ensures Rated(block, segs + [Segment(lo, hi)], lo, rate0, rate')
  {
    var segs' := segs + [Segment(lo, hi)];
    forall k, i | 0 <= k < |segs'| && segs'[k].lo <= i < segs'[k].hi && 0 <= i < |block|
      ensures block[i].txid in rate' && rate'[block[i].txid] == SegmentRate(block, segs'[k])
    {
      RangeIndex(block, i, lo, hi);
      if k < |segs| {
        SegmentsAbove(block, segs, hi, k);
        assert segs'[k] == segs[k];
      }
    }
    forall i | 0 <= i < lo ensures (block[i].txid in rate' <==> block[i].txid in rate0) && (block[i].txid in rate' ==> rate'[block[i].txid] == rate0[block[i].txid]) {
      RangeIndex(block, i, lo, hi);
    }
    hide SegmentRate, Partition, InRange;
  }

  /** The rate "r" is written to the transactions from "lo" to "hi" - 1, and to no others. */
  ghost predicate Written(block: seq<Tx>, rate: map<Txid, real>, rate': map<Txid, real>, lo: int, hi: int, r: real) {
    && (forall x :: x in rate' <==> x in rate || InRange(block, x, lo, hi))
    && forall x :: x in rate' ==> rate'[x] == if InRange(block, x, lo, hi) then r else rate[x]
  }

  /** The clusters are those of the segments. */
  ghost predicate Recorded(block: seq<Tx>, segs: seq<Segment>, clusters: seq<Cluster>) {
    (forall k :: 0 <= k < |segs| ==> IsCluster(block, segs[k])) && clusters == ClustersOf(block, segs)
  }

  ghost predicate InRange(block: seq<Tx>, x: Txid, lo: int, hi: int) {
    exists i :: lo <= i < hi && 0 <= i < |block| && block[i].txid == x
  }

  lemma RangeIndex(block: seq<Tx>, i: int, lo: int, hi: int)
    requires WellFormed(block) && 0 <= i < |block|
    ensures InRange(block, block[i].txid, lo, hi) <==> lo <= i < hi
  {
  }

  // ---------- the forward pass ----------

  function Ceil(x: real): int {
    -((-x).Floor)
  }

  function Min(x: real, y: real): real {
    if x <= y then x else y
  }

  /** "x" is at most the whole number "n". */
  ghost predicate AtMost(x: real, n: int) {
    x <= n as real
  }

  /** "y" is above "x" by at least a whole step, from a whole number that covers "x" to the next one. */
  ghost predicate StepAbove(x: real, y: real) {
    exists n: int :: AtMost(x, n) && (n + 1) as real <= y
  }

  /** The cap holds between two transactions: of each whole number that covers the second rate, the first stays below the next. */
  ghost predicate CapHolds(rate: map<Txid, real>, x: Txid, p: Txid) {
    x in rate && p in rate && rate[p] != 0.0 ==> forall n: int :: AtMost(rate[p], n) ==> rate[x] < (n + 1) as real
  }

  /** The first "n" transactions are capped by their earlier parents. */
  ghost predicate Capped(block: seq<Tx>, rate: map<Txid, real>, n: int) {
    forall i, j :: 0 <= j < i < n && i < |block| && block[j].txid in block[i].vin ==> CapHolds(rate, block[i].txid, block[j].txid)
  }

  /** A rate is as it was, or was lowered by at least a whole step. */
  ghost predicate OnlyLowered(rate0: map<Txid, real>, rate: map<Txid, real>) {
    && rate.Keys == rate0.Keys
    && forall x :: x in rate ==> rate[x] == rate0[x] || StepAbove(rate[x], rate0[x])
  }

  /** The code's comparison of rounded values is the comparison by whole steps. */
  lemma RoundedApart(x: real, y: real)
    ensures Ceil(x) < y.Floor <==> StepAbove(x, y)
  {
    if Ceil(x) < y.Floor {
      StepThere(x, y);
    }
    if StepAbove(x, y) {
      var n: int :| AtMost(x, n) && (n + 1) as real <= y;
      CeilLeast(x, n);
      FloorMost(y, n + 1);
    }
  }

  lemma StepThere(x: real, y: real)
    requires Ceil(x) < y.Floor
    ensures StepAbove(x, y)
  {
    var n := Ceil(x);
    assert AtMost(x, n);
    hide Ceil;
    assert (n + 1) as real <= y.Floor as real <= y;
  }

  lemma CeilLeast(x: real, n: int)
    requires AtMost(x, n)
    ensures Ceil(x) <= n
  {
    FloorMost(-x, -n);
  }

  lemma FloorMost(y: real, n: int)
    requires n as real <= y
    ensures n <= y.Floor
  {
  }

  lemma StepOrder(x: real, y: real, z: real)
    requires x <= y
    ensures StepAbove(y, z) ==> StepAbove(x, z)
    ensures !StepAbove(x, z) ==> forall n: int :: AtMost(y, n) ==> z < (n + 1) as real
    ensures forall n: int :: AtMost(y, n) ==> x < (n + 1) as real
  {
    forall n: int | AtMost(y, n) ensures AtMost(x, n) {
    }
  }

  /** The rates the transaction at "i" is compared with: those of the transactions before it are final. */
  ghost function RatesAt(block: seq<Tx>, rate0: map<Txid, real>, rate: map<Txid, real>, i: int): map<Txid, real> {
    map x | x in rate && x in rate0 :: if InRange(block, x, 0, i) then rate[x] else rate0[x]
  }

  /** The final rate of the transaction at "i": the least among its own and its parents' if its own is at least a
      whole step above that, and its own otherwise. */
  ghost predicate Decided(block: seq<Tx>, rate0: map<Txid, real>, rate: map<Txid, real>, i: nat)
    requires i < |block|
  {
    var x := block[i].txid;
    x in rate && x in rate0 ==>
      exists m :: LeastRate(RatesAt(block, rate0, rate, i), rate0[x], block[i].vin, m) && rate[x] == if StepAbove(m, rate0[x]) then m else rate0[x]
  }

  ghost predicate DecidedUpTo(block: seq<Tx>, rate0: map<Txid, real>, rate: map<Txid, real>, n: nat) {
    forall i :: 0 <= i < n && i < |block| ==> Decided(block, rate0, rate, i)
  }

  /** The least rate among the transaction's own and those of its parents that have one. */
  ghost predicate LeastRate(rate: map<Txid, real>, own: real, parents: seq<Txid>, m: real) {
    && m <= own && (forall k :: 0 <= k < |parents| && parents[k] in rate && rate[parents[k]] != 0.0 ==> m <= rate[parents[k]])
    && (m == own || exists k :: 0 <= k < |parents| && parents[k] in rate && rate[parents[k]] == m)
  }

  /** The rates after one transaction is compared with its parents. */
  ghost function CapOne(rate: map<Txid, real>, x: Txid, m: real): map<Txid, real>
    requires x in rate
  {
    if StepAbove(m, rate[x]) then rate[x := m] else rate
  }

  lemma CapStep(block: seq<Tx>, rate0: map<Txid, real>, rate: map<Txid, real>, i: nat, m: real)
    requires WellFormed(block) && i < |block| && Capped(block, rate, i) && OnlyLowered(rate0, rate)
    requires block[i].txid in rate && rate[block[i].txid] == rate0[block[i].txid]
    requires LeastRate(rate, rate[block[i].txid], block[i].vin, m)
    ensures Capped(block, CapOne(rate, block[i].txid, m), i + 1) && OnlyLowered(rate0, CapOne(rate, block[i].txid, m))
  {
    var x, rate' := block[i].txid, CapOne(rate, block[i].txid, m);
    forall a, j | 0 <= j < a < i + 1 && block[j].txid in block[a].vin ensures CapHolds(rate', block[a].txid, block[j].txid) {
      if a < i {
        assert CapHolds(rate, block[a].txid, block[j].txid);
      } else {
        NewCap(rate, x, m, block[i].vin, block[j].txid);
      }
    }
    hide LeastRate, StepAbove;
  }

  lemma NewCap(rate: map<Txid, real>, x: Txid, m: real, parents: seq<Txid>, p: Txid)
    requires x in rate && LeastRate(rate, rate[x], parents, m) && p in parents && p != x
    ensures CapHolds(CapOne(rate, x, m), x, p)
  {
    if p in rate && rate[p] != 0.0 {
      var k :| 0 <= k < |parents| && parents[k] == p;
      assert m <= rate[p];
      StepOrder(m, rate[p], rate[x]);
    }
  }

  /** A transaction without a rate is left alone, and caps nothing. */
  lemma CapSkip(block: seq<Tx>, rate: map<Txid, real>, i: nat)
    requires i < |block| && Capped(block, rate, i) && block[i].txid !in rate
    ensures Capped(block, rate, i + 1)
  {
  }

  // ---------- the calculation ----------

  lemma FeeStep(block: seq<Tx>, lo: int, hi: int)
    requires 0 <= lo < hi <= |block|
    ensures FeeOf(block, lo, hi) == FeeOf(block, lo + 1, hi) + block[lo].fee && WeightOf(block, lo, hi) == WeightOf(block, lo + 1, hi) + block[lo].weight
  {
  }

  lemma RangeStep(block: seq<Tx>, x: Txid, lo: int, hi: int)
    requires 0 <= lo < |block| && lo < hi
    ensures InRange(block, x, lo, hi) <==> InRange(block, x, lo + 1, hi) || x == block[lo].txid
  {
    if InRange(block, x, lo, hi) {
      var i :| lo <= i < hi && 0 <= i < |block| && block[i].txid == x;
      assert i > lo ==> InRange(block, x, lo + 1, hi);
    }
  }

  lemma EmptyRange(block: seq<Tx>, lo: int)
    ensures FeeOf(block, lo, lo) == 0 && WeightOf(block, lo, lo) == 0 && forall x :: !InRange(block, x, lo, lo)
  {
  }

  lemma ClusterRecorded(block: seq<Tx>, segs: seq<Segment>, lo: int, hi: int, members: seq<Txid>)
    requires forall k :: 0 <= k < |segs| ==> IsCluster(block, segs[k])
    requires IsCluster(block, Segment(lo, hi)) && members == Members(block, lo, hi)
    ensures var segs', s := segs + [Segment(lo, hi)], Segment(lo, hi);
      && (forall k :: 0 <= k < |segs'| ==> IsCluster(block, segs'[k]))
      && ClustersOf(block, segs') == ClustersOf(block, segs) + if hi - lo > 1 then [Cluster(members[0], members, SegmentRate(block, s))] else []
  {
    assert (segs + [Segment(lo, hi)])[..|segs|] == segs;
    hide IsCluster, SegmentRate;
  }

  /** The map points each member of a cluster, and nobody else, to its cluster. */
  ghost predicate Indexed(clusters: seq<Cluster>, clusterMap: map<Txid, int>) {
    && (forall x :: x in clusterMap ==> 0 <= clusterMap[x] < |clusters| && x in clusters[clusterMap[x]].txs)
    && forall c, x {:trigger x in clusters[c].txs} :: 0 <= c < |clusters| && x in clusters[c].txs ==> x in clusterMap && clusterMap[x] == c
  }

  /** Only transactions from "from" on have a cluster. */
  ghost predicate MappedFrom(block: seq<Tx>, clusterMap: map<Txid, int>, from: int) {
    forall x :: x in clusterMap ==> InRange(block, x, from, |block|)
  }

  lemma MemberInRange(block: seq<Tx>, lo: int, hi: int, x: Txid)
    requires 0 <= lo <= hi <= |block|
    ensures x in Members(block, lo, hi) <==> InRange(block, x, lo, hi)
  {
    if InRange(block, x, lo, hi) {
      var i :| lo <= i < hi && block[i].txid == x;
      assert Members(block, lo, hi)[hi - 1 - i] == x;
    }
  }

  lemma IndexedMore(block: seq<Tx>, clusters: seq<Cluster>, clusterMap: map<Txid, int>, lo: int, hi: int, c: Cluster)
    requires WellFormed(block) && Indexed(clusters, clusterMap) && MappedFrom(block, clusterMap, hi)
    requires 0 <= lo < hi <= |block| && c.txs == Members(block, lo, hi)
    ensures var members := c.txs;
      var clusterMap' := clusterMap + map x | x in members :: |clusters|;
      Indexed(clusters + [c], clusterMap') && MappedFrom(block, clusterMap', lo)
  {
    var members := c.txs;
    var clusterMap' := clusterMap + map x | x in members :: |clusters|;
    forall x ensures x in members <==> InRange(block, x, lo, hi) { MemberInRange(block, lo, hi, x); }
    forall x | x in members ensures x !in clusterMap { OneRange(block, x, lo, hi); }
    forall x | x in clusterMap' ensures InRange(block, x, lo, |block|) {
      if x in members {
        var i :| lo <= i < hi && block[i].txid == x;
      } else {
        var i :| hi <= i < |block| && block[i].txid == x;
      }
    }
    hide InRange, Members, WellFormed;
  }

  lemma OneRange(block: seq<Tx>, x: Txid, lo: int, hi: int)
    requires WellFormed(block) && 0 <= lo <= hi <= |block| && InRange(block, x, lo, hi)
    ensures !InRange(block, x, hi, |block|)
  {
    var i :| lo <= i < hi && block[i].txid == x;
    RangeIndex(block, i, hi, |block|);
  }

  lemma MappedLower(block: seq<Tx>, clusterMap: map<Txid, int>, lo: int, hi: int)
    requires MappedFrom(block, clusterMap, hi) && lo <= hi
    ensures MappedFrom(block, clusterMap, lo)
  {
  }

  // ---------- the clusters after the forward pass ----------

  /** The forward pass has changed the rate. */
  ghost predicate Dropped(rate0: map<Txid, real>, rate: map<Txid, real>, x: Txid) {
    x in rate0 && x in rate && rate[x] != rate0[x]
  }

  /** A cluster's rate after the first "n" transactions: the new rate of its last member that was lowered. */
  ghost function LastDrop(block: seq<Tx>, rate0: map<Txid, real>, rate: map<Txid, real>, c: Cluster, n: nat): real
    requires n <= |block|
  {
    if n == 0 then c.rate else
    var x := block[n - 1].txid;
    if x in c.txs && Dropped(rate0, rate, x) then rate[x] else LastDrop(block, rate0, rate, c, n - 1)
  }

  /** One more cluster for each lowered transaction that had none. */
  ghost function Singles(block: seq<Tx>, rate0: map<Txid, real>, rate: map<Txid, real>, clusterMap0: map<Txid, int>, n: nat): seq<Cluster>
    requires n <= |block|
  {
    if n == 0 then [] else
    var x := block[n - 1].txid;
    Singles(block, rate0, rate, clusterMap0, n - 1)
      + if Dropped(rate0, rate, x) && x in rate && x !in clusterMap0 then [Cluster(x, [x], rate[x])] else []
  }

  /** The clusters after the first "n" transactions of the forward pass. */
  ghost predicate Forwarded(block: seq<Tx>, rate0: map<Txid, real>, rate: map<Txid, real>, clusters0: seq<Cluster>, clusterMap0: map<Txid, int>,
                            clusters: seq<Cluster>, clusterMap: map<Txid, int>, n: nat)
    requires n <= |block|
  {
    && |clusters| == |clusters0| + |Singles(block, rate0, rate, clusterMap0, n)|
    && (forall c :: 0 <= c < |clusters0| ==> clusters[c] == clusters0[c].(rate := LastDrop(block, rate0, rate, clusters0[c], n)))
    && clusters[|clusters0|..] == Singles(block, rate0, rate, clusterMap0, n)
    && (forall x :: x in clusterMap <==> x in clusterMap0 || DroppedBefore(block, rate0, rate, x, n))
    && (forall x :: x in clusterMap0 && x in clusterMap ==> clusterMap[x] == clusterMap0[x])
  }

  ghost predicate DroppedBefore(block: seq<Tx>, rate0: map<Txid, real>, rate: map<Txid, real>, x: Txid, n: nat) {
    InRange(block, x, 0, n) && Dropped(rate0, rate, x)
  }

  lemma {:induction false} EarlierDrops(block: seq<Tx>, rate0: map<Txid, real>, rate: map<Txid, real>, clusterMap0: map<Txid, int>, i: nat, m: real, n: nat)
    requires WellFormed(block) && n <= i < |block| && block[i].txid in rate
    ensures var rate' := rate[block[i].txid := m];
      && Singles(block, rate0, rate', clusterMap0, n) == Singles(block, rate0, rate, clusterMap0, n)
      && forall c :: LastDrop(block, rate0, rate', c, n) == LastDrop(block, rate0, rate, c, n)
  {
    if n > 0 {
      EarlierDrops(block, rate0, rate, clusterMap0, i, m, n - 1);
      assert block[n - 1].txid != block[i].txid;
      hide WellFormed;
    }
  }

  lemma DropsBefore(block: seq<Tx>, rate0: map<Txid, real>, rate: map<Txid, real>, i: nat, x: Txid)
    requires i < |block|
    ensures DroppedBefore(block, rate0, rate, x, i + 1)
       <==> DroppedBefore(block, rate0, rate, x, i) || (x == block[i].txid && Dropped(rate0, rate, x))
  {
    if DroppedBefore(block, rate0, rate, x, i + 1) {
      var k :| 0 <= k < i + 1 && block[k].txid == x;
      assert k < i ==> InRange(block, x, 0, i);
    }
  }

  /** The next transaction keeps its rate, or has none. */
  lemma ForwardedKept(block: seq<Tx>, rate0: map<Txid, real>, rate: map<Txid, real>, clusters0: seq<Cluster>, clusterMap0: map<Txid, int>,
                      clusters: seq<Cluster>, clusterMap: map<Txid, int>, i: nat)
    requires i < |block| && !Dropped(rate0, rate, block[i].txid)
    requires Forwarded(block, rate0, rate, clusters0, clusterMap0, clusters, clusterMap, i)
    ensures Forwarded(block, rate0, rate, clusters0, clusterMap0, clusters, clusterMap, i + 1)
  {
    forall x ensures DroppedBefore(block, rate0, rate, x, i + 1) <==> DroppedBefore(block, rate0, rate, x, i) {
      DropsBefore(block, rate0, rate, i, x);
    }
    hide DroppedBefore;
  }

  /** The next transaction is lowered: what was recorded before keeps its meaning. */
  lemma ForwardedBefore(block: seq<Tx>, rate0: map<Txid, real>, rate: map<Txid, real>, clusters0: seq<Cluster>, clusterMap0: map<Txid, int>,
                        clusters: seq<Cluster>, clusterMap: map<Txid, int>, i: nat, m: real)
    requires WellFormed(block) && i < |block| && block[i].txid in rate
    requires Forwarded(block, rate0, rate, clusters0, clusterMap0, clusters, clusterMap, i)
    ensures Forwarded(block, rate0, rate[block[i].txid := m], clusters0, clusterMap0, clusters, clusterMap, i)
  {
    var y, rate' := block[i].txid, rate[block[i].txid := m];
    EarlierDrops(block, rate0, rate, clusterMap0, i, m, i);
    forall x ensures DroppedBefore(block, rate0, rate', x, i) <==> DroppedBefore(block, rate0, rate, x, i) {
      RangeIndex(block, i, 0, i);
    }
    hide DroppedBefore, WellFormed, Singles, LastDrop;
  }

  /** A lowered transaction without a cluster gets one of its own. */
  lemma ForwardedSingle(block: seq<Tx>, rate0: map<Txid, real>, rate: map<Txid, real>, clusters0: seq<Cluster>, clusterMap0: map<Txid, int>,
                        clusters: seq<Cluster>, clusterMap: map<Txid, int>, i: nat)
    requires i < |block| && Dropped(rate0, rate, block[i].txid) && block[i].txid in rate && block[i].txid !in clusterMap
    requires (forall c, x {:trigger x in clusters0[c].txs} :: 0 <= c < |clusters0| && x in clusters0[c].txs ==> x in clusterMap0)
    requires Forwarded(block, rate0, rate, clusters0, clusterMap0, clusters, clusterMap, i)
    ensures var x := block[i].txid;
      Forwarded(block, rate0, rate, clusters0, clusterMap0, clusters + [Cluster(x, [x], rate[x])], clusterMap[x := |clusters|], i + 1)
  {
    var y := block[i].txid;
    forall x ensures DroppedBefore(block, rate0, rate, x, i + 1) <==> DroppedBefore(block, rate0, rate, x, i) || x == y {
      DropsBefore(block, rate0, rate, i, x);
    }
    hide DroppedBefore;
    var clusters' := clusters + [Cluster(y, [y], rate[y])];
    assert y !in clusterMap0;
    assert clusters'[|clusters0|..] == clusters[|clusters0|..] + [Cluster(y, [y], rate[y])];
    forall c | 0 <= c < |clusters0| ensures clusters'[c] == clusters0[c].(rate := LastDrop(block, rate0, rate, clusters0[c], i + 1)) {
      assert y !in clusters0[c].txs;
    }
  }

  /** A lowered transaction with a cluster passes its rate on to it. */
  lemma ForwardedShared(block: seq<Tx>, rate0: map<Txid, real>, rate: map<Txid, real>, clusters0: seq<Cluster>, clusterMap0: map<Txid, int>,
                        clusters: seq<Cluster>, clusterMap: map<Txid, int>, i: nat)
    requires WellFormed(block) && i < |block| && Dropped(rate0, rate, block[i].txid) && block[i].txid in rate && block[i].txid in clusterMap
    requires Indexed(clusters0, clusterMap0)
    requires Forwarded(block, rate0, rate, clusters0, clusterMap0, clusters, clusterMap, i)
    ensures var x := block[i].txid; var c := clusterMap[x];
      && 0 <= c < |clusters|
      && Forwarded(block, rate0, rate, clusters0, clusterMap0, clusters[c := clusters[c].(rate := rate[x])], clusterMap, i + 1)
  {
    var y := block[i].txid;
    RangeIndex(block, i, 0, i);
    assert !DroppedBefore(block, rate0, rate, y, i);
    assert y in clusterMap0;
    forall x ensures DroppedBefore(block, rate0, rate, x, i + 1) <==> DroppedBefore(block, rate0, rate, x, i) || x == y {
      DropsBefore(block, rate0, rate, i, x);
    }
    hide DroppedBefore, WellFormed, Dropped;
    var c := clusterMap[y];
    var clusters' := clusters[c := clusters[c].(rate := rate[y])];
    assert clusters'[|clusters0|..] == clusters[|clusters0|..];
    forall k | 0 <= k < |clusters0| ensures clusters'[k] == clusters0[k].(rate := LastDrop(block, rate0, rate, clusters0[k], i + 1)) {
      assert y in clusters0[k].txs <==> k == c;
    }
  }

  /** Of the cluster's members among the first "n" transactions, the one at "i" was lowered last. */
  ghost predicate DroppedLast(block: seq<Tx>, rate0: map<Txid, real>, rate: map<Txid, real>, txs: seq<Txid>, i: int, n: nat) {
    && 0 <= i < n <= |block| && block[i].txid in txs && Dropped(rate0, rate, block[i].txid)
    && forall j :: i < j < n ==> !(block[j].txid in txs && Dropped(rate0, rate, block[j].txid))
  }

  lemma {:induction false} LastDropMeans(block: seq<Tx>, rate0: map<Txid, real>, rate: map<Txid, real>, c: Cluster, n: nat) returns (i: int)
    requires n <= |block|
    ensures i < 0 ==> LastDrop(block, rate0, rate, c, n) == c.rate
    ensures i < 0 ==> forall j :: 0 <= j < n ==> !(block[j].txid in c.txs && Dropped(rate0, rate, block[j].txid))
    ensures i >= 0 ==> DroppedLast(block, rate0, rate, c.txs, i, n) && block[i].txid in rate
    ensures i >= 0 ==> LastDrop(block, rate0, rate, c, n) == rate[block[i].txid]
  {
    if n == 0 {
      i := -1;
    } else if block[n - 1].txid in c.txs && Dropped(rate0, rate, block[n - 1].txid) {
      i := n - 1;
    } else {
      i := LastDropMeans(block, rate0, rate, c, n - 1);
    }
  }

  lemma {:induction false} SinglesAre(block: seq<Tx>, rate0: map<Txid, real>, rate: map<Txid, real>, clusterMap0: map<Txid, int>, n: nat, k: nat)
    requires n <= |block| && k < |Singles(block, rate0, rate, clusterMap0, n)|
    ensures var x := Singles(block, rate0, rate, clusterMap0, n)[k].root;
      x in rate && x !in clusterMap0 && Dropped(rate0, rate, x) && Singles(block, rate0, rate, clusterMap0, n)[k] == Cluster(x, [x], rate[x])
  {
    if k < |Singles(block, rate0, rate, clusterMap0, n - 1)| {
      SinglesAre(block, rate0, rate, clusterMap0, n - 1, k);
    }
  }

  /** The clusters of the reverse pass: one none of whose members was lowered is as it was, and any other has
      the final rate of the member that was lowered last. */
  lemma SegmentClusterRate(block: seq<Tx>, rate0: map<Txid, real>, rate: map<Txid, real>, clusters0: seq<Cluster>, clusterMap0: map<Txid, int>,
                           clusters: seq<Cluster>, clusterMap: map<Txid, int>, c: nat)
    requires Forwarded(block, rate0, rate, clusters0, clusterMap0, clusters, clusterMap, |block|) && c < |clusters0|
    ensures c < |clusters| && clusters[c].root == clusters0[c].root && clusters[c].txs == clusters0[c].txs
    ensures (forall j :: 0 <= j < |block| && block[j].txid in clusters[c].txs ==> !Dropped(rate0, rate, block[j].txid)) ==> clusters[c] == clusters0[c]
    ensures forall i :: DroppedLast(block, rate0, rate, clusters[c].txs, i, |block|) ==>
      block[i].txid in rate && clusters[c].rate == rate[block[i].txid]
  {
    var k := LastDropMeans(block, rate0, rate, clusters0[c], |block|);
    assert clusters[c] == clusters0[c].(rate := LastDrop(block, rate0, rate, clusters0[c], |block|));
    hide Forwarded, Dropped;
  }

  lemma InSegment(block: seq<Tx>, rate0: map<Txid, real>, rate: map<Txid, real>, clusters0: seq<Cluster>, clusterMap0: map<Txid, int>,
                  clusters: seq<Cluster>, clusterMap: map<Txid, int>, c: nat, x: Txid)
    requires Forwarded(block, rate0, rate, clusters0, clusterMap0, clusters, clusterMap, |block|) && Indexed(clusters0, clusterMap0)
    requires c < |clusters0| && c < |clusters| && x in clusters[c].txs
    ensures x in clusterMap0
  {
    assert x in clusters0[c].txs;
  }

  /** The clusters added by the forward pass have one member each, lowered and in no cluster before, and carry
      its final rate; and every lowered transaction has a cluster. */
  lemma LoweredHasCluster(block: seq<Tx>, rate0: map<Txid, real>, rate: map<Txid, real>, clusters0: seq<Cluster>, clusterMap0: map<Txid, int>,
                          clusters: seq<Cluster>, clusterMap: map<Txid, int>, i: nat)
    requires Forwarded(block, rate0, rate, clusters0, clusterMap0, clusters, clusterMap, |block|)
    requires Indexed(clusters0, clusterMap0) && Indexed(clusters, clusterMap)
    requires i < |block| && Dropped(rate0, rate, block[i].txid)
    ensures var x := block[i].txid;
      && x in clusterMap && 0 <= clusterMap[x] < |clusters| && x in rate
      && (x !in clusterMap0 ==> clusters[clusterMap[x]] == Cluster(x, [x], rate[x]))
      && (x in clusterMap0 ==> clusterMap[x] == clusterMap0[x] < |clusters0|)
  {
    var x := block[i].txid;
    assert InRange(block, x, 0, |block|) && DroppedBefore(block, rate0, rate, x, |block|);
    var c := clusterMap[x];
    if x !in clusterMap0 {
      assert x in clusters[c].txs;
      if c < |clusters0| {
        InSegment(block, rate0, rate, clusters0, clusterMap0, clusters, clusterMap, c, x);
      } else {
        var k := c - |clusters0|;
        assert clusters[|clusters0|..][k] == clusters[c];
        SinglesAre(block, rate0, rate, clusterMap0, |block|, k);
      }
    }
  }

  lemma IndexedSingle(clusters: seq<Cluster>, clusterMap: map<Txid, int>, x: Txid, m: real)
    requires Indexed(clusters, clusterMap) && x !in clusterMap
    ensures Indexed(clusters + [Cluster(x, [x], m)], clusterMap[x := |clusters|])
  {
    var clusters', clusterMap' := clusters + [Cluster(x, [x], m)], clusterMap[x := |clusters|];
    forall c, y {:trigger y in clusters'[c].txs} | 0 <= c < |clusters'| && y in clusters'[c].txs ensures y in clusterMap' && clusterMap'[y] == c {
      if c < |clusters| {
        assert y in clusters[c].txs;
      }
    }
  }

  lemma IndexedRate(clusters: seq<Cluster>, clusterMap: map<Txid, int>, c: int, m: real)
    requires Indexed(clusters, clusterMap) && 0 <= c < |clusters|
    ensures Indexed(clusters[c := clusters[c].(rate := m)], clusterMap)
  {
    var clusters' := clusters[c := clusters[c].(rate := m)];
    assert forall k :: 0 <= k < |clusters| ==> clusters'[k].txs == clusters[k].txs;
  }

  class Calculator {
    const block: seq<Tx>
    /** effectiveFeePerVsize of the transactions that have one */
    var rate: map<Txid, real>
    var clusters: seq<Cluster>
    /** the index of each clustered transaction's cluster */
    var clusterMap: map<Txid, int>

    ghost predicate Valid()
      reads this`clusters, this`clusterMap
    {
      WellFormed(block) && Indexed(clusters, clusterMap)
    }

    constructor (transactions: seq<Tx>, initialRate: map<Txid, real>)
      requires WellFormed(transactions)
      ensures Valid() && block == transactions && rate == initialRate && clusters == [] && clusterMap == map[]
    {
      block, rate, clusters, clusterMap := transactions, initialRate, [], map[];
    }

    method Totals(clusterTxs: seq<Tx>, ghost lo: int, ghost hi: int, ghost ancestors: set<Txid>) returns (totalFee: int, totalWeight: int)
      requires Gathering(block, lo, hi, clusterTxs, ancestors)
      ensures totalFee == FeeOf(block, lo, hi) && totalWeight == WeightOf(block, lo, hi)
    {
      hide SpentWithin;
      totalFee, totalWeight := 0, 0;
      EmptyRange(block, hi);
      for k := 0 to |clusterTxs|
        invariant totalFee == FeeOf(block, hi - k, hi) && totalWeight == WeightOf(block, hi - k, hi)
      {
        FeeStep(block, hi - k - 1, hi);
        totalFee := totalFee + clusterTxs[k].fee;
        totalWeight := totalWeight + clusterTxs[k].weight;
      }
    }

    /** Writes the rate of a closed segment to its members. */
    method WriteRates(clusterTxs: seq<Tx>, r: real, ghost lo: int, ghost hi: int, ghost ancestors: set<Txid>)
      requires Gathering(block, lo, hi, clusterTxs, ancestors)
      modifies this`rate
      ensures Written(block, old(rate), rate, lo, hi, r)
    {
      hide SpentWithin, InRange;
      EmptyRange(block, hi);
      for k := 0 to |clusterTxs|
        invariant Written(block, old(rate), rate, hi - k, hi, r)
      {
        ghost var from, from' := hi - k, hi - k - 1;
        forall x ensures InRange(block, x, from', hi) <==> InRange(block, x, from, hi) || x == clusterTxs[k].txid {
          RangeStep(block, x, from', hi);
        }
        rate := rate[clusterTxs[k].txid := r];
      }
    }

    method RecordCluster(clusterTxs: seq<Tx>, r: real, ghost lo: int, ghost hi: int, ghost ancestors: set<Txid>)
      requires Valid() && Gathering(block, lo, hi, clusterTxs, ancestors) && MappedFrom(block, clusterMap, hi)
      modifies this`clusters, this`clusterMap
      ensures Valid() && MappedFrom(block, clusterMap, lo)
      ensures clusters == old(clusters) + if hi - lo > 1 then [Cluster(block[hi - 1].txid, Members(block, lo, hi), r)] else []
    {
      hide SpentWithin, Indexed, MappedFrom, InRange;
      MappedLower(block, clusterMap, lo, hi);
      if |clusterTxs| > 1 {
        var members := seq(|clusterTxs|, k requires 0 <= k < |clusterTxs| => clusterTxs[k].txid);
        assert members == Members(block, lo, hi);
        var cluster := Cluster(clusterTxs[0].txid, members, r);
        IndexedMore(block, clusters, clusterMap, lo, hi, cluster);
        var index := |clusters|;
        clusters := clusters + [cluster];
        clusterMap := clusterMap + map x | x in members :: index;
      }
    }

    /** Closes the segment gathered so far: it gets its rate, and is recorded if it has more than one member. */
    method Close(clusterTxs: seq<Tx>, ghost segs: seq<Segment>, ghost lo: int, ghost hi: int, ghost ancestors: set<Txid>, ghost rate0: map<Txid, real>)
      requires Valid() && Gathering(block, lo, hi, clusterTxs, ancestors) && 0 < lo < hi && block[lo - 1].txid !in ancestors
      requires Partition(block, segs, hi) && Rated(block, segs, hi, rate0, rate) && Recorded(block, segs, clusters)
      requires MappedFrom(block, clusterMap, hi)
      modifies this
      ensures Valid() && Partition(block, segs + [Segment(lo, hi)], lo) && Rated(block, segs + [Segment(lo, hi)], lo, rate0, rate)
      ensures Recorded(block, segs + [Segment(lo, hi)], clusters) && MappedFrom(block, clusterMap, lo)
    {
      ghost var rateBefore := rate;
      assert WellFormed(block);
      hide *;
      Closed(block, segs, lo, hi, clusterTxs, ancestors, clusters);
      var totalFee, totalWeight := Totals(clusterTxs, lo, hi, ancestors);
      var effectiveFeePerVsize := Rate(totalFee, totalWeight);
      RecordCluster(clusterTxs, effectiveFeePerVsize, lo, hi, ancestors);
      WriteRates(clusterTxs, effectiveFeePerVsize, lo, hi, ancestors);
      CloseRates(block, segs, lo, hi, rate0, rateBefore, rate);
    }

    /** From the last transaction to the first; what is gathered when the first is reached is never closed. */
    method ReversePass() returns (ghost segs: seq<Segment>, ghost open: Segment)
      requires Valid() && clusters == [] && clusterMap == map[] && block != []
      modifies this
      ensures Valid() && Partition(block, segs + [open], 0) && open.lo == 0
      ensures Rated(block, segs, open.hi, old(rate), rate)
      ensures Recorded(block, segs, clusters)
    {
      ghost var rate0 := rate;
      hide *;
      segs := [];
      ghost var hi := |block|;
      var clusterTxs: seq<Tx>, ancestors: set<Txid> := [], {};
      StartReverse(block, rate0);
      var i := |block| - 1;
      while i >= 0
        invariant -1 <= i < |block| && Valid() && i + 1 <= hi && (i < |block| - 1 ==> i + 1 < hi)
        invariant Gathering(block, i + 1, hi, clusterTxs, ancestors)
        invariant Partition(block, segs, hi) && Rated(block, segs, hi, rate0, rate)
        invariant Recorded(block, segs, clusters) && MappedFrom(block, clusterMap, hi)
      {
        var tx := block[i];
        if tx.txid !in ancestors {
          GatheringBounds(block, i + 1, hi, clusterTxs, ancestors);
          if clusterTxs != [] {
            ghost var s := Segment(i + 1, hi);
            Close(clusterTxs, segs, i + 1, hi, ancestors, rate0);
            segs, hi := segs + [s], i + 1;
          }
          clusterTxs, ancestors := [], {};
          GatherNothing(block, i + 1);
        }
        GatherMore(block, i + 1, hi, clusterTxs, ancestors, ancestors + ParentsOf(tx));
        clusterTxs := clusterTxs + [tx];
        ancestors := ancestors + ParentsOf(tx);
        i := i - 1;
      }
      open := Segment(0, hi);
      CloseSegment(block, segs, 0, hi, clusterTxs, ancestors);
    }

    /** The least rate among the transaction's own and its parents'. */
    method MinAncestorRate(tx: Tx) returns (m: real)
      requires tx.txid in rate
      ensures LeastRate(rate, rate[tx.txid], tx.vin, m)
    {
      m := rate[tx.txid];
      for k := 0 to |tx.vin|
        invariant LeastRate(rate, rate[tx.txid], tx.vin[..k], m)
      {
        LeastStep(rate, rate[tx.txid], tx.vin, k, m);
        if tx.vin[k] in rate && rate[tx.vin[k]] != 0.0 {
          m := Min(m, rate[tx.vin[k]]);
        }
      }
      assert tx.vin[..|tx.vin|] == tx.vin;
    }

    /** Lowers a transaction's rate and records it with its cluster, a new one if it has none. */
    method LowerRate(i: nat, m: real, ghost rate0: map<Txid, real>, ghost clusters0: seq<Cluster>, ghost clusterMap0: map<Txid, int>)
      requires Valid() && Indexed(clusters0, clusterMap0) && i < |block|
      requires block[i].txid in rate && block[i].txid in rate0 && m != rate0[block[i].txid]
      requires Forwarded(block, rate0, rate, clusters0, clusterMap0, clusters, clusterMap, i)
      modifies this
      ensures Valid() && rate == old(rate)[block[i].txid := m]
      ensures Forwarded(block, rate0, rate, clusters0, clusterMap0, clusters, clusterMap, i + 1)
    {
      var x := block[i].txid;
      ForwardedBefore(block, rate0, rate, clusters0, clusterMap0, clusters, clusterMap, i, m);
      hide Forwarded, WellFormed;
      rate := rate[x := m];
      if x !in clusterMap {
        ForwardedSingle(block, rate0, rate, clusters0, clusterMap0, clusters, clusterMap, i);
        IndexedSingle(clusters, clusterMap, x, m);
        hide Indexed;
        clusterMap := clusterMap[x := |clusters|];
        clusters := clusters + [Cluster(x, [x], m)];
      } else {
        ForwardedShared(block, rate0, rate, clusters0, clusterMap0, clusters, clusterMap, i);
        var c := clusterMap[x];
        IndexedRate(clusters, clusterMap, c, m);
        hide Indexed;
        clusters := clusters[c := clusters[c].(rate := m)];
      }
    }

    /** From the first transaction to the last. */
    method ForwardPass()
      requires Valid()
      modifies this
      ensures Valid() && Capped(block, rate, |block|) && OnlyLowered(old(rate), rate) && DecidedUpTo(block, old(rate), rate, |block|)
      ensures Forwarded(block, old(rate), rate, old(clusters), old(clusterMap), clusters, clusterMap, |block|)
    {
      hide *;
      ghost var rate0, clusters0, clusterMap0 := rate, clusters, clusterMap;
      ValidParts();
      StartForward(block, rate0, clusters0, clusterMap0);
      for i := 0 to |block|
        invariant Valid() && Capped(block, rate, i) && OnlyLowered(rate0, rate) && DecidedUpTo(block, rate0, rate, i)
        invariant UntouchedFrom(block, rate0, rate, i)
        invariant Forwarded(block, rate0, rate, clusters0, clusterMap0, clusters, clusterMap, i)
      {
        CapTransaction(i, rate0, clusters0, clusterMap0);
      }
    }

    method CapTransaction(i: nat, ghost rate0: map<Txid, real>, ghost clusters0: seq<Cluster>, ghost clusterMap0: map<Txid, int>)
      requires Valid() && Indexed(clusters0, clusterMap0) && i < |block|
      requires Capped(block, rate, i) && OnlyLowered(rate0, rate) && DecidedUpTo(block, rate0, rate, i)
      requires UntouchedFrom(block, rate0, rate, i)
      requires Forwarded(block, rate0, rate, clusters0, clusterMap0, clusters, clusterMap, i)
      modifies this
      ensures Valid() && Capped(block, rate, i + 1) && OnlyLowered(rate0, rate) && DecidedUpTo(block, rate0, rate, i + 1)
      ensures UntouchedFrom(block, rate0, rate, i + 1)
      ensures Forwarded(block, rate0, rate, clusters0, clusterMap0, clusters, clusterMap, i + 1)
    {
      hide *;
      ValidParts();
      var tx := block[i];
      UntouchedNext(block, rate0, rate, i);
      UntouchedIs(rate0, rate, tx.txid);
      if tx.txid in rate {
        var minAncestorRate := MinAncestorRate(tx);
        CapStep(block, rate0, rate, i, minAncestorRate);
        DecidedStep(block, rate0, rate, i, minAncestorRate);
        RoundedApart(minAncestorRate, rate[tx.txid]);
        CapOneIs(rate, tx.txid, minAncestorRate);
        if Ceil(minAncestorRate) < rate[tx.txid].Floor {
          RoundsDiffer(minAncestorRate, rate[tx.txid]);
          LowerRate(i, minAncestorRate, rate0, clusters0, clusterMap0);
        } else {
          NotDropped(rate0, rate, tx.txid);
          ForwardedKept(block, rate0, rate, clusters0, clusterMap0, clusters, clusterMap, i);
        }
      } else {
        CapSkip(block, rate, i);
        DecidedSkip(block, rate0, rate, i);
        NotDropped(rate0, rate, tx.txid);
        ForwardedKept(block, rate0, rate, clusters0, clusterMap0, clusters, clusterMap, i);
      }
    }

    /** The estimate without relatives. Between the passes the rates are "reversed", and the clusters, those
        of the segments, are "recorded" under "index". */
    method CalculateFastBlockCpfp() returns (ghost segs: seq<Segment>, ghost open: Segment, ghost reversed: map<Txid, real>,
                                             ghost recorded: seq<Cluster>, ghost index: map<Txid, int>)
      requires Valid() && clusters == [] && clusterMap == map[]
      modifies this
      ensures Valid() && OnlyLowered(reversed, rate) && Capped(block, rate, |block|) && DecidedUpTo(block, reversed, rate, |block|)
      ensures block != [] ==> Partition(block, segs + [open], 0) && open.lo == 0 && Rated(block, segs, open.hi, old(rate), reversed)
      ensures Recorded(block, segs, recorded) && Indexed(recorded, index)
      ensures Forwarded(block, reversed, rate, recorded, index, clusters, clusterMap, |block|)
    {
      segs, open, reversed := [], Segment(0, 0), rate;
      if block != [] {
        segs, open := ReversePass();
      }
      reversed, recorded, index := rate, clusters, clusterMap;
      ForwardPass();
    }

    lemma ValidParts()
      requires Valid()
      ensures WellFormed(block) && Indexed(clusters, clusterMap)
    {
    }
  }

  lemma StartReverse(block: seq<Tx>, rate: map<Txid, real>)
    ensures Gathering(block, |block|, |block|, [], {}) && Partition(block, [], |block|) && Rated(block, [], |block|, rate, rate)
    ensures Recorded(block, [], []) && MappedFrom(block, map[], |block|)
  {
  }

  lemma StartForward(block: seq<Tx>, rate: map<Txid, real>, clusters: seq<Cluster>, clusterMap: map<Txid, int>)
    ensures Capped(block, rate, 0) && OnlyLowered(rate, rate) && UntouchedFrom(block, rate, rate, 0) && DecidedUpTo(block, rate, rate, 0)
    ensures Forwarded(block, rate, rate, clusters, clusterMap, clusters, clusterMap, 0)
  {
  }

  lemma RoundsDiffer(x: real, y: real)
    requires Ceil(x) < y.Floor
    ensures x != y
  {
  }

  lemma NotDropped(rate0: map<Txid, real>, rate: map<Txid, real>, x: Txid)
    requires Untouched(rate0, rate, x)
    ensures !Dropped(rate0, rate, x)
  {
  }

  lemma LeastStep(rate: map<Txid, real>, own: real, parents: seq<Txid>, k: nat, m: real)
    requires k < |parents| && LeastRate(rate, own, parents[..k], m)
    ensures LeastRate(rate, own, parents[..k + 1], if parents[k] in rate && rate[parents[k]] != 0.0 then Min(m, rate[parents[k]]) else m)
  {
    var before, after := parents[..k], parents[..k + 1];
    assert forall j :: 0 <= j < k ==> after[j] == before[j];
    assert after[k] == parents[k];
    var m' := if parents[k] in rate && rate[parents[k]] != 0.0 then Min(m, rate[parents[k]]) else m;
    if m' == m && m != own {
      var j :| 0 <= j < k && before[j] in rate && rate[before[j]] == m;
      assert after[j] == before[j];
    }
  }

  /** The transaction still has the rate it had. */
  ghost predicate Untouched(rate0: map<Txid, real>, rate: map<Txid, real>, x: Txid) {
    x in rate0 && x in rate ==> rate[x] == rate0[x]
  }

  lemma UntouchedIs(rate0: map<Txid, real>, rate: map<Txid, real>, x: Txid)
    requires OnlyLowered(rate0, rate)
    ensures rate.Keys == rate0.Keys
    ensures x in rate && Untouched(rate0, rate, x) ==> x in rate0 && rate[x] == rate0[x]
  {
  }

  /** Whoever is not among the first "i" transactions of the block still has the rate it had. */
  ghost predicate UntouchedFrom(block: seq<Tx>, rate0: map<Txid, real>, rate: map<Txid, real>, i: int) {
    forall x :: !InRange(block, x, 0, i) ==> Untouched(rate0, rate, x)
  }

  lemma UntouchedNext(block: seq<Tx>, rate0: map<Txid, real>, rate: map<Txid, real>, i: nat)
    requires WellFormed(block) && i < |block| && UntouchedFrom(block, rate0, rate, i)
    ensures Untouched(rate0, rate, block[i].txid)
  {
    RangeIndex(block, i, 0, i);
    hide InRange, Untouched;
  }

  lemma UntouchedMore(block: seq<Tx>, rate0: map<Txid, real>, rate: map<Txid, real>, i: nat, rate': map<Txid, real>)
    requires i < |block| && UntouchedFrom(block, rate0, rate, i)
    requires rate'.Keys == rate.Keys && forall x :: x in rate && x != block[i].txid ==> rate'[x] == rate[x]
    ensures UntouchedFrom(block, rate0, rate', i + 1)
  {
    forall x | !InRange(block, x, 0, i + 1) ensures Untouched(rate0, rate', x) {
      assert block[i].txid != x;
      assert !InRange(block, x, 0, i);
      assert Untouched(rate0, rate, x);
    }
  }

  /** Now, the rates are those the next transaction is compared with. */
  lemma RatesNow(block: seq<Tx>, rate0: map<Txid, real>, rate: map<Txid, real>, i: nat)
    requires UntouchedFrom(block, rate0, rate, i) && rate.Keys == rate0.Keys
    ensures RatesAt(block, rate0, rate, i) == rate
  {
    hide InRange;
    var now := RatesAt(block, rate0, rate, i);
    forall x | x in rate ensures x in now && now[x] == rate[x] {
      assert !InRange(block, x, 0, i) ==> Untouched(rate0, rate, x);
    }
    assert now.Keys == rate.Keys;
  }

  /** A later change leaves what an earlier transaction was compared with. */
  lemma RatesKept(block: seq<Tx>, rate0: map<Txid, real>, rate: map<Txid, real>, i: nat, rate': map<Txid, real>, j: nat)
    requires WellFormed(block) && j <= i < |block|
    requires rate'.Keys == rate.Keys && forall x :: x in rate && x != block[i].txid ==> rate'[x] == rate[x]
    ensures RatesAt(block, rate0, rate', j) == RatesAt(block, rate0, rate, j)
  {
    RangeIndex(block, i, 0, j);
    hide InRange, WellFormed;
    var a, b := RatesAt(block, rate0, rate, j), RatesAt(block, rate0, rate', j);
    assert a.Keys == b.Keys;
    assert forall x :: x in a ==> a[x] == b[x];
  }

  lemma DecidedKept(block: seq<Tx>, rate0: map<Txid, real>, rate: map<Txid, real>, i: nat, rate': map<Txid, real>, j: nat)
    requires WellFormed(block) && j < i < |block| && Decided(block, rate0, rate, j)
    requires rate'.Keys == rate.Keys && forall x :: x in rate && x != block[i].txid ==> rate'[x] == rate[x]
    ensures Decided(block, rate0, rate', j)
  {
    RatesKept(block, rate0, rate, i, rate', j);
    assert block[j].txid != block[i].txid;
    hide RatesAt, LeastRate, StepAbove, WellFormed;
  }

  lemma DecidedStep(block: seq<Tx>, rate0: map<Txid, real>, rate: map<Txid, real>, i: nat, m: real)
    requires WellFormed(block) && i < |block| && DecidedUpTo(block, rate0, rate, i) && UntouchedFrom(block, rate0, rate, i)
    requires rate.Keys == rate0.Keys && block[i].txid in rate && rate[block[i].txid] == rate0[block[i].txid]
    requires LeastRate(rate, rate[block[i].txid], block[i].vin, m)
    ensures DecidedUpTo(block, rate0, CapOne(rate, block[i].txid, m), i + 1)
    ensures UntouchedFrom(block, rate0, CapOne(rate, block[i].txid, m), i + 1)
  {
    hide *;
    var rate' := CapOne(rate, block[i].txid, m);
    CapOneIs(rate, block[i].txid, m);
    UntouchedMore(block, rate0, rate, i, rate');
    RatesNow(block, rate0, rate, i);
    RatesKept(block, rate0, rate, i, rate', i);
    DecidedNow(block, rate0, rate', i, m);
    DecidedMore(block, rate0, rate, i, rate');
  }

  lemma DecidedNow(block: seq<Tx>, rate0: map<Txid, real>, rate: map<Txid, real>, i: nat, m: real)
    requires i < |block| && block[i].txid in rate && block[i].txid in rate0
    requires LeastRate(RatesAt(block, rate0, rate, i), rate0[block[i].txid], block[i].vin, m)
    requires rate[block[i].txid] == if StepAbove(m, rate0[block[i].txid]) then m else rate0[block[i].txid]
    ensures Decided(block, rate0, rate, i)
  {
    hide RatesAt, LeastRate, StepAbove;
  }

  lemma DecidedMore(block: seq<Tx>, rate0: map<Txid, real>, rate: map<Txid, real>, i: nat, rate': map<Txid, real>)
    requires WellFormed(block) && i < |block| && DecidedUpTo(block, rate0, rate, i) && Decided(block, rate0, rate', i)
    requires rate'.Keys == rate.Keys && forall x :: x in rate && x != block[i].txid ==> rate'[x] == rate[x]
    ensures DecidedUpTo(block, rate0, rate', i + 1)
  {
    hide Decided, WellFormed;
    forall j | 0 <= j < i ensures Decided(block, rate0, rate', j) {
      DecidedKept(block, rate0, rate, i, rate', j);
    }
  }

  /** A transaction without a rate needs no decision. */
  lemma DecidedSkip(block: seq<Tx>, rate0: map<Txid, real>, rate: map<Txid, real>, i: nat)
    requires i < |block| && DecidedUpTo(block, rate0, rate, i) && UntouchedFrom(block, rate0, rate, i) && block[i].txid !in rate
    ensures DecidedUpTo(block, rate0, rate, i + 1) && UntouchedFrom(block, rate0, rate, i + 1)
  {
    UntouchedMore(block, rate0, rate, i, rate);
    assert Decided(block, rate0, rate, i);
    hide Decided, UntouchedFrom;
  }

  lemma CapOneIs(rate: map<Txid, real>, x: Txid, m: real)
    requires x in rate
    ensures CapOne(rate, x, m) == if StepAbove(m, rate[x]) then rate[x := m] else rate
  {
    hide StepAbove;
  }

  lemma GatheringBounds(block: seq<Tx>, lo: int, hi: int, clusterTxs: seq<Tx>, ancestors: set<Txid>)
    requires Gathering(block, lo, hi, clusterTxs, ancestors)
    ensures 0 <= lo <= hi <= |block| && |clusterTxs| == hi - lo
  {
  }

  lemma Closed(block: seq<Tx>, segs: seq<Segment>, lo: int, hi: int, clusterTxs: seq<Tx>, ancestors: set<Txid>, clusters: seq<Cluster>)
    requires Partition(block, segs, hi) && Gathering(block, lo, hi, clusterTxs, ancestors) && 0 < lo < hi && block[lo - 1].txid !in ancestors
    requires Recorded(block, segs, clusters)
    ensures 0 <= lo < hi <= |block| && Partition(block, segs + [Segment(lo, hi)], lo)
    ensures var r, segs' := Rate(FeeOf(block, lo, hi), WeightOf(block, lo, hi)), segs + [Segment(lo, hi)];
      && r == SegmentRate(block, Segment(lo, hi))
      && Recorded(block, segs', clusters + if hi - lo > 1 then [Cluster(block[hi - 1].txid, Members(block, lo, hi), r)] else [])
  {
    hide *;
    CloseSegment(block, segs, lo, hi, clusterTxs, ancestors);
    LastIsCluster(block, segs, lo, hi);
    ClusterBounds(block, Segment(lo, hi));
    RecordedMore(block, segs, lo, hi, clusters);
    RateIs(block, lo, hi);
  }

  lemma RecordedMore(block: seq<Tx>, segs: seq<Segment>, lo: int, hi: int, clusters: seq<Cluster>)
    requires Recorded(block, segs, clusters) && IsCluster(block, Segment(lo, hi)) && 0 <= lo < hi <= |block|
    ensures Recorded(block, segs + [Segment(lo, hi)],
      clusters + if hi - lo > 1 then [Cluster(block[hi - 1].txid, Members(block, lo, hi), SegmentRate(block, Segment(lo, hi)))] else [])
  {
    var segs', s, members := segs + [Segment(lo, hi)], Segment(lo, hi), Members(block, lo, hi);
    assert (forall k :: 0 <= k < |segs| ==> IsCluster(block, segs[k])) && clusters == ClustersOf(block, segs);
    ClusterRecorded(block, segs, lo, hi, members);
    hide IsCluster, SegmentRate, ClustersOf;
    assert members[0] == block[hi - 1].txid;
    assert Recorded(block, segs', ClustersOf(block, segs'));
  }

  lemma LastIsCluster(block: seq<Tx>, segs: seq<Segment>, lo: int, hi: int)
    requires Partition(block, segs + [Segment(lo, hi)], lo)
    ensures IsCluster(block, Segment(lo, hi)) && forall k :: 0 <= k < |segs| ==> IsCluster(block, segs[k])
  {
    var segs' := segs + [Segment(lo, hi)];
    assert segs'[|segs|] == Segment(lo, hi);
    forall k | 0 <= k < |segs| ensures IsCluster(block, segs[k]) {
      assert segs'[k] == segs[k];
    }
    hide IsCluster;
  }

  lemma RateIs(block: seq<Tx>, lo: int, hi: int)
    ensures SegmentRate(block, Segment(lo, hi)) == Rate(FeeOf(block, lo, hi), WeightOf(block, lo, hi))
  {
  }
}
