/** Projected blocks sent as deltas, and the client that replays them. */
module BlockDeltas {
  type Txid = int

  datatype Tx = Tx(txid: Txid, fee: int, vsize: real, value: int, rate: real, flags: int, time: int, acc: bool)

  /** A transaction as it is sent and kept by the client. */
  datatype Compressed = Compressed(txid: Txid, fee: int, vsize: real, value: int, rate: real, flags: int, time: int, acc: bool)

  datatype Change = Change(txid: Txid, rate: real, flags: int, acc: bool)

  datatype Delta = Delta(added: seq<Compressed>, removed: seq<Txid>, changed: seq<Change>)

  // ---------- compression ----------

  function Rounded(x: real): real {
    (x * 100.0 + 0.5).Floor as real / 100.0
  }

  /** The nearest number of hundredths. */
  lemma RoundedNearest(x: real) returns (n: int)
    ensures Rounded(x) == n as real / 100.0 && x - 0.005 < Rounded(x) <= x + 0.005
  {
    n := (x * 100.0 + 0.5).Floor;
  }

  /** The rate, or the fee per vsize if that is 0, to two decimals. */
  function ShownRate(tx: Tx): real {
    Rounded(if tx.rate != 0.0 then tx.rate else if tx.vsize != 0.0 then tx.fee as real / tx.vsize else 0.0)
  }

  function CompressTx(tx: Tx): Compressed {
    Compressed(tx.txid, tx.fee, tx.vsize, tx.value, ShownRate(tx), tx.flags, tx.time, tx.acc)
  }

  function CompressDeltaChange(tx: Tx): Change {
    Change(tx.txid, ShownRate(tx), tx.flags, tx.acc)
  }

  /** What a client is to be shown as the rate: the nearest number of hundredths to the rate, or to the fee per vsize
      if the rate is 0. */
  ghost predicate IsShown(tx: Tx, r: real) {
    exists n: int :: Hundredths(r, n) && Due(tx) - 0.005 < r <= Due(tx) + 0.005
  }

  ghost predicate Hundredths(r: real, n: int) {
    100.0 * r == n as real
  }

  ghost function Due(tx: Tx): real {
    if tx.rate != 0.0 then tx.rate else if tx.vsize != 0.0 then tx.fee as real / tx.vsize else 0.0
  }

  ghost predicate IsCompressed(c: Compressed, tx: Tx) {
    && c.txid == tx.txid && c.fee == tx.fee && c.vsize == tx.vsize && c.value == tx.value && IsShown(tx, c.rate)
    && c.flags == tx.flags && c.time == tx.time && c.acc == tx.acc
  }

  ghost predicate IsChange(v: Change, tx: Tx) {
    v.txid == tx.txid && IsShown(tx, v.rate) && v.flags == tx.flags && v.acc == tx.acc
  }

  lemma OneHundredth(x: real, r: real, n: int)
    requires Hundredths(r, n) && x - 0.005 < r <= x + 0.005
    ensures r == Rounded(x)
  {
    var y := x * 100.0 + 0.5;
    assert n as real <= y < n as real + 1.0;
    FloorIs(y, n);
    assert r == n as real / 100.0;
  }

  lemma FloorIs(y: real, n: int)
    requires n as real <= y < n as real + 1.0
    ensures y.Floor == n
  {
  }

  /** There is one such rate for each transaction. */
  lemma ShownIs(tx: Tx, r: real)
    ensures IsShown(tx, r) <==> r == ShownRate(tx)
  {
    var x := Due(tx);
    assert ShownRate(tx) == Rounded(x);
    var n := RoundedNearest(x);
    hide ShownRate, Due, Rounded;
    assert Hundredths(Rounded(x), n);
    if IsShown(tx, r) {
      var k: int :| Hundredths(r, k) && x - 0.005 < r <= x + 0.005;
      OneHundredth(x, r, k);
    }
  }

  lemma CompressIs(c: Compressed, tx: Tx)
    ensures IsCompressed(c, tx) <==> c == CompressTx(tx)
  {
    ShownIs(tx, c.rate);
    hide ShownRate, IsShown;
  }

  lemma ChangeIs(v: Change, tx: Tx)
    ensures IsChange(v, tx) <==> v == CompressDeltaChange(tx)
  {
    ShownIs(tx, v.rate);
    hide ShownRate, IsShown;
  }

  // ---------- what a delta says ----------

  ghost predicate DistinctIds(block: seq<Tx>) {
    forall i, j :: 0 <= i < j < |block| ==> block[i].txid != block[j].txid
  }

  ghost predicate Listed(block: seq<Tx>, x: Txid) {
    exists i :: 0 <= i < |block| && block[i].txid == x
  }

  /** The transaction differs from the earlier one in what deltas track. */
  ghost predicate Differs(tx: Tx, prev: Tx) {
    tx.rate != prev.rate || tx.acc != prev.acc
  }

  /** Exactly the new transactions are added, the gone ones removed, and those with a new rate or acceleration flag changed. */
  ghost predicate IsDelta(prev: seq<Tx>, cur: seq<Tx>, d: Delta) {
    && (forall c :: c in d.added <==> exists i :: 0 <= i < |cur| && IsCompressed(c, cur[i]) && !Listed(prev, cur[i].txid))
    && (forall x :: x in d.removed <==> Listed(prev, x) && !Listed(cur, x))
    && (forall c :: c in d.changed <==>
          exists i, j :: 0 <= i < |cur| && 0 <= j < |prev| && cur[i].txid == prev[j].txid && Differs(cur[i], prev[j]) && IsChange(c, cur[i]))
  }

  /** A block that is not there is an empty one. */
  ghost function BlockAt(blocks: seq<seq<Tx>>, i: nat): seq<Tx> {
    if i < |blocks| then blocks[i] else []
  }

  // ---------- calculating the deltas ----------

  /** What the three lists hold after the first "n" transactions of the respective block. */
  ghost predicate AddedUpTo(prev: seq<Tx>, cur: seq<Tx>, n: int, added: seq<Tx>) {
    forall tx :: tx in added <==> exists i :: 0 <= i < n && i < |cur| && tx == cur[i] && !Listed(prev, cur[i].txid)
  }

  ghost predicate ChangedUpTo(prev: seq<Tx>, cur: seq<Tx>, n: int, changed: seq<Tx>) {
    forall tx :: tx in changed <==>
      exists i, j :: 0 <= i < n && i < |cur| && 0 <= j < |prev| && cur[i].txid == prev[j].txid && Differs(cur[i], prev[j]) && tx == cur[i]
  }

  ghost predicate RemovedUpTo(prev: seq<Tx>, cur: seq<Tx>, n: int, removed: seq<Txid>) {
    forall x :: x in removed <==> exists i :: 0 <= i < n && i < |prev| && prev[i].txid == x && !Listed(cur, x)
  }

  /** The lookup by identifier: "m" holds the transactions of the block. */
  ghost predicate ById(m: map<Txid, Tx>, block: seq<Tx>, n: int) {
    && (forall x :: x in m <==> exists i :: 0 <= i < n && i < |block| && block[i].txid == x)
    && forall i :: 0 <= i < n && i < |block| ==> block[i].txid in m && m[block[i].txid] == block[i]
  }

  lemma ByIdStep(m: map<Txid, Tx>, block: seq<Tx>, n: nat)
    requires DistinctIds(block) && ById(m, block, n) && n < |block|
    ensures ById(m[block[n].txid := block[n]], block, n + 1)
  {
  }

  method Index(block: seq<Tx>) returns (m: map<Txid, Tx>)
    requires DistinctIds(block)
    ensures ById(m, block, |block|)
  {
    m := map[];
    for i := 0 to |block|
      invariant ById(m, block, i)
    {
      ByIdStep(m, block, i);
      m := m[block[i].txid := block[i]];
    }
  }

  lemma ByIdListed(m: map<Txid, Tx>, block: seq<Tx>, x: Txid)
    requires ById(m, block, |block|)
    ensures x in m <==> Listed(block, x)
  {
  }

  lemma RemovedStep(prev: seq<Tx>, cur: seq<Tx>, n: nat, removed: seq<Txid>)
    requires RemovedUpTo(prev, cur, n, removed) && n < |prev|
    ensures RemovedUpTo(prev, cur, n + 1, removed + if Listed(cur, prev[n].txid) then [] else [prev[n].txid])
  {
    hide Listed;
    var removed' := removed + if Listed(cur, prev[n].txid) then [] else [prev[n].txid];
    forall x ensures x in removed' <==> exists i :: 0 <= i < n + 1 && i < |prev| && prev[i].txid == x && !Listed(cur, x) {
      assert x in removed' <==> x in removed || (x == prev[n].txid && !Listed(cur, x));
    }
  }

  lemma AddedStep(prev: seq<Tx>, cur: seq<Tx>, n: nat, added: seq<Tx>)
    requires AddedUpTo(prev, cur, n, added) && n < |cur|
    ensures AddedUpTo(prev, cur, n + 1, added + if Listed(prev, cur[n].txid) then [] else [cur[n]])
  {
    hide Listed;
    var added' := added + if Listed(prev, cur[n].txid) then [] else [cur[n]];
    forall tx ensures tx in added' <==> exists i :: 0 <= i < n + 1 && i < |cur| && tx == cur[i] && !Listed(prev, cur[i].txid) {
      assert tx in added' <==> tx in added || (tx == cur[n] && !Listed(prev, tx.txid));
    }
  }

  /** Some earlier transaction with the same identifier differs. */
  ghost predicate Changes(prev: seq<Tx>, tx: Tx) {
    exists j :: 0 <= j < |prev| && tx.txid == prev[j].txid && Differs(tx, prev[j])
  }

  lemma ChangedStep(prev: seq<Tx>, cur: seq<Tx>, n: nat, changed: seq<Tx>)
    requires ChangedUpTo(prev, cur, n, changed) && n < |cur|
    ensures ChangedUpTo(prev, cur, n + 1, changed + if Changes(prev, cur[n]) then [cur[n]] else [])
  {
    var changed' := changed + if Changes(prev, cur[n]) then [cur[n]] else [];
    forall tx ensures tx in changed' <==>
      exists i, j :: 0 <= i < n + 1 && i < |cur| && 0 <= j < |prev| && cur[i].txid == prev[j].txid && Differs(cur[i], prev[j]) && tx == cur[i]
    {
      assert tx in changed' <==> tx in changed || (tx == cur[n] && Changes(prev, tx));
    }
  }

  lemma ChangesById(m: map<Txid, Tx>, prev: seq<Tx>, tx: Tx)
    requires ById(m, prev, |prev|)
    ensures Changes(prev, tx) <==> tx.txid in m && Differs(tx, m[tx.txid])
  {
    hide Differs;
    if tx.txid in m {
      var j :| 0 <= j < |prev| && prev[j].txid == tx.txid;
      assert m[tx.txid] == prev[j];
    }
  }

  method FindRemoved(prev: seq<Tx>, cur: seq<Tx>, newIds: map<Txid, Tx>) returns (removed: seq<Txid>)
    requires ById(newIds, cur, |cur|)
    ensures RemovedUpTo(prev, cur, |prev|, removed)
  {
    hide *;
    removed := [];
    NothingYet(prev, cur);
    for i := 0 to |prev|
      invariant RemovedUpTo(prev, cur, i, removed)
    {
      RemovedStep(prev, cur, i, removed);
      ByIdListed(newIds, cur, prev[i].txid);
      if prev[i].txid !in newIds {
        removed := removed + [prev[i].txid];
      } else {
        NothingAppended(removed);
      }
    }
  }

  method FindAddedAndChanged(prev: seq<Tx>, cur: seq<Tx>, prevIds: map<Txid, Tx>) returns (added: seq<Tx>, changed: seq<Tx>)
    requires ById(prevIds, prev, |prev|)
    ensures AddedUpTo(prev, cur, |cur|, added) && ChangedUpTo(prev, cur, |cur|, changed)
  {
    hide *;
    added, changed := [], [];
    NothingYet(prev, cur);
    for i := 0 to |cur|
      invariant AddedUpTo(prev, cur, i, added) && ChangedUpTo(prev, cur, i, changed)
    {
      var tx := cur[i];
      AddedStep(prev, cur, i, added);
      ChangedStep(prev, cur, i, changed);
      ByIdListed(prevIds, prev, tx.txid);
      ChangesById(prevIds, prev, tx);
      DiffersIs(prevIds, tx);
      NothingAppended(added);
      NothingAppended(changed);
      if tx.txid !in prevIds {
        added := added + [tx];
      } else if tx.rate != prevIds[tx.txid].rate || tx.acc != prevIds[tx.txid].acc {
        changed := changed + [tx];
      }
    }
  }

  lemma DiffersIs(m: map<Txid, Tx>, tx: Tx)
    ensures tx.txid in m ==> Differs(tx, m[tx.txid]) == (tx.rate != m[tx.txid].rate || tx.acc != m[tx.txid].acc)
  {
  }

  lemma NothingYet(prev: seq<Tx>, cur: seq<Tx>)
    ensures RemovedUpTo(prev, cur, 0, []) && AddedUpTo(prev, cur, 0, []) && ChangedUpTo(prev, cur, 0, [])
  {
  }

  lemma NothingAppended<T>(s: seq<T>)
    ensures s + [] == s
  {
  }

  function CompressAll(txs: seq<Tx>): (r: seq<Compressed>)
    ensures |r| == |txs| && forall i :: 0 <= i < |txs| ==> r[i] == CompressTx(txs[i])
  {
    seq(|txs|, i requires 0 <= i < |txs| => CompressTx(txs[i]))
  }

  function CompressChanges(txs: seq<Tx>): (r: seq<Change>)
    ensures |r| == |txs| && forall i :: 0 <= i < |txs| ==> r[i] == CompressDeltaChange(txs[i])
  {
    seq(|txs|, i requires 0 <= i < |txs| => CompressDeltaChange(txs[i]))
  }

  lemma DeltaFound(prev: seq<Tx>, cur: seq<Tx>, added: seq<Tx>, removed: seq<Txid>, changed: seq<Tx>)
    requires AddedUpTo(prev, cur, |cur|, added) && RemovedUpTo(prev, cur, |prev|, removed) && ChangedUpTo(prev, cur, |cur|, changed)
    ensures IsDelta(prev, cur, Delta(CompressAll(added), removed, CompressChanges(changed)))
  {
    AddedCompressed(prev, cur, added);
    ChangedCompressed(prev, cur, changed);
    forall x ensures x in removed <==> Listed(prev, x) && !Listed(cur, x) {
    }
    hide CompressTx, CompressDeltaChange, Differs, IsCompressed, IsChange;
  }

  lemma AddedCompressed(prev: seq<Tx>, cur: seq<Tx>, added: seq<Tx>)
    requires AddedUpTo(prev, cur, |cur|, added)
    ensures forall c :: c in CompressAll(added) <==> exists i :: 0 <= i < |cur| && IsCompressed(c, cur[i]) && !Listed(prev, cur[i].txid)
  {
    hide Listed, CompressTx, IsCompressed;
    forall c ensures c in CompressAll(added) <==> exists i :: 0 <= i < |cur| && IsCompressed(c, cur[i]) && !Listed(prev, cur[i].txid) {
      if c in CompressAll(added) {
        var k :| 0 <= k < |added| && CompressAll(added)[k] == c;
        assert added[k] in added;
        CompressIs(c, added[k]);
      }
      if i :| 0 <= i < |cur| && IsCompressed(c, cur[i]) && !Listed(prev, cur[i].txid) {
        assert cur[i] in added;
        CompressIs(c, cur[i]);
        var k :| 0 <= k < |added| && added[k] == cur[i];
        assert CompressAll(added)[k] == c;
      }
    }
  }

  lemma ChangedCompressed(prev: seq<Tx>, cur: seq<Tx>, changed: seq<Tx>)
    requires ChangedUpTo(prev, cur, |cur|, changed)
    ensures forall c :: c in CompressChanges(changed) <==>
      exists i, j :: 0 <= i < |cur| && 0 <= j < |prev| && cur[i].txid == prev[j].txid && Differs(cur[i], prev[j]) && IsChange(c, cur[i])
  {
    hide Differs, CompressDeltaChange, IsChange;
    forall c ensures c in CompressChanges(changed) <==>
      exists i, j :: 0 <= i < |cur| && 0 <= j < |prev| && cur[i].txid == prev[j].txid && Differs(cur[i], prev[j]) && IsChange(c, cur[i])
    {
      if c in CompressChanges(changed) {
        var k :| 0 <= k < |changed| && CompressChanges(changed)[k] == c;
        assert changed[k] in changed;
        ChangeIs(c, changed[k]);
      }
      if i, j :| 0 <= i < |cur| && 0 <= j < |prev| && cur[i].txid == prev[j].txid && Differs(cur[i], prev[j]) && IsChange(c, cur[i]) {
        ChangeIs(c, cur[i]);
        assert cur[i] in changed;
        var k :| 0 <= k < |changed| && changed[k] == cur[i];
        assert CompressChanges(changed)[k] == c;
      }
    }
  }

  /** One block's delta; a block only one of the two sides has is all new, or all gone. */
  method BlockDelta(prevBlocks: seq<seq<Tx>>, mempoolBlocks: seq<seq<Tx>>, i: nat) returns (d: Delta)
    requires i < |prevBlocks| || i < |mempoolBlocks|
    requires DistinctIds(BlockAt(prevBlocks, i)) && DistinctIds(BlockAt(mempoolBlocks, i))
    ensures IsDelta(BlockAt(prevBlocks, i), BlockAt(mempoolBlocks, i), d)
  {
    ghost var prev, cur := BlockAt(prevBlocks, i), BlockAt(mempoolBlocks, i);
    var added, removed, changed: seq<Tx> := [], [], [];
    if i >= |prevBlocks| {
      added := mempoolBlocks[i];
    } else if i >= |mempoolBlocks| {
      removed := seq(|prevBlocks[i]|, k requires 0 <= k < |prevBlocks[i]| => prevBlocks[i][k].txid);
      assert forall k :: 0 <= k < |prev| ==> removed[k] == prev[k].txid;
    } else {
      var prevIds := Index(prevBlocks[i]);
      var newIds := Index(mempoolBlocks[i]);
      removed := FindRemoved(prevBlocks[i], mempoolBlocks[i], newIds);
      added, changed := FindAddedAndChanged(prevBlocks[i], mempoolBlocks[i], prevIds);
    }
    assert AddedUpTo(prev, cur, |cur|, added);
    hide CompressAll, CompressChanges, Differs, DistinctIds, IsDelta, BlockAt;
    DeltaFound(prev, cur, added, removed, changed);
    d := Delta(CompressAll(added), removed, CompressChanges(changed));
  }

  method CalculateMempoolDeltas(prevBlocks: seq<seq<Tx>>, mempoolBlocks: seq<seq<Tx>>) returns (deltas: seq<Delta>)
    requires forall i: nat :: DistinctIds(BlockAt(prevBlocks, i)) && DistinctIds(BlockAt(mempoolBlocks, i))
    ensures |deltas| == if |mempoolBlocks| > |prevBlocks| then |mempoolBlocks| else |prevBlocks|
    ensures forall i: nat :: i < |deltas| ==> IsDelta(BlockAt(prevBlocks, i), BlockAt(mempoolBlocks, i), deltas[i])
  {
    hide IsDelta, DistinctIds;
    deltas := [];
    var n := if |mempoolBlocks| > |prevBlocks| then |mempoolBlocks| else |prevBlocks|;
    for i := 0 to n
      invariant |deltas| == i
      invariant forall k: nat :: k < i ==> IsDelta(BlockAt(prevBlocks, k), BlockAt(mempoolBlocks, k), deltas[k])
    {
      var d := BlockDelta(prevBlocks, mempoolBlocks, i);
      deltas := deltas + [d];
    }
  }

  // ---------- the client ----------

  ghost function PutAll(m: map<Txid, Compressed>, added: seq<Compressed>): map<Txid, Compressed> {
    if added == [] then m else
    var c := added[|added| - 1];
    PutAll(m, added[..|added| - 1])[c.txid := c]
  }

  ghost function Patch(m: map<Txid, Compressed>, c: Change): map<Txid, Compressed> {
    if c.txid in m then m[c.txid := m[c.txid].(rate := c.rate, acc := c.acc)] else m
  }

  ghost function PatchAll(m: map<Txid, Compressed>, changed: seq<Change>): map<Txid, Compressed> {
    if changed == [] then m else Patch(PatchAll(m, changed[..|changed| - 1]), changed[|changed| - 1])
  }

  ghost function DropAll(m: map<Txid, Compressed>, removed: seq<Txid>): map<Txid, Compressed> {
    map x | x in m && x !in removed :: m[x]
  }

  ghost function Applied(m: map<Txid, Compressed>, d: Delta): map<Txid, Compressed> {
    PatchAll(DropAll(PutAll(m, d.added), d.removed), d.changed)
  }

  /** The client has the block's transactions and no others, with their acceleration flags. */
  ghost predicate Lists(m: map<Txid, Compressed>, block: seq<Tx>) {
    && (forall x :: x in m <==> Listed(block, x))
    && forall i :: 0 <= i < |block| ==> Knows(m, block[i])
  }

  ghost predicate Knows(m: map<Txid, Compressed>, tx: Tx) {
    tx.txid in m && m[tx.txid].txid == tx.txid && m[tx.txid].acc == tx.acc
  }

  /** It has their rates... */
  ghost predicate Rates(m: map<Txid, Compressed>, block: seq<Tx>) {
    forall i :: 0 <= i < |block| ==> block[i].txid in m && IsShown(block[i], m[block[i].txid].rate)
  }

  /** ...and everything else but the flags, which may be those a transaction was added with. */
  ghost predicate Details(m: map<Txid, Compressed>, block: seq<Tx>) {
    forall i :: 0 <= i < |block| ==> block[i].txid in m && HasDetails(m[block[i].txid], block[i])
  }

  ghost predicate HasDetails(c: Compressed, tx: Tx) {
    c.fee == tx.fee && c.vsize == tx.vsize && c.value == tx.value && c.time == tx.time
  }

  ghost predicate Shows(m: map<Txid, Compressed>, block: seq<Tx>) {
    Lists(m, block) && Rates(m, block) && Details(m, block)
  }

  /** A transaction that stays and does not differ in what deltas track also has the same shown rate. With a rate that is
      not 0 it has. */
  ghost predicate SameShownRates(prev: seq<Tx>, cur: seq<Tx>) {
    forall i, j :: 0 <= i < |cur| && 0 <= j < |prev| && cur[i].txid == prev[j].txid && !Differs(cur[i], prev[j]) ==>
      exists r :: IsShown(cur[i], r) && IsShown(prev[j], r)
  }

  lemma SameShown(a: Tx, b: Tx)
    ensures (exists r :: IsShown(a, r) && IsShown(b, r)) <==> ShownRate(a) == ShownRate(b)
  {
    ShownIs(a, ShownRate(a));
    ShownIs(b, ShownRate(a));
    if r :| IsShown(a, r) && IsShown(b, r) {
      ShownIs(a, r);
      ShownIs(b, r);
    }
    hide IsShown, ShownRate;
  }

  /** A transaction that stays keeps its fee, vsize, value and time. */
  ghost predicate SameDetails(prev: seq<Tx>, cur: seq<Tx>) {
    forall i, j :: 0 <= i < |cur| && 0 <= j < |prev| && cur[i].txid == prev[j].txid ==>
      cur[i].fee == prev[j].fee && cur[i].vsize == prev[j].vsize && cur[i].value == prev[j].value && cur[i].time == prev[j].time
  }

  lemma NonZeroRates(prev: seq<Tx>, cur: seq<Tx>)
    requires SameDetails(prev, cur) || forall i :: 0 <= i < |cur| ==> cur[i].rate != 0.0
    ensures SameShownRates(prev, cur)
  {
    forall i, j | 0 <= i < |cur| && 0 <= j < |prev| && cur[i].txid == prev[j].txid && !Differs(cur[i], prev[j])
      ensures exists r :: IsShown(cur[i], r) && IsShown(prev[j], r)
    {
      assert cur[i].rate == prev[j].rate;
      assert ShownRate(cur[i]) == ShownRate(prev[j]);
      SameShown(cur[i], prev[j]);
    }
    hide IsShown, ShownRate;
  }

  lemma {:induction false} PutAt(m: map<Txid, Compressed>, added: seq<Compressed>, x: Txid, v: Compressed)
    requires forall c :: c in added && c.txid == x ==> c == v
    ensures v in added && v.txid == x ==> x in PutAll(m, added) && PutAll(m, added)[x] == v
    ensures !(v in added && v.txid == x) ==> (x in PutAll(m, added) <==> x in m) && (x in m ==> PutAll(m, added)[x] == m[x])
  {
    if added != [] {
      var n := |added| - 1;
      assert added == added[..n] + [added[n]];
      PutAt(m, added[..n], x, v);
    }
  }

  lemma {:induction false} PatchAt(m: map<Txid, Compressed>, changed: seq<Change>, x: Txid, v: Change)
    requires forall c :: c in changed && c.txid == x ==> c == v
    ensures PatchAll(m, changed).Keys == m.Keys
    ensures x in m ==> PatchAll(m, changed)[x] == if v in changed && v.txid == x then m[x].(rate := v.rate, acc := v.acc) else m[x]
  {
    if changed != [] {
      var n := |changed| - 1;
      assert changed == changed[..n] + [changed[n]];
      PatchAt(m, changed[..n], x, v);
    }
  }

  /** What is added is what is new to the block, as it is. */
  lemma AddedAt(prev: seq<Tx>, cur: seq<Tx>, d: Delta, i: nat)
    requires IsDelta(prev, cur, d) && DistinctIds(cur) && i < |cur| && !Listed(prev, cur[i].txid)
    ensures CompressTx(cur[i]) in d.added && cur[i].txid !in d.removed
    ensures forall c :: c in d.added && c.txid == cur[i].txid ==> c == CompressTx(cur[i])
  {
    CompressIs(CompressTx(cur[i]), cur[i]);
    hide Listed, CompressTx;
    forall c | c in d.added && c.txid == cur[i].txid ensures c == CompressTx(cur[i]) {
      var k :| 0 <= k < |cur| && IsCompressed(c, cur[k]) && !Listed(prev, cur[k].txid);
      assert k == i;
      CompressIs(c, cur[i]);
    }
  }

  lemma AddedIsNew(prev: seq<Tx>, cur: seq<Tx>, d: Delta, c: Compressed)
    requires IsDelta(prev, cur, d) && c in d.added
    ensures Listed(cur, c.txid) && !Listed(prev, c.txid)
  {
    hide IsShown;
    var k :| 0 <= k < |cur| && IsCompressed(c, cur[k]) && !Listed(prev, cur[k].txid);
    assert cur[k].txid == c.txid;
  }

  /** A transaction that is new to the block. */
  lemma NewAt(m: map<Txid, Compressed>, prev: seq<Tx>, cur: seq<Tx>, d: Delta, i: nat)
    requires IsDelta(prev, cur, d) && DistinctIds(cur) && i < |cur| && !Listed(prev, cur[i].txid)
    ensures cur[i].txid in Applied(m, d) && Applied(m, d)[cur[i].txid] == CompressTx(cur[i])
  {
    var x, c := cur[i].txid, CompressTx(cur[i]);
    AddedAt(prev, cur, d, i);
    PutAt(m, d.added, x, c);
    var v := CompressDeltaChange(cur[i]);
    forall v' | v' in d.changed ensures v'.txid != x {
      ChangedWasThere(prev, cur, d, v');
    }
    PatchAt(DropAll(PutAll(m, d.added), d.removed), d.changed, x, v);
    hide PutAll, PatchAll, ShownRate, IsDelta;
  }

  lemma ChangedWasThere(prev: seq<Tx>, cur: seq<Tx>, d: Delta, v: Change)
    requires IsDelta(prev, cur, d) && v in d.changed
    ensures Listed(prev, v.txid)
  {
    hide IsShown, Differs;
  }

  lemma OneChange(prev: seq<Tx>, cur: seq<Tx>, d: Delta, i: nat, j: nat)
    requires IsDelta(prev, cur, d) && DistinctIds(cur) && DistinctIds(prev) && i < |cur| && j < |prev| && cur[i].txid == prev[j].txid
    ensures forall v :: v in d.changed && v.txid == cur[i].txid ==> v == CompressDeltaChange(cur[i])
    ensures CompressDeltaChange(cur[i]) in d.changed <==> Differs(cur[i], prev[j])
  {
    ChangeIs(CompressDeltaChange(cur[i]), cur[i]);
    hide IsShown, Listed, Differs, CompressDeltaChange;
    forall v | v in d.changed && v.txid == cur[i].txid ensures v == CompressDeltaChange(cur[i]) && Differs(cur[i], prev[j]) {
      var k, l :| 0 <= k < |cur| && 0 <= l < |prev| && cur[k].txid == prev[l].txid && Differs(cur[k], prev[l]) && IsChange(v, cur[k]);
      assert k == i && l == j;
      ChangeIs(v, cur[i]);
    }
    assert IsChange(CompressDeltaChange(cur[i]), cur[i]);
  }

  /** A transaction that was in the block before: the client's entry is patched exactly if it differs. */
  lemma OldAt(m: map<Txid, Compressed>, prev: seq<Tx>, cur: seq<Tx>, d: Delta, i: nat, j: nat)
    requires i < |cur| && j < |prev| && cur[i].txid == prev[j].txid && cur[i].txid in m
    requires IsDelta(prev, cur, d) && DistinctIds(cur) && DistinctIds(prev)
    ensures var x := cur[i].txid;
      && x in Applied(m, d)
      && Applied(m, d)[x] == if Differs(cur[i], prev[j]) then m[x].(rate := ShownRate(cur[i]), acc := cur[i].acc) else m[x]
  {
    var x, v := cur[i].txid, CompressDeltaChange(cur[i]);
    assert Listed(prev, x) && Listed(cur, x) && x !in d.removed;
    forall c | c in d.added ensures c.txid != x {
      AddedIsNew(prev, cur, d, c);
    }
    PutAt(m, d.added, x, m[x]);
    OneChange(prev, cur, d, i, j);
    PatchAt(DropAll(PutAll(m, d.added), d.removed), d.changed, x, v);
    hide PutAll, PatchAll, ShownRate, IsDelta;
  }

  /** After the delta, the client has the current block's transactions and no others. */
  lemma KeysShown(m: map<Txid, Compressed>, prev: seq<Tx>, cur: seq<Tx>, d: Delta, x: Txid)
    requires IsDelta(prev, cur, d) && (x in m <==> Listed(prev, x)) && x in Applied(m, d)
    ensures Listed(cur, x)
  {
    PatchKeys(DropAll(PutAll(m, d.added), d.removed), d.changed);
    PutKeys(m, d.added, x);
    if x in m {
      assert x !in d.removed;
    } else {
      var c :| c in d.added && c.txid == x;
      AddedIsNew(prev, cur, d, c);
    }
    hide PutAll, PatchAll, ShownRate, IsDelta;
  }

  lemma {:induction false} PatchKeys(m: map<Txid, Compressed>, changed: seq<Change>)
    ensures PatchAll(m, changed).Keys == m.Keys
  {
    if changed != [] { PatchKeys(m, changed[..|changed| - 1]); }
  }

  lemma {:induction false} PutKeys(m: map<Txid, Compressed>, added: seq<Compressed>, x: Txid)
    ensures x in PutAll(m, added) <==> x in m || exists c :: c in added && c.txid == x
  {
    if added != [] {
      var n := |added| - 1;
      assert added == added[..n] + [added[n]];
      PutKeys(m, added[..n], x);
      assert added[n] in added;
    }
  }

  /** A delta takes a client that lists the previous block to one that lists the current one, whatever has changed. */
  lemma DeltaLists(m: map<Txid, Compressed>, prev: seq<Tx>, cur: seq<Tx>, d: Delta)
    requires Lists(m, prev) && IsDelta(prev, cur, d) && DistinctIds(prev) && DistinctIds(cur)
    ensures Lists(Applied(m, d), cur)
  {
    hide Applied, IsDelta, DistinctIds, ShownRate;
    forall i | 0 <= i < |cur| ensures Knows(Applied(m, d), cur[i]) {
      if Listed(prev, cur[i].txid) {
        var j :| 0 <= j < |prev| && prev[j].txid == cur[i].txid;
        assert Knows(m, prev[j]);
        OldAt(m, prev, cur, d, i, j);
      } else {
        NewAt(m, prev, cur, d, i);
      }
    }
    forall x ensures x in Applied(m, d) <==> Listed(cur, x) {
      if x in Applied(m, d) {
        KeysShown(m, prev, cur, d, x);
      }
      if Listed(cur, x) {
        var i :| 0 <= i < |cur| && cur[i].txid == x;
        assert Knows(Applied(m, d), cur[i]);
      }
    }
  }

  /** Its rates are right again if and only if no shown rate changed behind an unchanged rate. */
  lemma DeltaRates(m: map<Txid, Compressed>, prev: seq<Tx>, cur: seq<Tx>, d: Delta)
    requires Rates(m, prev) && IsDelta(prev, cur, d) && DistinctIds(prev) && DistinctIds(cur)
    ensures Rates(Applied(m, d), cur) <==> SameShownRates(prev, cur)
  {
    hide Applied, IsDelta, DistinctIds, ShownRate, IsShown, Differs;
    forall i, j | 0 <= i < |cur| && 0 <= j < |prev| && cur[i].txid == prev[j].txid
      ensures cur[i].txid in Applied(m, d)
      ensures IsShown(cur[i], Applied(m, d)[cur[i].txid].rate) <==> Differs(cur[i], prev[j]) || exists r :: IsShown(cur[i], r) && IsShown(prev[j], r)
    {
      OldAt(m, prev, cur, d, i, j);
      SameShown(cur[i], prev[j]);
      ShownIs(cur[i], Applied(m, d)[cur[i].txid].rate);
      ShownIs(prev[j], m[cur[i].txid].rate);
    }
    forall i | 0 <= i < |cur| && !Listed(prev, cur[i].txid)
      ensures cur[i].txid in Applied(m, d) && IsShown(cur[i], Applied(m, d)[cur[i].txid].rate)
    {
      NewAt(m, prev, cur, d, i);
      ShownIs(cur[i], ShownRate(cur[i]));
    }
  }

  /** The rest is right again if and only if it has not changed in a transaction that stays. */
  lemma DeltaDetails(m: map<Txid, Compressed>, prev: seq<Tx>, cur: seq<Tx>, d: Delta)
    requires Details(m, prev) && IsDelta(prev, cur, d) && DistinctIds(prev) && DistinctIds(cur)
    ensures Details(Applied(m, d), cur) <==> SameDetails(prev, cur)
  {
    hide Applied, IsDelta, DistinctIds, ShownRate, Differs;
    forall i, j | 0 <= i < |cur| && 0 <= j < |prev| && cur[i].txid == prev[j].txid
      ensures cur[i].txid in Applied(m, d) && HasDetails(Applied(m, d)[cur[i].txid], cur[i]) <==> HasDetails(m[cur[i].txid], cur[i])
    {
      OldAt(m, prev, cur, d, i, j);
    }
    forall i | 0 <= i < |cur| && !Listed(prev, cur[i].txid)
      ensures cur[i].txid in Applied(m, d) && HasDetails(Applied(m, d)[cur[i].txid], cur[i])
    {
      NewAt(m, prev, cur, d, i);
    }
  }

  /** A delta takes a client that shows the previous block to one that shows the current one if and only if no transaction
      that stays has changed in what deltas do not track. */
  lemma DeltaShows(m: map<Txid, Compressed>, prev: seq<Tx>, cur: seq<Tx>, d: Delta)
    requires Shows(m, prev) && IsDelta(prev, cur, d) && DistinctIds(prev) && DistinctIds(cur)
    ensures Shows(Applied(m, d), cur) <==> SameDetails(prev, cur)
  {
    DeltaLists(m, prev, cur, d);
    DeltaRates(m, prev, cur, d);
    DeltaDetails(m, prev, cur, d);
    if SameDetails(prev, cur) { NonZeroRates(prev, cur); }
    hide Lists, Rates, Details, SameDetails, SameShownRates;
  }

  // ---------- whole runs ----------

  /** "deltas" lead from one set of projected blocks to the next. */
  ghost predicate Leads(prev: seq<seq<Tx>>, cur: seq<seq<Tx>>, deltas: seq<Delta>) {
    && |deltas| == (if |cur| > |prev| then |cur| else |prev|)
    && forall i: nat :: i < |deltas| ==> IsDelta(BlockAt(prev, i), BlockAt(cur, i), deltas[i])
  }

  /** The client that tracks block "i" from its state "m" through a run of updates. */
  ghost function Replay(m: map<Txid, Compressed>, run: seq<seq<Delta>>, i: nat): map<Txid, Compressed> {
    if run == [] then m else
    var before, last := Replay(m, run[..|run| - 1], i), run[|run| - 1];
    if i < |last| then Applied(before, last[i]) else before
  }

  /** Neither the shown rates nor the rest change from step to step in what deltas do not track. */
  ghost predicate RatesKept(history: seq<seq<seq<Tx>>>, i: nat) {
    forall s, t :: 0 <= s < t < |history| && t == s + 1 ==> SameShownRates(BlockAt(history[s], i), BlockAt(history[t], i))
  }

  ghost predicate DetailsKept(history: seq<seq<seq<Tx>>>, i: nat) {
    forall s, t :: 0 <= s < t < |history| && t == s + 1 ==> SameDetails(BlockAt(history[s], i), BlockAt(history[t], i))
  }

  ghost predicate Told(history: seq<seq<seq<Tx>>>, run: seq<seq<Delta>>, i: nat) {
    && |history| == |run| + 1 && (forall t :: 0 <= t < |history| ==> DistinctIds(BlockAt(history[t], i)))
    && forall s, t :: 0 <= s < t < |history| && t == s + 1 ==> Leads(history[s], history[t], run[s])
  }

  lemma LastStep(history: seq<seq<seq<Tx>>>, run: seq<seq<Delta>>, i: nat)
    requires Told(history, run, i) && run != []
    ensures var n := |run| - 1;
      && Told(history[..n + 1], run[..n], i) && history[..n + 1][n] == history[n] && Leads(history[n], history[n + 1], run[n])
      && DistinctIds(BlockAt(history[n], i)) && DistinctIds(BlockAt(history[n + 1], i))
    ensures RatesKept(history, i) ==> RatesKept(history[..|run|], i) && SameShownRates(BlockAt(history[|run| - 1], i), BlockAt(history[|run|], i))
    ensures DetailsKept(history, i) ==> DetailsKept(history[..|run|], i) && SameDetails(BlockAt(history[|run| - 1], i), BlockAt(history[|run|], i))
  {
    hide Leads, SameShownRates, SameDetails, DistinctIds, BlockAt;
    var s, t := |run| - 1, |run|;
    assert Leads(history[s], history[t], run[s]);
  }

  /** After any run of updates the client lists the current block, whether it appeared, vanished or changed on the way; and
      it has the rates and the rest if they never changed unnoticed. */
  lemma {:induction false} ReplayShows(m: map<Txid, Compressed>, history: seq<seq<seq<Tx>>>, run: seq<seq<Delta>>, i: nat)
    requires Told(history, run, i) && Shows(m, BlockAt(history[0], i))
    ensures var shown, block := Replay(m, run, i), BlockAt(history[|run|], i);
      && Lists(shown, block) && (RatesKept(history, i) ==> Rates(shown, block)) && (DetailsKept(history, i) ==> Details(shown, block))
  {
    hide Applied, IsDelta, DistinctIds, Lists, Rates, Details, SameShownRates, SameDetails, RatesKept, DetailsKept, Told;
    assert |history| == |run| + 1 by { Lengths(history, run, i); }
    if run != [] {
      var n := |run| - 1;
      LastStep(history, run, i);
      ReplayShows(m, history[..n + 1], run[..n], i);
      var before, prev, cur := Replay(m, run[..n], i), BlockAt(history[n], i), BlockAt(history[n + 1], i);
      if i < |run[n]| {
        DeltaLists(before, prev, cur, run[n][i]);
        if RatesKept(history, i) { DeltaRates(before, prev, cur, run[n][i]); }
        if DetailsKept(history, i) { DeltaDetails(before, prev, cur, run[n][i]); }
      }
    }
  }

  lemma Lengths(history: seq<seq<seq<Tx>>>, run: seq<seq<Delta>>, i: nat)
    requires Told(history, run, i)
    ensures |history| == |run| + 1
  {
  }

  class Client {
    var transactions: map<Txid, Compressed>

    /** The full list that is sent when tracking starts. */
    constructor (sent: seq<Compressed>)
      ensures transactions == PutAll(map[], sent)
    {
      transactions := map[];
      new;
      Put(sent);
    }

    method Put(added: seq<Compressed>)
      modifies this
      ensures transactions == PutAll(old(transactions), added)
    {
      for i := 0 to |added|
        invariant transactions == PutAll(old(transactions), added[..i])
      {
        assert added[..i + 1][..i] == added[..i];
        transactions := transactions[added[i].txid := added[i]];
      }
      assert added[..|added|] == added;
    }

    method Drop(removed: seq<Txid>)
      modifies this
      ensures transactions == DropAll(old(transactions), removed)
    {
      for i := 0 to |removed|
        invariant transactions == DropAll(old(transactions), removed[..i])
      {
        assert removed[..i + 1] == removed[..i] + [removed[i]];
        transactions := transactions - {removed[i]};
      }
      assert removed[..|removed|] == removed;
    }

    method Apply(d: Delta)
      modifies this
      ensures transactions == Applied(old(transactions), d)
    {
      Put(d.added);
      Drop(d.removed);
      ghost var m := transactions;
      for i := 0 to |d.changed|
        invariant transactions == PatchAll(m, d.changed[..i])
      {
        assert d.changed[..i + 1][..i] == d.changed[..i];
        var c := d.changed[i];
        if c.txid in transactions {
          transactions := transactions[c.txid := transactions[c.txid].(rate := c.rate, acc := c.acc)];
        }
      }
      assert d.changed[..|d.changed|] == d.changed;
    }
  }

  /** The full list shows the block it was made from. */
  lemma FullStateShows(block: seq<Tx>)
    requires DistinctIds(block)
    ensures Shows(PutAll(map[], CompressAll(block)), block)
  {
    var sent := CompressAll(block);
    forall i | 0 <= i < |block|
      ensures block[i].txid in PutAll(map[], sent) && PutAll(map[], sent)[block[i].txid] == CompressTx(block[i]) && IsShown(block[i], ShownRate(block[i]))
    {
      var c := CompressTx(block[i]);
      assert sent[i] == c;
      forall c' | c' in sent && c'.txid == block[i].txid ensures c' == c {
        var k :| 0 <= k < |sent| && sent[k] == c';
        assert block[k].txid == block[i].txid;
      }
      PutAt(map[], sent, block[i].txid, c);
      ShownIs(block[i], ShownRate(block[i]));
    }
    forall x ensures x in PutAll(map[], sent) <==> Listed(block, x) {
      PutKeys(map[], sent, x);
      if c :| c in sent && c.txid == x {
        var k :| 0 <= k < |sent| && sent[k] == c;
        assert block[k].txid == x;
      }
      if Listed(block, x) {
        var i :| 0 <= i < |block| && block[i].txid == x;
        assert sent[i] in sent;
      }
    }
    hide PutAll, ShownRate, IsShown, DistinctIds;
  }
}
