/** The maps of the replacement cache, as the index of one forest, and what adding a replacement does to them. */
module RbfIndex {
  import opened Collections
  import opened RbfTrees

  /** The cache's maps. "prior" is the source's map from a transaction to those it replaced. */
  datatype Maps = Maps(
    replacedBy: map<Txid, Txid>,
    prior: map<Txid, seq<Txid>>,
    rbfTrees: map<Txid, RbfTree>,
    treeMap: map<Txid, Txid>,
    txs: map<Txid, Tx>,
    expiring: map<Txid, int>)

  // ---------- the invariant: the maps are the index of a forest ----------

  /** A missing list and an empty list both mean that nothing was replaced. */
  function Listed(m: map<Txid, seq<Txid>>, x: Txid): seq<Txid> {
    if x in m then m[x] else []
  }

  /** Every root has replaced something, and is not replaced yet. */
  ghost predicate SoundTree(c: Maps, r: Txid, t: RbfTree) {
    t.tx.txid == r && t.prior != [] && t.interval == None && Distinct(t) && NodesRight(t) && Faithful(t, c.txs)
  }

  /** The maps record the edges of the tree, and no others at its transactions. */
  ghost predicate Indexed(replacedBy: map<Txid, Txid>, prior: map<Txid, seq<Txid>>, t: RbfTree) {
    && Same(replacedBy, Parents(t), Ids(t))
    && forall x :: x in Ids(t) ==> Listed(prior, x) == Listed(Children(t), x)
  }

  ghost predicate Owned(treeMap: map<Txid, Txid>, r: Txid, t: RbfTree) {
    forall x :: x in Ids(t) ==> x in treeMap && treeMap[x] == r
  }

  /** A transaction that belongs to the tree its treeMap entry names. */
  ghost predicate Placed(c: Maps, x: Txid) {
    x in c.treeMap && c.treeMap[x] in c.rbfTrees && x in Ids(c.rbfTrees[c.treeMap[x]])
  }

  ghost predicate Valid(c: Maps) {
    && (forall r :: r in c.rbfTrees ==> SoundTree(c, r, c.rbfTrees[r]))
    && (forall r :: r in c.rbfTrees ==> Owned(c.treeMap, r, c.rbfTrees[r]))
    && (forall r :: r in c.rbfTrees ==> Indexed(c.replacedBy, c.prior, c.rbfTrees[r]))
    && (forall x :: x in c.treeMap ==> Placed(c, x))
    && KeysMatch(c)
  }

  ghost predicate KeysMatch(c: Maps) {
    && c.replacedBy.Keys <= c.treeMap.Keys && c.prior.Keys <= c.treeMap.Keys
    && c.txs.Keys == c.treeMap.Keys && c.expiring.Keys <= c.txs.Keys
  }

  lemma TreeOf(c: Maps, x: Txid) returns (r: Txid, t: RbfTree)
    requires Valid(c) && x in c.treeMap
    ensures r == c.treeMap[x] && r in c.rbfTrees && t == c.rbfTrees[r] && x in Ids(t)
    ensures SoundTree(c, r, t) && Owned(c.treeMap, r, t) && Indexed(c.replacedBy, c.prior, t)
    ensures Parents(t).Keys == IdsOf(t.prior) && Children(t).Keys == Ids(t)
  {
    hide Distinct, NodesRight, Faithful, Same, Ids;
    r := c.treeMap[x];
    assert Placed(c, x);
    t := c.rbfTrees[r];
    assert r in c.rbfTrees;
    EdgeKeys(t);
  }

  // ---------- the written invariants, and what strengthens them ----------

  /** "b" is recorded as the replacement of "a" exactly if "a" is listed among what "b" replaced. */
  lemma Symmetry(c: Maps, a: Txid, b: Txid)
    requires Valid(c)
    ensures (a in c.replacedBy && c.replacedBy[a] == b) <==> a in Listed(c.prior, b)
  {
    if a in c.replacedBy {
      var r, t := TreeOf(c, a);
      EdgesSymmetric(t, a, c.replacedBy[a]);
      assert c.replacedBy[a] in Ids(t);
    }
    if a in Listed(c.prior, b) {
      var r, t := TreeOf(c, b);
      EdgesSymmetric(t, a, b);
      assert a in Ids(t);
    }
  }

  /** A tree's identifier is itself mapped to that tree, which is there and has it at its root. */
  lemma UniqueIdAndExistence(c: Maps, x: Txid)
    requires Valid(c) && x in c.treeMap
    ensures c.treeMap[x] in c.treeMap && c.treeMap[c.treeMap[x]] == c.treeMap[x]
    ensures c.treeMap[x] in c.rbfTrees && c.rbfTrees[c.treeMap[x]].tx.txid == c.treeMap[x]
  {
    var r, t := TreeOf(c, x);
    assert r in Ids(t);
  }

  /** Whatever takes part in a replacement belongs to a tree, and both sides to the same one. */
  lemma UniqueTreeAndCompleteness(c: Maps, a: Txid, b: Txid)
    requires Valid(c)
    ensures a in Listed(c.prior, b) ==> a in c.treeMap && b in c.treeMap && c.treeMap[a] == c.treeMap[b]
    ensures c.replacedBy.Keys <= c.treeMap.Keys && c.prior.Keys <= c.treeMap.Keys
  {
    if a in Listed(c.prior, b) {
      var r, t := TreeOf(c, b);
      EdgesSymmetric(t, a, b);
      assert a in Ids(t);
    }
  }

  /** An unreplaced transaction is the root of its tree, and no root is replaced. */
  lemma UnreplacedIsRoot(c: Maps, x: Txid)
    requires Valid(c) && x in c.treeMap
    ensures x !in c.replacedBy <==> c.treeMap[x] == x
  {
    var r, t := TreeOf(c, x);
    assert Same(c.replacedBy, Parents(t), Ids(t));
  }

  /** A transaction of the set that does not signal replaceability. */
  ghost predicate SomeSilent(s: set<Txid>, txs: map<Txid, Tx>) {
    exists x :: x in s && x in txs && !Replaceable(txs[x])
  }

  lemma {:induction false} SilentMeans(t: RbfTree, txs: map<Txid, Tx>)
    requires Faithful(t, txs)
    ensures SilentIn(t) <==> SomeSilent(Ids(t), txs)
    decreases t, 1
  {
    SilentAnyMeans(t.prior, txs);
    var x := t.tx.txid;
    SilentUnion({x}, IdsOf(t.prior), txs);
    assert SomeSilent({x}, txs) <==> !Replaceable(txs[x]) by {
      hide Replaceable;
      assert x in {x};
    }
    hide Replaceable, SomeSilent, IdsOf;
  }

  lemma {:induction false} SilentAnyMeans(ts: seq<RbfTree>, txs: map<Txid, Tx>)
    requires FaithfulAll(ts, txs)
    ensures SilentInAny(ts) <==> SomeSilent(IdsOf(ts), txs)
    decreases ts, 0
  {
    if ts != [] {
      SilentMeans(ts[0], txs);
      SilentAnyMeans(ts[1..], txs);
      SilentUnion(Ids(ts[0]), IdsOf(ts[1..]), txs);
      hide SomeSilent, Ids, SilentIn;
    }
  }

  lemma SilentUnion(s: set<Txid>, s': set<Txid>, txs: map<Txid, Tx>)
    ensures SomeSilent(s + s', txs) <==> SomeSilent(s, txs) || SomeSilent(s', txs)
  {
    hide Replaceable;
    if SomeSilent(s + s', txs) {
      var x :| x in s + s' && x in txs && !Replaceable(txs[x]);
      assert x in s || x in s';
    }
    if SomeSilent(s, txs) {
      var x :| x in s && x in txs && !Replaceable(txs[x]);
      assert x in s + s';
    }
    if SomeSilent(s', txs) {
      var x :| x in s' && x in txs && !Replaceable(txs[x]);
      assert x in s + s';
    }
  }

  /** A replacement is full-RBF exactly when some transaction strictly below it did not signal. */
  lemma FullRbfMeans(c: Maps, r: Txid)
    requires Valid(c) && r in c.rbfTrees
    ensures c.rbfTrees[r].fullRbf <==> SomeSilent(Ids(c.rbfTrees[r]) - {r}, c.txs)
  {
    var t := c.rbfTrees[r];
    assert SoundTree(c, r, t);
    assert Ids(t) - {r} == IdsOf(t.prior);
    SilentAnyMeans(t.prior, c.txs);
    hide Valid, SomeSilent, IdsOf;
  }

  /** At every node of a tree: the time is when the transaction was first seen, if that is set, and the times and
      intervals of the transactions it replaced lead to it. Only a root has no interval. */
  lemma Timeline(c: Maps, r: Txid, v: RbfTree)
    requires Valid(c) && r in c.rbfTrees && Node(c.rbfTrees[r], v)
    ensures c.rbfTrees[r].interval == None
    ensures v.tx.txid in c.txs && (c.txs[v.tx.txid].firstSeen != 0 ==> v.time == c.txs[v.tx.txid].firstSeen)
    ensures forall i :: 0 <= i < |v.prior| ==> v.prior[i].interval.Some? && v.prior[i].time + v.prior[i].interval.value == v.time
  {
    assert SoundTree(c, r, c.rbfTrees[r]);
    NodeRight(c.rbfTrees[r], v, c.txs);
    hide Valid, SilentInAny, NodesAllRight, FaithfulAll, Node, Copies, ReplacedAt;
    forall i | 0 <= i < |v.prior|
      ensures v.prior[i].interval.Some? && v.prior[i].time + v.prior[i].interval.value == v.time
    {
      ReplacedAtMember(v.time, v.prior, i);
    }
  }

  lemma TreesDisjoint(c: Maps, r: Txid, r': Txid)
    requires Valid(c) && r in c.rbfTrees && r' in c.rbfTrees && r != r'
    ensures Ids(c.rbfTrees[r]) !! Ids(c.rbfTrees[r'])
  {
    forall x | x in Ids(c.rbfTrees[r]) ensures x !in Ids(c.rbfTrees[r']) {
      assert Owned(c.treeMap, r, c.rbfTrees[r]) && Owned(c.treeMap, r', c.rbfTrees[r']);
    }
  }

  // ---------- adding a replacement ----------

  /** firstSeen, or the current time if that is unset */
  function Seen(tx: Tx, now: int): int {
    if tx.firstSeen != 0 then tx.firstSeen else now
  }

  /** The tree of a replaced transaction the cache did not know. */
  function Leaf(tx: Tx, newTime: int, now: int): RbfTree {
    RbfTree(Strip(tx), Seen(tx, now), Some(newTime - Seen(tx, now)), false, !Signals(tx), [])
  }

  /** The replaced transactions that had no replacement yet, each once, in order. */
  ghost function Survivors(replaced: seq<Tx>, replacedBy: map<Txid, Txid>): seq<Txid> {
    if replaced == [] then [] else
    var before, x := Survivors(replaced[..|replaced| - 1], replacedBy), replaced[|replaced| - 1].txid;
    if x in replacedBy || x in before then before else before + [x]
  }

  /** The subtree made of a replaced transaction the cache did not know: its fields, when it was first seen if that
      is set and now otherwise, and how long until the replacement. */
  ghost predicate IsLeaf(t: RbfTree, tx: Tx, newTime: int, now: int) {
    && Copies(t.tx, tx) && !t.tx.mined && t.tx.fullRbf == None && t.time == (if tx.firstSeen != 0 then tx.firstSeen else now)
    && t.interval.Some? && t.time + t.interval.value == newTime
    && !t.mined && t.fullRbf == !Replaceable(tx) && t.prior == []
  }

  lemma LeafIs(t: RbfTree, tx: Tx, newTime: int, now: int)
    ensures t == Leaf(tx, newTime, now) <==> IsLeaf(t, tx, newTime, now)
  {
    StripIs(tx, t.tx);
    SignalsMeans(tx);
    hide Strip, Signals, Replaceable, Copies;
  }

  /** The subtree made of a replaced transaction: its old tree with the interval set, or a leaf. */
  ghost predicate Absorbed(c: Maps, replaced: seq<Tx>, newTime: int, now: int, t: RbfTree) {
    var x := t.tx.txid;
    if x in c.treeMap then
      x in c.rbfTrees && t == c.rbfTrees[x].(interval := Some(newTime - c.rbfTrees[x].time))
    else
      exists i :: 0 <= i < |replaced| && replaced[i].txid == x && IsLeaf(t, replaced[i], newTime, now)
  }

  /** Nothing but the trees, links and transactions of the absorbed subtrees "ts" has changed since "c0". */
  ghost predicate Absorbing(c0: Maps, c: Maps, replaced: seq<Tx>, newTx: Tx, newTime: int, now: int, ts: seq<RbfTree>) {
    && c == c0.(replacedBy := c.replacedBy, rbfTrees := c.rbfTrees, txs := c.txs)
    && RootIds(ts) == Survivors(replaced, c0.replacedBy)
    && (forall i :: 0 <= i < |ts| ==> Absorbed(c0, replaced, newTime, now, ts[i]))
    && c.rbfTrees == c0.rbfTrees - (set x | x in RootIds(ts))
    && ReplacedNow(c0.replacedBy, c.replacedBy, RootIds(ts), newTx.txid)
    && TxsNow(c0.txs, c.txs, newTx, RootIds(ts))
    && DistinctAll(ts) && newTx.txid !in IdsOf(ts) && NodesAllRight(ts) && FaithfulAll(ts, c.txs)
  }

  ghost predicate ReplacedNow(m0: map<Txid, Txid>, m: map<Txid, Txid>, roots: seq<Txid>, newId: Txid) {
    && m.Keys == m0.Keys + (set x | x in roots)
    && forall x :: x in m ==> m[x] == if x in roots then newId else m0[x]
  }

  ghost predicate TxsNow(m0: map<Txid, Tx>, m: map<Txid, Tx>, newTx: Tx, roots: seq<Txid>) {
    && m.Keys == m0.Keys + {newTx.txid} + (set x | x in roots)
    && newTx.txid in m && m[newTx.txid] == newTx
    && forall x :: x in m0 ==> m[x] == m0[x]
  }

  /** Where the absorbed transactions come from: old trees with their own roots, or nowhere. */
  lemma AbsorbedFrom(c: Maps, replaced: seq<Tx>, newTime: int, now: int, t: RbfTree)
    requires Valid(c) && Absorbed(c, replaced, newTime, now, t)
    ensures var x := t.tx.txid;
      && (x in c.treeMap ==> x in c.rbfTrees && Ids(t) == Ids(c.rbfTrees[x]) && Parents(t) == Parents(c.rbfTrees[x]) && Children(t) == Children(c.rbfTrees[x]))
      && (x !in c.treeMap ==> Ids(t) == {x} && Parents(t) == map[] && Children(t) == map[x := []])
    ensures Distinct(t) && NodesRight(t)
  {
    var x := t.tx.txid;
    if x in c.treeMap {
      assert SoundTree(c, x, c.rbfTrees[x]);
    }
  }

  lemma AbsorbedDisjoint(c: Maps, replaced: seq<Tx>, newTime: int, now: int, t: RbfTree, u: RbfTree)
    requires Valid(c) && Absorbed(c, replaced, newTime, now, t) && Absorbed(c, replaced, newTime, now, u) && t.tx.txid != u.tx.txid
    ensures Ids(t) !! Ids(u)
  {
    hide Valid, Absorbed, Ids;
    AbsorbedFrom(c, replaced, newTime, now, t);
    AbsorbedFrom(c, replaced, newTime, now, u);
    AbsorbedMapped(c, replaced, newTime, now, t);
    AbsorbedMapped(c, replaced, newTime, now, u);
    if t.tx.txid in c.treeMap && u.tx.txid in c.treeMap {
      TreesDisjoint(c, t.tx.txid, u.tx.txid);
    }
  }

  /** The transactions of an absorbed tree are known, and those of an absorbed leaf are not. */
  lemma AbsorbedMapped(c: Maps, replaced: seq<Tx>, newTime: int, now: int, t: RbfTree)
    requires Valid(c) && Absorbed(c, replaced, newTime, now, t)
    ensures t.tx.txid in c.treeMap ==> Ids(t) <= c.treeMap.Keys
    ensures t.tx.txid !in c.treeMap ==> Ids(t) !! c.treeMap.Keys
  {
    hide Valid, Absorbed, Ids;
    AbsorbedFrom(c, replaced, newTime, now, t);
    if t.tx.txid in c.treeMap {
      TreeMapped(c, t.tx.txid);
    }
  }

  lemma TreeMapped(c: Maps, r: Txid)
    requires Valid(c) && r in c.rbfTrees
    ensures SoundTree(c, r, c.rbfTrees[r]) && Ids(c.rbfTrees[r]) <= c.treeMap.Keys && c.treeMap.Keys == c.txs.Keys
    ensures r in Ids(c.rbfTrees[r]) && r in c.treeMap
  {
    assert Owned(c.treeMap, r, c.rbfTrees[r]);
    forall x | x in Ids(c.rbfTrees[r]) ensures x in c.treeMap {
    }
  }

  lemma NewSubtreeDisjoint(c: Maps, replaced: seq<Tx>, newTime: int, now: int, ts: seq<RbfTree>, t: RbfTree)
    requires Valid(c) && Absorbed(c, replaced, newTime, now, t) && t.tx.txid !in RootIds(ts)
    requires forall i :: 0 <= i < |ts| ==> Absorbed(c, replaced, newTime, now, ts[i])
    ensures Ids(t) !! IdsOf(ts)
  {
    hide Valid, Absorbed;
    forall x | x in IdsOf(ts) ensures x !in Ids(t) {
      var i := IdsOfMember(ts, x);
      assert RootIds(ts)[i] == ts[i].tx.txid;
      AbsorbedDisjoint(c, replaced, newTime, now, t, ts[i]);
    }
  }

  lemma StillAbsorbed(c: Maps, replaced: seq<Tx>, tx: Tx, newTime: int, now: int, t: RbfTree)
    requires Absorbed(c, replaced, newTime, now, t)
    ensures Absorbed(c, replaced + [tx], newTime, now, t)
  {
    if t.tx.txid !in c.treeMap {
      var i :| 0 <= i < |replaced| && replaced[i].txid == t.tx.txid && IsLeaf(t, replaced[i], newTime, now);
      assert (replaced + [tx])[i] == replaced[i];
    }
  }

  lemma SurvivorsStep(replaced: seq<Tx>, tx: Tx, replacedBy: map<Txid, Txid>)
    ensures var before := Survivors(replaced, replacedBy);
      Survivors(replaced + [tx], replacedBy) == if tx.txid in replacedBy || tx.txid in before then before else before + [tx.txid]
  {
    assert (replaced + [tx])[..|replaced|] == replaced;
  }

  /** A transaction that is already replaced is passed over. */
  lemma PassedOver(c0: Maps, c: Maps, replaced: seq<Tx>, tx: Tx, newTx: Tx, newTime: int, now: int, ts: seq<RbfTree>)
    requires Absorbing(c0, c, replaced, newTx, newTime, now, ts) && tx.txid in c.replacedBy
    ensures Absorbing(c0, c, replaced + [tx], newTx, newTime, now, ts)
  {
    SurvivorsStep(replaced, tx, c0.replacedBy);
    forall i | 0 <= i < |ts| ensures Absorbed(c0, replaced + [tx], newTime, now, ts[i]) {
      StillAbsorbed(c0, replaced, tx, newTime, now, ts[i]);
    }
    hide Absorbed, DistinctAll, NodesAllRight, FaithfulAll, IdsOf, Survivors;
  }

  lemma RootIdsAppend(ts: seq<RbfTree>, t: RbfTree)
    ensures RootIds(ts + [t]) == RootIds(ts) + [t.tx.txid]
  {
  }

  /** One more subtree: the parts of the invariant that speak of the subtrees. */
  lemma SubtreesGrown(c0: Maps, replaced: seq<Tx>, tx: Tx, newTx: Tx, newTime: int, now: int, ts: seq<RbfTree>, t: RbfTree, txs: map<Txid, Tx>)
    requires Valid(c0) && Absorbed(c0, replaced + [tx], newTime, now, t) && t.tx.txid == tx.txid && tx.txid !in RootIds(ts)
    requires forall i :: 0 <= i < |ts| ==> Absorbed(c0, replaced, newTime, now, ts[i])
    requires RootIds(ts) == Survivors(replaced, c0.replacedBy) && tx.txid !in c0.replacedBy
    requires newTx.txid !in c0.treeMap && newTx.txid != tx.txid
    requires DistinctAll(ts) && newTx.txid !in IdsOf(ts) && NodesAllRight(ts) && FaithfulAll(ts, txs) && Faithful(t, txs)
    ensures var ts' := ts + [t];
      && RootIds(ts') == Survivors(replaced + [tx], c0.replacedBy)
      && (forall i :: 0 <= i < |ts'| ==> Absorbed(c0, replaced + [tx], newTime, now, ts'[i]))
      && DistinctAll(ts') && newTx.txid !in IdsOf(ts') && NodesAllRight(ts') && FaithfulAll(ts', txs)
  {
    hide *;
    SurvivorsStep(replaced, tx, c0.replacedBy);
    forall i | 0 <= i < |ts| ensures Absorbed(c0, replaced + [tx], newTime, now, ts[i]) {
      StillAbsorbed(c0, replaced, tx, newTime, now, ts[i]);
    }
    AbsorbedFrom(c0, replaced + [tx], newTime, now, t);
    AbsorbedMapped(c0, replaced + [tx], newTime, now, t);
    NewSubtreeDisjoint(c0, replaced + [tx], newTime, now, ts, t);
    DistinctAppend(ts, t);
    IdsAppend(ts, t);
    SilentAppend(ts, t);
    FaithfulAppend(ts, t, txs);
    RootIdsAppend(ts, t);
  }

  lemma NoTreeThere(c: Maps, x: Txid)
    requires Valid(c) && x !in c.treeMap
    ensures x !in c.rbfTrees && x !in c.replacedBy && x !in c.prior && x !in c.txs
  {
    if x in c.rbfTrees {
      TreeMapped(c, x);
    }
  }

  /** The parts of the invariant that speak of the maps. */
  ghost predicate MapsNow(c0: Maps, c: Maps, newTx: Tx, roots: seq<Txid>) {
    && c == c0.(replacedBy := c.replacedBy, rbfTrees := c.rbfTrees, txs := c.txs)
    && c.rbfTrees == c0.rbfTrees - (set x | x in roots)
    && ReplacedNow(c0.replacedBy, c.replacedBy, roots, newTx.txid)
    && TxsNow(c0.txs, c.txs, newTx, roots)
  }

  lemma MapsWithTree(c0: Maps, c: Maps, newTx: Tx, roots: seq<Txid>, x: Txid)
    requires MapsNow(c0, c, newTx, roots) && x !in roots && x in c0.txs
    ensures MapsNow(c0, c.(replacedBy := c.replacedBy[x := newTx.txid], rbfTrees := c.rbfTrees - {x}), newTx, roots + [x])
  {
  }

  lemma MapsWithLeaf(c0: Maps, c: Maps, newTx: Tx, roots: seq<Txid>, x: Txid, tx: Tx)
    requires MapsNow(c0, c, newTx, roots) && x !in roots && x !in c0.txs && x !in c0.rbfTrees && x != newTx.txid
    ensures MapsNow(c0, c.(replacedBy := c.replacedBy[x := newTx.txid], txs := c.txs[x := tx]), newTx, roots + [x])
  {
    ReplacedMore(c0.replacedBy, c.replacedBy, roots, newTx.txid, x);
    TxsMore(c0.txs, c.txs, newTx, roots, x, tx);
    assert c.rbfTrees == c0.rbfTrees - (set y | y in roots + [x]);
    hide ReplacedNow, TxsNow;
  }

  lemma ReplacedMore(m0: map<Txid, Txid>, m: map<Txid, Txid>, roots: seq<Txid>, newId: Txid, x: Txid)
    requires ReplacedNow(m0, m, roots, newId)
    ensures ReplacedNow(m0, m[x := newId], roots + [x], newId)
  {
  }

  lemma TxsMore(m0: map<Txid, Tx>, m: map<Txid, Tx>, newTx: Tx, roots: seq<Txid>, x: Txid, tx: Tx)
    requires TxsNow(m0, m, newTx, roots) && x !in m0 && x != newTx.txid
    ensures TxsNow(m0, m[x := tx], newTx, roots + [x])
  {
  }

  lemma Split(c0: Maps, c: Maps, replaced: seq<Tx>, newTx: Tx, newTime: int, now: int, ts: seq<RbfTree>)
    requires Absorbing(c0, c, replaced, newTx, newTime, now, ts)
    ensures MapsNow(c0, c, newTx, RootIds(ts)) && c.treeMap == c0.treeMap
    ensures ReplacedNow(c0.replacedBy, c.replacedBy, RootIds(ts), newTx.txid) && TxsNow(c0.txs, c.txs, newTx, RootIds(ts))
    ensures RootIds(ts) == Survivors(replaced, c0.replacedBy)
    ensures forall i :: 0 <= i < |ts| ==> Absorbed(c0, replaced, newTime, now, ts[i])
    ensures DistinctAll(ts) && newTx.txid !in IdsOf(ts) && NodesAllRight(ts) && FaithfulAll(ts, c.txs)
    ensures forall x :: x in c.replacedBy <==> x in c0.replacedBy || x in RootIds(ts)
    ensures forall x :: x in c0.txs ==> x in c.txs && c.txs[x] == c0.txs[x]
    ensures forall x :: x in c0.rbfTrees && x !in RootIds(ts) ==> x in c.rbfTrees && c.rbfTrees[x] == c0.rbfTrees[x]
  {
    hide Absorbed, DistinctAll, NodesAllRight, FaithfulAll, IdsOf, Survivors;
  }

  lemma Join(c0: Maps, c: Maps, replaced: seq<Tx>, newTx: Tx, newTime: int, now: int, ts: seq<RbfTree>)
    requires MapsNow(c0, c, newTx, RootIds(ts))
    requires RootIds(ts) == Survivors(replaced, c0.replacedBy)
    requires forall i :: 0 <= i < |ts| ==> Absorbed(c0, replaced, newTime, now, ts[i])
    requires DistinctAll(ts) && newTx.txid !in IdsOf(ts) && NodesAllRight(ts) && FaithfulAll(ts, c.txs)
    ensures Absorbing(c0, c, replaced, newTx, newTime, now, ts)
  {
    hide Absorbed, DistinctAll, NodesAllRight, FaithfulAll, IdsOf, Survivors;
  }

  /** The old tree of an unreplaced transaction, ready to be absorbed. */
  lemma OldTree(c0: Maps, replaced: seq<Tx>, tx: Tx, newTime: int, now: int, txs: map<Txid, Tx>) returns (t: RbfTree)
    requires Valid(c0) && tx.txid in c0.treeMap && tx.txid !in c0.replacedBy
    requires forall x :: x in c0.txs ==> x in txs && txs[x] == c0.txs[x]
    ensures c0.treeMap[tx.txid] == tx.txid && tx.txid in c0.rbfTrees && tx.txid in c0.txs
    ensures t == c0.rbfTrees[tx.txid].(interval := Some(newTime - c0.rbfTrees[tx.txid].time)) && t.tx.txid == tx.txid
    ensures Absorbed(c0, replaced + [tx], newTime, now, t) && Faithful(t, txs)
  {
    var x := tx.txid;
    UnreplacedIsRoot(c0, x);
    UniqueIdAndExistence(c0, x);
    TreeMapped(c0, x);
    var u := c0.rbfTrees[x];
    t := u.(interval := Some(newTime - u.time));
    hide Valid;
    FaithfulSame(u, c0.txs, txs);
  }

  /** An unreplaced known transaction hands over its tree. */
  lemma TreeAbsorbed(c0: Maps, c: Maps, replaced: seq<Tx>, tx: Tx, newTx: Tx, newTime: int, now: int, ts: seq<RbfTree>)
    requires Valid(c0) && Absorbing(c0, c, replaced, newTx, newTime, now, ts)
    requires tx.txid !in c.replacedBy && tx.txid in c.treeMap && newTx.txid !in c0.treeMap && newTx.txid != tx.txid
    ensures c.treeMap[tx.txid] == tx.txid && tx.txid in c.rbfTrees
    ensures var t := c.rbfTrees[tx.txid].(interval := Some(newTime - c.rbfTrees[tx.txid].time));
      Absorbing(c0, c.(replacedBy := c.replacedBy[tx.txid := newTx.txid], rbfTrees := c.rbfTrees - {tx.txid}),
                replaced + [tx], newTx, newTime, now, ts + [t])
  {
    hide *;
    Split(c0, c, replaced, newTx, newTime, now, ts);
    var t := OldTree(c0, replaced, tx, newTime, now, c.txs);
    SubtreesGrown(c0, replaced, tx, newTx, newTime, now, ts, t, c.txs);
    RootIdsAppend(ts, t);
    MapsWithTree(c0, c, newTx, RootIds(ts), tx.txid);
    Join(c0, c.(replacedBy := c.replacedBy[tx.txid := newTx.txid], rbfTrees := c.rbfTrees - {tx.txid}),
         replaced + [tx], newTx, newTime, now, ts + [t]);
  }

  lemma LeafFaithful(t: RbfTree, tx: Tx, newTime: int, now: int, txs: map<Txid, Tx>)
    requires IsLeaf(t, tx, newTime, now) && tx.txid in txs && txs[tx.txid] == tx
    ensures t.tx.txid == tx.txid && Faithful(t, txs)
  {
    hide Replaceable;
  }

  lemma NewLeaf(c0: Maps, replaced: seq<Tx>, tx: Tx, newTime: int, now: int, txs: map<Txid, Tx>) returns (t: RbfTree)
    requires Valid(c0) && tx.txid !in c0.treeMap && tx.txid in txs && txs[tx.txid] == tx
    ensures t == Leaf(tx, newTime, now) && t.tx.txid == tx.txid
    ensures Absorbed(c0, replaced + [tx], newTime, now, t) && Faithful(t, txs)
  {
    t := Leaf(tx, newTime, now);
    LeafIs(t, tx, newTime, now);
    assert (replaced + [tx])[|replaced|] == tx;
    hide Valid, Copies, Leaf;
    assert IsLeaf(t, (replaced + [tx])[|replaced|], newTime, now);
    LeafFaithful(t, tx, newTime, now, txs);
  }

  lemma SubtreesElsewhere(c0: Maps, replaced: seq<Tx>, tx: Tx, newTime: int, now: int, ts: seq<RbfTree>, t: RbfTree)
    requires Valid(c0) && Absorbed(c0, replaced + [tx], newTime, now, t) && t.tx.txid !in RootIds(ts)
    requires forall i :: 0 <= i < |ts| ==> Absorbed(c0, replaced, newTime, now, ts[i])
    ensures Ids(t) !! IdsOf(ts) && t.tx.txid in Ids(t)
  {
    hide *;
    forall i | 0 <= i < |ts| ensures Absorbed(c0, replaced + [tx], newTime, now, ts[i]) {
      StillAbsorbed(c0, replaced, tx, newTime, now, ts[i]);
    }
    NewSubtreeDisjoint(c0, replaced + [tx], newTime, now, ts, t);
    OwnId(t);
  }

  lemma OwnId(t: RbfTree)
    ensures t.tx.txid in Ids(t)
  {
  }

  /** An unknown transaction becomes a leaf. */
  lemma LeafAbsorbed(c0: Maps, c: Maps, replaced: seq<Tx>, tx: Tx, newTx: Tx, newTime: int, now: int, ts: seq<RbfTree>)
    requires Valid(c0) && Absorbing(c0, c, replaced, newTx, newTime, now, ts)
    requires tx.txid !in c.replacedBy && tx.txid !in c.treeMap && newTx.txid !in c0.treeMap && newTx.txid != tx.txid
    ensures Absorbing(c0, c.(replacedBy := c.replacedBy[tx.txid := newTx.txid], txs := c.txs[tx.txid := tx]),
                      replaced + [tx], newTx, newTime, now, ts + [Leaf(tx, newTime, now)])
  {
    hide *;
    Split(c0, c, replaced, newTx, newTime, now, ts);
    var txs := c.txs[tx.txid := tx];
    var t := NewLeaf(c0, replaced, tx, newTime, now, txs);
    NoTreeThere(c0, tx.txid);
    SubtreesElsewhere(c0, replaced, tx, newTime, now, ts, t);
    SameElsewhere(c.txs, tx.txid, tx, IdsOf(ts));
    FaithfulAllSame(ts, c.txs, txs);
    SubtreesGrown(c0, replaced, tx, newTx, newTime, now, ts, t, txs);
    RootIdsAppend(ts, t);
    MapsWithLeaf(c0, c, newTx, RootIds(ts), tx.txid, tx);
    Join(c0, c.(replacedBy := c.replacedBy[tx.txid := newTx.txid], txs := txs), replaced + [tx], newTx, newTime, now, ts + [t]);
  }

  lemma SameElsewhere<V>(m: map<Txid, V>, x: Txid, v: V, s: set<Txid>)
    requires x !in s
    ensures Same(m, m[x := v], s)
  {
  }

  // ---------- the new root ----------

  ghost function Mapped(ids: set<Txid>, r: Txid): map<Txid, Txid> {
    map x | x in ids :: r
  }

  /** The new root is planted over the absorbed subtrees. */
  ghost function Planted(c: Maps, tree: RbfTree): Maps {
    var r := tree.tx.txid;
    c.(rbfTrees := c.rbfTrees[r := tree], treeMap := c.treeMap + Mapped(Ids(tree), r), prior := c.prior[r := RootIds(tree.prior)])
  }

  /** What the lemmas below share: the state just before planting. */
  ghost predicate ReadyToPlant(c0: Maps, c: Maps, replaced: seq<Tx>, newTx: Tx, newTime: int, now: int, tree: RbfTree) {
    && Absorbing(c0, c, replaced, newTx, newTime, now, tree.prior)
    && newTx.txid !in c0.treeMap && tree.tx.txid == newTx.txid
    && Copies(tree.tx, newTx) && (newTx.firstSeen != 0 ==> newTime == newTx.firstSeen) && tree.time == newTime && tree.interval == None
    && tree.prior != [] && tree.fullRbf == SilentInAny(tree.prior)
  }

  /** An absorbed transaction was in an old tree whose root was absorbed, or is such a root itself. */
  lemma AbsorbedOrigin(c0: Maps, replaced: seq<Tx>, newTime: int, now: int, ts: seq<RbfTree>, x: Txid) returns (i: nat)
    requires Valid(c0) && x in IdsOf(ts)
    requires forall j :: 0 <= j < |ts| ==> Absorbed(c0, replaced, newTime, now, ts[j])
    ensures i < |ts| && x in Ids(ts[i]) && ts[i].tx.txid in RootIds(ts)
    ensures x in c0.treeMap ==> c0.treeMap[x] == ts[i].tx.txid
    ensures x !in c0.treeMap ==> x == ts[i].tx.txid
  {
    hide Valid, Absorbed, Ids, IdsOf;
    i := IdsOfMember(ts, x);
    assert RootIds(ts)[i] == ts[i].tx.txid;
    AbsorbedFrom(c0, replaced, newTime, now, ts[i]);
    AbsorbedMapped(c0, replaced, newTime, now, ts[i]);
    if x in c0.treeMap {
      OldTreeOwned(c0, ts[i].tx.txid);
    }
  }

  lemma OldTreeOwned(c: Maps, r: Txid)
    requires Valid(c)
    ensures r in c.rbfTrees ==> Owned(c.treeMap, r, c.rbfTrees[r]) && SoundTree(c, r, c.rbfTrees[r]) && Indexed(c.replacedBy, c.prior, c.rbfTrees[r])
  {
  }

  /** A tree that was not absorbed is left alone: none of its transactions is in the new tree. */
  lemma OtherTree(c0: Maps, replaced: seq<Tx>, newTime: int, now: int, ts: seq<RbfTree>, r: Txid, newId: Txid)
    requires Valid(c0) && r in c0.rbfTrees && r !in RootIds(ts) && newId !in c0.treeMap
    requires forall j :: 0 <= j < |ts| ==> Absorbed(c0, replaced, newTime, now, ts[j])
    ensures Ids(c0.rbfTrees[r]) !! {newId} + IdsOf(ts) && Ids(c0.rbfTrees[r]) <= c0.treeMap.Keys && r != newId
  {
    hide Absorbed, Ids, IdsOf, SoundTree, Indexed;
    TreeMapped(c0, r);
    OldTreeOwned(c0, r);
    forall x | x in Ids(c0.rbfTrees[r]) ensures x !in IdsOf(ts) {
      if x in IdsOf(ts) {
        var i := AbsorbedOrigin(c0, replaced, newTime, now, ts, x);
        assert false;
      }
    }
  }

  /** An absorbed subtree's interval leads to the time of the new transaction. */
  lemma AbsorbedInTime(c0: Maps, replaced: seq<Tx>, newTime: int, now: int, ts: seq<RbfTree>)
    requires forall i :: 0 <= i < |ts| ==> Absorbed(c0, replaced, newTime, now, ts[i])
    ensures ReplacedAt(newTime, ts)
  {
    forall i | 0 <= i < |ts| ensures ts[i].interval.Some? && ts[i].time + ts[i].interval.value == newTime {
      assert Absorbed(c0, replaced, newTime, now, ts[i]);
    }
    hide Absorbed;
    ReplacedAtAll(newTime, ts);
  }

  lemma NewTreeSound(c: Maps, newTx: Tx, newTime: int, tree: RbfTree)
    requires Copies(tree.tx, newTx) && (newTx.firstSeen != 0 ==> newTime == newTx.firstSeen) && tree.time == newTime && tree.interval == None
    requires tree.prior != [] && tree.fullRbf == SilentInAny(tree.prior) && ReplacedAt(newTime, tree.prior)
    requires newTx.txid in c.txs && c.txs[newTx.txid] == newTx
    requires DistinctAll(tree.prior) && newTx.txid !in IdsOf(tree.prior) && NodesAllRight(tree.prior) && FaithfulAll(tree.prior, c.txs)
    ensures SoundTree(c, newTx.txid, tree)
  {
    hide DistinctAll, NodesAllRight, FaithfulAll, IdsOf, SilentInAny, Replaceable, ReplacedAt;
  }

  lemma OldTreeSound(c0: Maps, c: Maps, r: Txid)
    requires Valid(c0) && r in c0.rbfTrees && forall x :: x in c0.txs ==> x in c.txs && c.txs[x] == c0.txs[x]
    ensures SoundTree(c, r, c0.rbfTrees[r])
  {
    TreeMapped(c0, r);
    hide Valid;
    FaithfulSame(c0.rbfTrees[r], c0.txs, c.txs);
  }

  lemma PlantedTreesSound(c0: Maps, c: Maps, replaced: seq<Tx>, newTx: Tx, newTime: int, now: int, tree: RbfTree, r: Txid)
    requires Valid(c0) && ReadyToPlant(c0, c, replaced, newTx, newTime, now, tree)
    requires r in Planted(c, tree).rbfTrees
    ensures SoundTree(Planted(c, tree), r, Planted(c, tree).rbfTrees[r])
  {
    PlantedParts(c0, c, replaced, newTx, newTime, now, tree);
    NewTreeIs(c0, c, replaced, newTx, newTime, now, tree);
    hide *;
    Split(c0, c, replaced, newTx, newTime, now, tree.prior);
    if r != newTx.txid {
      OldTreeSound(c0, Planted(c, tree), r);
    } else {
      AbsorbedInTime(c0, replaced, newTime, now, tree.prior);
      NewIsStored(c0.txs, c.txs, newTx, RootIds(tree.prior));
      NewTreeSound(Planted(c, tree), newTx, newTime, tree);
    }
  }

  lemma NewIsStored(m0: map<Txid, Tx>, m: map<Txid, Tx>, newTx: Tx, roots: seq<Txid>)
    requires TxsNow(m0, m, newTx, roots)
    ensures newTx.txid in m && m[newTx.txid] == newTx
  {
  }

  lemma NewTreeIs(c0: Maps, c: Maps, replaced: seq<Tx>, newTx: Tx, newTime: int, now: int, tree: RbfTree)
    requires ReadyToPlant(c0, c, replaced, newTx, newTime, now, tree)
    ensures Copies(tree.tx, newTx) && (newTx.firstSeen != 0 ==> newTime == newTx.firstSeen) && tree.time == newTime && tree.interval == None
    ensures tree.prior != [] && tree.fullRbf == SilentInAny(tree.prior)
  {
    hide Absorbing, Copies, SilentInAny;
  }

  lemma PlantedParts(c0: Maps, c: Maps, replaced: seq<Tx>, newTx: Tx, newTime: int, now: int, tree: RbfTree)
    requires ReadyToPlant(c0, c, replaced, newTx, newTime, now, tree)
    ensures var c' := Planted(c, tree);
      && Ids(tree) == {newTx.txid} + IdsOf(tree.prior) && c.treeMap == c0.treeMap && c.prior == c0.prior && c.expiring == c0.expiring
      && c'.rbfTrees == c.rbfTrees[newTx.txid := tree] && c'.replacedBy == c.replacedBy && c'.txs == c.txs && c'.expiring == c.expiring
      && (forall x :: x in c'.treeMap <==> x in Ids(tree) || x in c0.treeMap)
      && (forall x :: x in c'.treeMap ==> c'.treeMap[x] == if x in Ids(tree) then newTx.txid else c0.treeMap[x])
      && c'.prior == c.prior[newTx.txid := RootIds(tree.prior)]
      && (forall r :: r in c'.rbfTrees && r != newTx.txid ==> r in c0.rbfTrees && r !in RootIds(tree.prior) && c'.rbfTrees[r] == c0.rbfTrees[r])
      && newTx.txid in c'.rbfTrees && c'.rbfTrees[newTx.txid] == tree
      && newTx.txid !in c0.treeMap && tree.tx.txid == newTx.txid && Absorbing(c0, c, replaced, newTx, newTime, now, tree.prior)
  {
    hide Absorbed, DistinctAll, NodesAllRight, FaithfulAll, IdsOf, Survivors;
  }

  lemma PlantedTreesOwned(c0: Maps, c: Maps, replaced: seq<Tx>, newTx: Tx, newTime: int, now: int, tree: RbfTree, r: Txid)
    requires Valid(c0) && ReadyToPlant(c0, c, replaced, newTx, newTime, now, tree)
    requires r in Planted(c, tree).rbfTrees
    ensures Owned(Planted(c, tree).treeMap, r, Planted(c, tree).rbfTrees[r])
  {
    hide *;
    PlantedParts(c0, c, replaced, newTx, newTime, now, tree);
    Split(c0, c, replaced, newTx, newTime, now, tree.prior);
    if r != newTx.txid {
      OldTreeOwned(c0, r);
      OtherTree(c0, replaced, newTime, now, tree.prior, r, newTx.txid);
      StillOwned(c0.treeMap, Planted(c, tree).treeMap, r, c0.rbfTrees[r], Ids(tree));
    } else {
      OwnedIs(Planted(c, tree).treeMap, r, tree);
    }
  }

  lemma OwnedIs(m: map<Txid, Txid>, r: Txid, t: RbfTree)
    requires forall x :: x in Ids(t) ==> x in m && m[x] == r
    ensures Owned(m, r, t)
  {
    hide Ids;
  }

  lemma StillOwned(m: map<Txid, Txid>, m': map<Txid, Txid>, r: Txid, t: RbfTree, ids: set<Txid>)
    requires Owned(m, r, t) && Ids(t) !! ids && forall x :: x in m && x !in ids ==> x in m' && m'[x] == m[x]
    ensures Owned(m', r, t)
  {
    hide Ids;
  }

  lemma PlantedPlaced(c0: Maps, c: Maps, replaced: seq<Tx>, newTx: Tx, newTime: int, now: int, tree: RbfTree, x: Txid)
    requires Valid(c0) && ReadyToPlant(c0, c, replaced, newTx, newTime, now, tree)
    requires x in Planted(c, tree).treeMap
    ensures Placed(Planted(c, tree), x)
  {
    PlantedParts(c0, c, replaced, newTx, newTime, now, tree);
    Split(c0, c, replaced, newTx, newTime, now, tree.prior);
    hide Valid, ReadyToPlant, Planted, Ids, IdsOf, Absorbed;
    if x !in Ids(tree) {
      var r, t := TreeOf(c0, x);
      if r in RootIds(tree.prior) {
        var i :| 0 <= i < |tree.prior| && RootIds(tree.prior)[i] == r;
        RootAbsorbed(c0, replaced, newTime, now, tree.prior, i);
        assert false;
      }
      TreeMapped(c0, r);
    }
  }

  /** The whole old tree of an absorbed root is absorbed. */
  lemma RootAbsorbed(c0: Maps, replaced: seq<Tx>, newTime: int, now: int, ts: seq<RbfTree>, i: nat)
    requires Valid(c0) && i < |ts| && Absorbed(c0, replaced, newTime, now, ts[i])
    ensures ts[i].tx.txid in c0.rbfTrees ==> Ids(c0.rbfTrees[ts[i].tx.txid]) <= IdsOf(ts)
  {
    hide Absorbed, Ids, IdsOf, Valid;
    AbsorbedFrom(c0, replaced, newTime, now, ts[i]);
    MemberIds(ts, i);
    if ts[i].tx.txid in c0.rbfTrees {
      TreeMapped(c0, ts[i].tx.txid);
    }
  }

  /** The edges of an absorbed subtree, other than the one to the new root, were there before. */
  lemma AbsorbedEdges(c0: Maps, replaced: seq<Tx>, newTime: int, now: int, t: RbfTree)
    requires Valid(c0) && Absorbed(c0, replaced, newTime, now, t)
    ensures Same(c0.replacedBy, Parents(t), Ids(t) - {t.tx.txid})
    ensures forall x :: x in Ids(t) ==> Listed(c0.prior, x) == Listed(Children(t), x)
  {
    hide Absorbed, Ids, Valid, Parents, Children;
    AbsorbedFrom(c0, replaced, newTime, now, t);
    if t.tx.txid in c0.treeMap {
      OldTreeOwned(c0, t.tx.txid);
    } else {
      NoTreeThere(c0, t.tx.txid);
    }
  }

  lemma PlantedIndexedAt(c0: Maps, c: Maps, replaced: seq<Tx>, newTx: Tx, newTime: int, now: int, tree: RbfTree, x: Txid)
    requires Valid(c0) && ReadyToPlant(c0, c, replaced, newTx, newTime, now, tree) && x in IdsOf(tree.prior)
    ensures x in c.replacedBy && x in Parents(tree) && c.replacedBy[x] == Parents(tree)[x]
    ensures Listed(c0.prior, x) == Listed(Children(tree), x) && x != newTx.txid
  {
    var ts, p := tree.prior, newTx.txid;
    Split(c0, c, replaced, newTx, newTime, now, ts);
    assert ReplacedNow(c0.replacedBy, c.replacedBy, RootIds(ts), p);
    assert Parents(tree) == ParentsOf(p, ts) && Children(tree) == ChildrenOf(ts) + map[p := RootIds(ts)];
    hide *;
    var i := AbsorbedOrigin(c0, replaced, newTime, now, ts, x);
    AbsorbedEdges(c0, replaced, newTime, now, ts[i]);
    MemberEdges(p, ts, i);
    EdgeKeysOf(p, ts);
    PlantedEdge(c0.replacedBy, c.replacedBy, c0.prior, ts, i, p, x);
  }

  lemma PlantedEdge(m0: map<Txid, Txid>, m: map<Txid, Txid>, prior: map<Txid, seq<Txid>>, ts: seq<RbfTree>, i: nat, p: Txid, x: Txid)
    requires DistinctAll(ts) && i < |ts| && x in Ids(ts[i]) && x in IdsOf(ts) && p !in IdsOf(ts)
    requires ReplacedNow(m0, m, RootIds(ts), p) && ts[i].tx.txid in RootIds(ts)
    requires Same(m0, Parents(ts[i]), Ids(ts[i]) - {ts[i].tx.txid})
    requires forall y :: y in Ids(ts[i]) ==> Listed(prior, y) == Listed(Children(ts[i]), y)
    requires ts[i].tx.txid in ParentsOf(p, ts) && ParentsOf(p, ts)[ts[i].tx.txid] == p
    requires Same(ParentsOf(p, ts), Parents(ts[i]), Ids(ts[i]) - {ts[i].tx.txid}) && Same(ChildrenOf(ts), Children(ts[i]), Ids(ts[i]))
    requires ParentsOf(p, ts).Keys == IdsOf(ts) == ChildrenOf(ts).Keys
    ensures x in m && x in ParentsOf(p, ts) && m[x] == ParentsOf(p, ts)[x] && x != p
    ensures Listed(prior, x) == Listed(ChildrenOf(ts) + map[p := RootIds(ts)], x)
  {
    hide DistinctAll, Ids, IdsOf, ParentsOf, ChildrenOf, Parents, Children;
    if x != ts[i].tx.txid && x in RootIds(ts) {
      OnlyOwnRoot(ts, i, x);
      assert false;
    }
  }

  /** Inside a subtree, the only root of the list is its own. */
  lemma OnlyOwnRoot(ts: seq<RbfTree>, i: nat, x: Txid)
    requires DistinctAll(ts) && i < |ts| && x in Ids(ts[i]) && x in RootIds(ts)
    ensures x == ts[i].tx.txid
  {
    var j :| 0 <= j < |ts| && RootIds(ts)[j] == x;
    MemberIds(ts, j);
    if i < j { MembersDisjoint(ts, i, j); }
    if j < i { MembersDisjoint(ts, j, i); }
  }

  lemma PlantedIndexed(c0: Maps, c: Maps, replaced: seq<Tx>, newTx: Tx, newTime: int, now: int, tree: RbfTree, r: Txid)
    requires Valid(c0) && ReadyToPlant(c0, c, replaced, newTx, newTime, now, tree)
    requires r in Planted(c, tree).rbfTrees
    ensures Indexed(Planted(c, tree).replacedBy, Planted(c, tree).prior, Planted(c, tree).rbfTrees[r])
  {
    hide *;
    var ts, p, c' := tree.prior, newTx.txid, Planted(c, tree);
    PlantedParts(c0, c, replaced, newTx, newTime, now, tree);
    Split(c0, c, replaced, newTx, newTime, now, ts);
    if r != p {
      OldTreeOwned(c0, r);
      OtherTree(c0, replaced, newTime, now, ts, r, p);
      StillIndexed(c0, c, tree, r, newTx);
    } else {
      NoTreeThere(c0, p);
      RootNotChild(c0, c, replaced, newTx, newTime, now, tree);
      EdgeKeys(tree);
      RootChildren(tree);
      forall x | x in IdsOf(ts)
        ensures x in c.replacedBy && x in Parents(tree) && c.replacedBy[x] == Parents(tree)[x]
        ensures Listed(c0.prior, x) == Listed(Children(tree), x) && x != p
      {
        PlantedIndexedAt(c0, c, replaced, newTx, newTime, now, tree, x);
      }
      NewTreeIndexed(c0, c, tree, p);
    }
  }

  lemma RootChildren(tree: RbfTree)
    ensures Listed(Children(tree), tree.tx.txid) == RootIds(tree.prior)
  {
  }

  lemma RootNotChild(c0: Maps, c: Maps, replaced: seq<Tx>, newTx: Tx, newTime: int, now: int, tree: RbfTree)
    requires Valid(c0) && ReadyToPlant(c0, c, replaced, newTx, newTime, now, tree)
    ensures newTx.txid !in c.replacedBy
  {
    Split(c0, c, replaced, newTx, newTime, now, tree.prior);
    RootsInside(tree.prior);
  }

  lemma NewTreeIndexed(c0: Maps, c: Maps, tree: RbfTree, p: Txid)
    requires p !in c.replacedBy && p == tree.tx.txid && c.prior == c0.prior
    requires Parents(tree).Keys == IdsOf(tree.prior) && Children(tree).Keys == Ids(tree) == {p} + IdsOf(tree.prior)
    requires Listed(Children(tree), p) == RootIds(tree.prior)
    requires forall x :: x in IdsOf(tree.prior) ==> x in c.replacedBy && x in Parents(tree) && c.replacedBy[x] == Parents(tree)[x]
    requires forall x :: x in IdsOf(tree.prior) ==> Listed(c0.prior, x) == Listed(Children(tree), x) && x != p
    ensures Indexed(Planted(c, tree).replacedBy, Planted(c, tree).prior, tree)
  {
    hide Ids, IdsOf, Parents, Children;
  }

  lemma StillIndexed(c0: Maps, c: Maps, tree: RbfTree, r: Txid, newTx: Tx)
    requires r in c0.rbfTrees && Indexed(c0.replacedBy, c0.prior, c0.rbfTrees[r]) && c.prior == c0.prior
    requires ReplacedNow(c0.replacedBy, c.replacedBy, RootIds(tree.prior), newTx.txid) && tree.tx.txid == newTx.txid
    requires Ids(c0.rbfTrees[r]) !! {newTx.txid} + IdsOf(tree.prior)
    ensures Indexed(Planted(c, tree).replacedBy, Planted(c, tree).prior, c0.rbfTrees[r])
  {
    RootsInside(tree.prior);
    hide Ids, IdsOf, Parents, Children, Mapped;
  }

  lemma PlantedKeys(c0: Maps, c: Maps, replaced: seq<Tx>, newTx: Tx, newTime: int, now: int, tree: RbfTree)
    requires Valid(c0) && ReadyToPlant(c0, c, replaced, newTx, newTime, now, tree)
    ensures KeysMatch(Planted(c, tree))
  {
    hide *;
    var ts, c' := tree.prior, Planted(c, tree);
    PlantedParts(c0, c, replaced, newTx, newTime, now, tree);
    Split(c0, c, replaced, newTx, newTime, now, ts);
    ValidKeys(c0);
    RootsInside(ts);
    forall x | x in IdsOf(ts) ensures x in c0.treeMap || x in RootIds(ts) {
      var i := AbsorbedOrigin(c0, replaced, newTime, now, ts, x);
    }
    KeysPlanted(c0, c, c', newTx, RootIds(ts), IdsOf(ts));
  }

  lemma ValidKeys(c: Maps)
    requires Valid(c)
    ensures KeysMatch(c)
  {
  }

  lemma KeysPlanted(c0: Maps, c: Maps, c': Maps, newTx: Tx, roots: seq<Txid>, ids: set<Txid>)
    requires KeysMatch(c0) && TxsNow(c0.txs, c.txs, newTx, roots) && ReplacedNow(c0.replacedBy, c.replacedBy, roots, newTx.txid)
    requires c.prior == c0.prior && c.expiring == c0.expiring && c'.replacedBy == c.replacedBy && c'.txs == c.txs && c'.expiring == c.expiring
    requires c'.prior.Keys == c.prior.Keys + {newTx.txid}
    requires forall x :: x in c'.treeMap <==> x in {newTx.txid} + ids || x in c0.treeMap
    requires forall x :: x in roots ==> x in ids
    requires forall x :: x in ids ==> x in c0.treeMap || x in roots
    ensures KeysMatch(c')
  {
    forall x ensures x in c'.txs <==> x in c'.treeMap {
      assert x in c0.txs <==> x in c0.treeMap;
      assert x in (set y | y in roots) <==> x in roots;
    }
    assert c'.txs.Keys == c'.treeMap.Keys;
  }

  lemma PlantedValid(c0: Maps, c: Maps, replaced: seq<Tx>, newTx: Tx, newTime: int, now: int, tree: RbfTree)
    requires Valid(c0) && ReadyToPlant(c0, c, replaced, newTx, newTime, now, tree)
    ensures Valid(Planted(c, tree))
  {
    hide SoundTree, Owned, Indexed, Placed, KeysMatch, ReadyToPlant, Planted;
    var c' := Planted(c, tree);
    forall r | r in c'.rbfTrees
      ensures SoundTree(c', r, c'.rbfTrees[r]) && Owned(c'.treeMap, r, c'.rbfTrees[r]) && Indexed(c'.replacedBy, c'.prior, c'.rbfTrees[r])
    {
      PlantedTreesSound(c0, c, replaced, newTx, newTime, now, tree, r);
      PlantedTreesOwned(c0, c, replaced, newTx, newTime, now, tree, r);
      PlantedIndexed(c0, c, replaced, newTx, newTime, now, tree, r);
    }
    forall x | x in c'.treeMap ensures Placed(c', x) {
      PlantedPlaced(c0, c, replaced, newTx, newTime, now, tree, x);
    }
    PlantedKeys(c0, c, replaced, newTx, newTime, now, tree);
  }

  // ---------- what add promises ----------

  ghost function IdsOfTxs(txs: seq<Tx>): set<Txid> {
    set i | 0 <= i < |txs| :: txs[i].txid
  }

  /** The calls that add ignores. */
  ghost predicate Ignored(replacedBy: map<Txid, Txid>, txs: map<Txid, Tx>, replaced: seq<Tx>, newTx: Tx) {
    || replaced == [] || newTx.txid in txs
    || !(exists i :: 0 <= i < |replaced| && replaced[i].txid !in replacedBy)
  }

  lemma IgnoredIs(replacedBy: map<Txid, Txid>, txs: map<Txid, Tx>, replaced: seq<Tx>, newTx: Tx)
    ensures Ignored(replacedBy, txs, replaced, newTx) <==>
            replaced == [] || newTx.txid in txs || !(exists i :: 0 <= i < |replaced| && replaced[i].txid !in replacedBy)
  {
  }

  /** Some transaction of the list does not signal replaceability. */
  ghost predicate AnySilent(replaced: seq<Tx>) {
    exists i :: 0 <= i < |replaced| && !Replaceable(replaced[i])
  }

  lemma NoneSilent(replaced: seq<Tx>)
    ensures replaced[..0] == [] && replaced[..|replaced|] == replaced
    ensures !AnySilent(replaced[..0]) && !SilentInAny([])
  {
  }

  lemma AnySilentStep(replaced: seq<Tx>, i: nat)
    requires i < |replaced|
    ensures AnySilent(replaced[..i + 1]) == (AnySilent(replaced[..i]) || !Signals(replaced[i]))
  {
    SignalsMeans(replaced[i]);
    hide Signals, Replaceable;
    var before, after := replaced[..i], replaced[..i + 1];
    if AnySilent(before) {
      var j :| 0 <= j < |before| && !Replaceable(before[j]);
      assert after[j] == before[j];
    }
    if AnySilent(after) {
      var j :| 0 <= j < |after| && !Replaceable(after[j]);
      assert j < i ==> before[j] == after[j];
    }
    assert after[i] == replaced[i];
  }

  lemma NotIgnored(c: Maps, replaced: seq<Tx>, newTx: Tx)
    requires Valid(c) && !Ignored(c.replacedBy, c.txs, replaced, newTx)
    ensures newTx.txid !in c.treeMap && newTx.txid !in c.txs
    ensures exists i :: 0 <= i < |replaced| && replaced[i].txid !in c.replacedBy
  {
  }

  lemma ListedAsReplaced(replaced: seq<Tx>, x: Txid, replacedBy: map<Txid, Txid>)
    requires x in IdsOfTxs(replaced)
    requires forall j :: 0 <= j < |replaced| ==> replaced[j].txid in replacedBy
    ensures x in replacedBy
  {
  }

  lemma StripKeepsId(tx: Tx)
    ensures Strip(tx).txid == tx.txid
  {
  }

  lemma PlantedIs(c: Maps, c': Maps, tree: RbfTree)
    requires c' == c.(rbfTrees := c.rbfTrees[tree.tx.txid := tree], treeMap := c.treeMap + Mapped(Ids(tree), tree.tx.txid),
                      prior := c.prior[tree.tx.txid := RootIds(tree.prior)])
    ensures c' == Planted(c, tree)
  {
  }

  /** The new transaction is the root of a tree over exactly the subtrees that were not replaced before. */
  ghost predicate Added(c0: Maps, c: Maps, replaced: seq<Tx>, newTx: Tx, now: int) {
    && newTx.txid in c.rbfTrees
    && var tree := c.rbfTrees[newTx.txid];
    && Copies(tree.tx, newTx) && !tree.tx.mined && tree.tx.fullRbf == Some(AnySilent(replaced))
    && tree.time == (if newTx.firstSeen != 0 then newTx.firstSeen else now) && tree.interval == None && !tree.mined
    && RootIds(tree.prior) == Survivors(replaced, c0.replacedBy)
    && (forall i :: 0 <= i < |tree.prior| ==> Absorbed(c0, replaced, tree.time, now, tree.prior[i]))
    && c.rbfTrees == (c0.rbfTrees - (set x | x in RootIds(tree.prior)))[newTx.txid := tree]
    && TxsNow(c0.txs, c.txs, newTx, RootIds(tree.prior)) && c.expiring == c0.expiring
  }

  lemma {:induction false} SomeSurvivor(replaced: seq<Tx>, replacedBy: map<Txid, Txid>, i: nat)
    requires i < |replaced| && replaced[i].txid !in replacedBy
    ensures Survivors(replaced, replacedBy) != []
  {
    if i < |replaced| - 1 { SomeSurvivor(replaced[..|replaced| - 1], replacedBy, i); }
  }

  /** No root of a valid cache is replaced; so a transaction cannot have replaced itself. */
  lemma ReplacedRootInvalid(c: Maps, x: Txid)
    requires x in c.rbfTrees && x in c.replacedBy
    ensures !Valid(c)
  {
    if Valid(c) {
      TreeMapped(c, x);
      UnreplacedIsRoot(c, x);
      OldTreeOwned(c, x);
      assert false;
    }
  }

  lemma AbsorbingStarts(c: Maps, newTx: Tx, newTime: int, now: int)
    requires newTx.txid !in c.txs
    ensures Absorbing(c, c.(txs := c.txs[newTx.txid := newTx]), [], newTx, newTime, now, [])
  {
    assert RootIds([]) == [];
    assert c.rbfTrees == c.rbfTrees - {};
  }

  lemma IdsOfPrefix(replaced: seq<Tx>, i: nat)
    requires i < |replaced|
    ensures replaced[..i + 1] == replaced[..i] + [replaced[i]]
    ensures forall x :: x !in IdsOfTxs(replaced) ==> x != replaced[i].txid && x !in IdsOfTxs(replaced[..i])
  {
    assert replaced[i].txid in IdsOfTxs(replaced);
    forall x | x in IdsOfTxs(replaced[..i]) ensures x in IdsOfTxs(replaced) {
      var j :| 0 <= j < i && replaced[..i][j].txid == x;
      assert replaced[j].txid == x;
    }
  }

  lemma AddedNow(c0: Maps, c: Maps, replaced: seq<Tx>, newTx: Tx, newTime: int, now: int, tree: RbfTree)
    requires Valid(c0) && newTx.txid !in c0.treeMap && Absorbing(c0, c, replaced, newTx, newTime, now, tree.prior)
    requires exists i :: 0 <= i < |replaced| && replaced[i].txid !in c0.replacedBy
    requires newTime == Seen(newTx, now)
    requires tree == RbfTree(Strip(newTx).(fullRbf := Some(AnySilent(replaced))),
                             newTime, None, false, SilentInAny(tree.prior), tree.prior)
    ensures Valid(Planted(c, tree)) && Added(c0, Planted(c, tree), replaced, newTx, now)
  {
    var i :| 0 <= i < |replaced| && replaced[i].txid !in c0.replacedBy;
    SomeSurvivor(replaced, c0.replacedBy, i);
    hide *;
    Split(c0, c, replaced, newTx, newTime, now, tree.prior);
    NoRoots(tree.prior);
    AddedShape(c0, c, replaced, newTx, newTime, now, tree);
    PlantedValid(c0, c, replaced, newTx, newTime, now, tree);
  }

  lemma NoRoots(ts: seq<RbfTree>)
    ensures ts == [] <==> RootIds(ts) == []
  {
  }

  lemma AddedShape(c0: Maps, c: Maps, replaced: seq<Tx>, newTx: Tx, newTime: int, now: int, tree: RbfTree)
    requires newTx.txid !in c0.treeMap && Absorbing(c0, c, replaced, newTx, newTime, now, tree.prior) && tree.prior != []
    requires newTime == Seen(newTx, now)
    requires tree == RbfTree(Strip(newTx).(fullRbf := Some(AnySilent(replaced))),
                             newTime, None, false, SilentInAny(tree.prior), tree.prior)
    ensures ReadyToPlant(c0, c, replaced, newTx, newTime, now, tree) && Added(c0, Planted(c, tree), replaced, newTx, now)
  {
    StripIs(newTx, tree.tx.(fullRbf := None));
    hide Absorbed, DistinctAll, NodesAllRight, FaithfulAll, IdsOf, Survivors, Ids, SilentInAny, Signals, Replaceable;
    assert Copies(tree.tx, newTx);
  }

  /** treeFullRbf after a known transaction's tree is absorbed */
  lemma FullRbfOfTree(c0: Maps, c: Maps, replaced: seq<Tx>, tx: Tx, newTx: Tx, newTime: int, now: int, ts: seq<RbfTree>, t: RbfTree)
    requires Absorbing(c0, c.(replacedBy := c.replacedBy[tx.txid := newTx.txid], rbfTrees := c.rbfTrees - {tx.txid}),
                       replaced + [tx], newTx, newTime, now, ts + [t])
    ensures SilentInAny(ts + [t]) == (SilentInAny(ts) || t.fullRbf || !t.tx.rbf)
  {
    assert NodesAllRight(ts + [t]);
    hide Absorbing;
    SilentAppend(ts, t);
    SilentByFlag(t);
  }

  lemma FullRbfOfLeaf(tx: Tx, newTime: int, now: int, ts: seq<RbfTree>)
    ensures SilentInAny(ts + [Leaf(tx, newTime, now)]) == (SilentInAny(ts) || !Signals(tx))
  {
    SilentAppend(ts, Leaf(tx, newTime, now));
  }

  // ---------- marking and evicting ----------

  lemma ExpiringMayChange(c: Maps, expiring: map<Txid, int>)
    ensures Valid(c) && expiring.Keys <= c.txs.Keys ==> Valid(c.(expiring := expiring))
  {
    if Valid(c) && expiring.Keys <= c.txs.Keys {
      var c' := c.(expiring := expiring);
      assert forall r :: r in c.rbfTrees ==> SoundTree(c', r, c.rbfTrees[r]) == SoundTree(c, r, c.rbfTrees[r]);
      assert forall x :: x in c.treeMap ==> Placed(c', x) == Placed(c, x);
      assert KeysMatch(c');
      hide SoundTree, Placed, Owned, Indexed, KeysMatch;
    }
  }

  /** The tree once one of its transactions is mined. */
  ghost function MinedTree(t: RbfTree, txid: Txid): RbfTree {
    SetTreeMined(t, txid).(mined := true)
  }

  lemma KnownTree(c: Maps, x: Txid)
    requires Valid(c) && x in c.txs
    ensures x in c.treeMap && c.treeMap[x] in c.rbfTrees && x in Ids(c.rbfTrees[c.treeMap[x]])
  {
    ValidKeys(c);
    assert Placed(c, x);
  }

  ghost function MinedNow(c: Maps, x: Txid): Maps
    requires x in c.treeMap && c.treeMap[x] in c.rbfTrees
  {
    var r := c.treeMap[x];
    c.(rbfTrees := c.rbfTrees[r := MinedTree(c.rbfTrees[r], x)])
  }

  lemma MinedTreeIs(c: Maps, x: Txid)
    requires Valid(c) && x in c.treeMap && c.treeMap[x] in c.rbfTrees && x in Ids(c.rbfTrees[c.treeMap[x]])
    ensures var r := c.treeMap[x];
      && MinedTree(c.rbfTrees[r], x) == SetTreeMined(c.rbfTrees[r], x).(mined := true)
      && MinedIds(MinedTree(c.rbfTrees[r], x)) == MinedIds(c.rbfTrees[r]) + {x}
      && MinedTree(c.rbfTrees[r], x).mined && Unmarked(MinedTree(c.rbfTrees[r], x)) == Unmarked(c.rbfTrees[r]).(mined := true)
      && MinedNow(c, x) == c.(rbfTrees := c.rbfTrees[r := MinedTree(c.rbfTrees[r], x)])
  {
    var r := c.treeMap[x];
    OldTreeOwned(c, r);
    hide Valid, Ids;
    MinedMarks(c.rbfTrees[r], x);
    MinedOnlyMarks(c.rbfTrees[r], x);
  }

  lemma MinedValid(c: Maps, x: Txid)
    requires Valid(c) && x in c.treeMap && c.treeMap[x] in c.rbfTrees
    ensures Valid(MinedNow(c, x))
  {
    hide SoundTree, Owned, Indexed, Placed, KeysMatch;
    var r0, c' := c.treeMap[x], MinedNow(c, x);
    forall r | r in c'.rbfTrees
      ensures SoundTree(c', r, c'.rbfTrees[r]) && Owned(c'.treeMap, r, c'.rbfTrees[r]) && Indexed(c'.replacedBy, c'.prior, c'.rbfTrees[r])
    {
      TreeAfterMining(c, c', x, r);
    }
    forall y | y in c'.treeMap ensures Placed(c', y) {
      assert Placed(c, y);
      PlacedAfterMining(c, x, y);
    }
    KeysSame(c, c');
  }

  lemma KeysSame(c: Maps, c': Maps)
    requires KeysMatch(c) && c' == c.(rbfTrees := c'.rbfTrees)
    ensures KeysMatch(c')
  {
  }

  lemma TreeAfterMining(c: Maps, c': Maps, x: Txid, r: Txid)
    requires x in c.treeMap && c.treeMap[x] in c.rbfTrees && c' == MinedNow(c, x) && r in c.rbfTrees
    requires SoundTree(c, r, c.rbfTrees[r]) && Owned(c.treeMap, r, c.rbfTrees[r]) && Indexed(c.replacedBy, c.prior, c.rbfTrees[r])
    ensures SoundTree(c', r, c'.rbfTrees[r]) && Owned(c'.treeMap, r, c'.rbfTrees[r]) && Indexed(c'.replacedBy, c'.prior, c'.rbfTrees[r])
  {
    MinedKeeps(c.rbfTrees[r], x, c.txs);
    hide SetTreeMined;
  }

  lemma PlacedAfterMining(c: Maps, x: Txid, y: Txid)
    requires x in c.treeMap && c.treeMap[x] in c.rbfTrees && Placed(c, y)
    ensures Placed(MinedNow(c, x), y)
  {
    MinedKeeps(c.rbfTrees[c.treeMap[x]], x, c.txs);
    hide SetTreeMined;
  }
}
