/** Replacement trees: their transactions, their edges, and how they are written out and read back. */
module RbfTrees {
  import opened Collections

  type Txid = int

  /** A full transaction. "sequences" are the sequence numbers of its inputs; a firstSeen of 0 is unset. */
  datatype Tx = Tx(txid: Txid, fee: int, vsize: real, value: int, rate: real, sequences: seq<nat>, firstSeen: nat)

  /** A stripped transaction, with the flags the cache adds to it. */
  datatype RbfTx = RbfTx(txid: Txid, fee: int, vsize: real, value: int, rate: real, rbf: bool, mined: bool, fullRbf: Option<bool>)

  datatype RbfTree = RbfTree(tx: RbfTx, time: int, interval: Option<int>, mined: bool, fullRbf: bool, prior: seq<RbfTree>)

  const MAX_BIP125_RBF_SEQUENCE: nat := 0xfffffffe

  /** Explicit signaling of BIP 125: some input has a sequence number below 0xfffffffe. */
  predicate Signals(tx: Tx) {
    exists i :: 0 <= i < |tx.sequences| && tx.sequences[i] < MAX_BIP125_RBF_SEQUENCE
  }

  /** Signaling as the specifications below write it. */
  ghost predicate Replaceable(tx: Tx) {
    exists s :: s in tx.sequences && s < 0xfffffffe
  }

  lemma SignalsMeans(tx: Tx)
    ensures Signals(tx) <==> Replaceable(tx)
  {
    if Signals(tx) {
      var i :| 0 <= i < |tx.sequences| && tx.sequences[i] < MAX_BIP125_RBF_SEQUENCE;
      assert tx.sequences[i] in tx.sequences;
    }
    if Replaceable(tx) {
      var s :| s in tx.sequences && s < 0xfffffffe;
      var i :| 0 <= i < |tx.sequences| && tx.sequences[i] == s;
    }
  }

  function Strip(tx: Tx): RbfTx {
    RbfTx(tx.txid, tx.fee, tx.vsize, tx.value, tx.rate, Signals(tx), false, None)
  }

  /** A node's transaction has the fields of the full one, and its rbf flag says whether that signals. */
  ghost predicate Copies(n: RbfTx, tx: Tx) {
    n.txid == tx.txid && n.fee == tx.fee && n.vsize == tx.vsize && n.value == tx.value && n.rate == tx.rate && n.rbf == Replaceable(tx)
  }

  /** Stripping copies the fields, sets neither of the other flags, and is the only way to do so. */
  lemma StripIs(tx: Tx, n: RbfTx)
    ensures n == Strip(tx) <==> Copies(n, tx) && !n.mined && n.fullRbf == None
  {
    SignalsMeans(tx);
    hide Signals, Replaceable;
  }

  // ---------- the transactions of a tree ----------

  ghost function Ids(t: RbfTree): set<Txid>
    decreases t, 1
  {
    {t.tx.txid} + IdsOf(t.prior)
  }

  ghost function IdsOf(ts: seq<RbfTree>): set<Txid>
    decreases ts, 0
  {
    if ts == [] then {} else Ids(ts[0]) + IdsOf(ts[1..])
  }

  /** No transaction occurs twice. */
  ghost predicate Distinct(t: RbfTree)
    decreases t, 1
  {
    t.tx.txid !in IdsOf(t.prior) && DistinctAll(t.prior)
  }

  ghost predicate DistinctAll(ts: seq<RbfTree>)
    decreases ts, 0
  {
    ts == [] || (Distinct(ts[0]) && DistinctAll(ts[1..]) && Ids(ts[0]) !! IdsOf(ts[1..]))
  }

  function RootIds(ts: seq<RbfTree>): seq<Txid> {
    seq(|ts|, i requires 0 <= i < |ts| => ts[i].tx.txid)
  }

  // ---------- the edges of a tree ----------

  /** Each transaction of the tree but its root, with the one that replaced it. */
  ghost function Parents(t: RbfTree): map<Txid, Txid>
    decreases t, 1
  {
    ParentsOf(t.tx.txid, t.prior)
  }

  ghost function ParentsOf(p: Txid, ts: seq<RbfTree>): map<Txid, Txid>
    decreases ts, 0
  {
    if ts == [] then map[] else ParentsOf(p, ts[1..]) + Parents(ts[0]) + map[ts[0].tx.txid := p]
  }

  /** Each transaction of the tree, with those it replaced. */
  ghost function Children(t: RbfTree): map<Txid, seq<Txid>>
    decreases t, 1
  {
    ChildrenOf(t.prior) + map[t.tx.txid := RootIds(t.prior)]
  }

  ghost function ChildrenOf(ts: seq<RbfTree>): map<Txid, seq<Txid>>
    decreases ts, 0
  {
    if ts == [] then map[] else ChildrenOf(ts[1..]) + Children(ts[0])
  }

  lemma {:induction false} EdgeKeys(t: RbfTree)
    ensures Parents(t).Keys == IdsOf(t.prior) && Children(t).Keys == Ids(t)
    decreases t, 1
  {
    EdgeKeysOf(t.tx.txid, t.prior);
  }

  lemma {:induction false} EdgeKeysOf(p: Txid, ts: seq<RbfTree>)
    ensures ParentsOf(p, ts).Keys == IdsOf(ts) == ChildrenOf(ts).Keys
    decreases ts, 0
  {
    if ts != [] {
      EdgeKeys(ts[0]);
      EdgeKeysOf(p, ts[1..]);
    }
  }

  // ---------- a list of trees, one by one ----------

  ghost predicate Same<V>(m: map<Txid, V>, m': map<Txid, V>, on: set<Txid>) {
    forall x :: x in on ==> (x in m <==> x in m') && (x in m ==> m[x] == m'[x])
  }

  lemma {:induction false} MemberIds(ts: seq<RbfTree>, i: nat)
    requires i < |ts|
    ensures ts[i].tx.txid in Ids(ts[i]) && Ids(ts[i]) <= IdsOf(ts)
  {
    if i > 0 { MemberIds(ts[1..], i - 1); }
  }

  lemma {:induction false} IdsOfMember(ts: seq<RbfTree>, x: Txid) returns (i: nat)
    requires x in IdsOf(ts)
    ensures i < |ts| && x in Ids(ts[i])
  {
    if x in Ids(ts[0]) {
      i := 0;
    } else {
      var j := IdsOfMember(ts[1..], x);
      i := j + 1;
    }
  }

  lemma {:induction false} MembersDisjoint(ts: seq<RbfTree>, i: nat, j: nat)
    requires DistinctAll(ts) && i < j < |ts|
    ensures Ids(ts[i]) !! Ids(ts[j])
  {
    if i > 0 {
      MembersDisjoint(ts[1..], i - 1, j - 1);
    } else {
      MemberIds(ts[1..], j - 1);
    }
  }

  lemma {:induction false} MemberDistinct(ts: seq<RbfTree>, i: nat)
    requires DistinctAll(ts) && i < |ts|
    ensures Distinct(ts[i])
  {
    if i > 0 { MemberDistinct(ts[1..], i - 1); }
  }

  /** Inside a subtree, the edges of the whole are the edges of the subtree. */
  lemma {:induction false} MemberEdges(p: Txid, ts: seq<RbfTree>, i: nat)
    requires DistinctAll(ts) && i < |ts|
    ensures ts[i].tx.txid in ParentsOf(p, ts) && ParentsOf(p, ts)[ts[i].tx.txid] == p
    ensures Same(ParentsOf(p, ts), Parents(ts[i]), Ids(ts[i]) - {ts[i].tx.txid})
    ensures Same(ChildrenOf(ts), Children(ts[i]), Ids(ts[i]))
  {
    if i == 0 {
      FirstEdges(p, ts);
    } else {
      MemberEdges(p, ts[1..], i - 1);
      RestEdges(p, ts);
      MemberIds(ts[1..], i - 1);
    }
  }

  lemma FirstEdges(p: Txid, ts: seq<RbfTree>)
    requires DistinctAll(ts) && ts != []
    ensures ts[0].tx.txid in ParentsOf(p, ts) && ParentsOf(p, ts)[ts[0].tx.txid] == p
    ensures Same(ParentsOf(p, ts), Parents(ts[0]), Ids(ts[0]) - {ts[0].tx.txid})
    ensures Same(ChildrenOf(ts), Children(ts[0]), Ids(ts[0]))
  {
    EdgeKeys(ts[0]);
    EdgeKeysOf(p, ts[1..]);
  }

  lemma RestEdges(p: Txid, ts: seq<RbfTree>)
    requires DistinctAll(ts) && ts != []
    ensures Same(ParentsOf(p, ts), ParentsOf(p, ts[1..]), IdsOf(ts[1..]))
    ensures Same(ChildrenOf(ts), ChildrenOf(ts[1..]), IdsOf(ts[1..]))
  {
    EdgeKeys(ts[0]);
    EdgeKeysOf(p, ts[1..]);
  }

  /** "a" was replaced by "b", according to the edge maps of one tree. */
  ghost predicate ParentEdge(parents: map<Txid, Txid>, a: Txid, b: Txid) {
    a in parents && parents[a] == b
  }

  ghost predicate ChildEdge(children: map<Txid, seq<Txid>>, a: Txid, b: Txid) {
    b in children && a in children[b]
  }

  /** The two edge maps say the same thing. */
  lemma {:induction false} EdgesSymmetric(t: RbfTree, a: Txid, b: Txid)
    requires Distinct(t)
    ensures ParentEdge(Parents(t), a, b) <==> ChildEdge(Children(t), a, b)
    decreases t, 1
  {
    EdgesSymmetricOf(t.tx.txid, t.prior, a, b);
    EdgeKeysOf(t.tx.txid, t.prior);
  }

  lemma {:induction false} EdgesSymmetricOf(p: Txid, ts: seq<RbfTree>, a: Txid, b: Txid)
    requires DistinctAll(ts) && p !in IdsOf(ts)
    ensures ParentEdge(ParentsOf(p, ts), a, b) <==> ((b == p && a in RootIds(ts)) || ChildEdge(ChildrenOf(ts), a, b))
    decreases ts, 0
  {
    if ts != [] {
      var first, rest := ts[0], ts[1..];
      EdgesSymmetric(first, a, b);
      EdgesSymmetricOf(p, rest, a, b);
      RootIdsCons(ts);
      EdgeKeys(first);
      EdgeKeysOf(p, rest);
      if b in Children(first) { ChildrenInside(first, b); }
      if b in ChildrenOf(rest) { ChildrenInsideOf(rest, b); }
      RootsInside(rest);
      EdgesCombine(Parents(first), ParentsOf(p, rest), Children(first), ChildrenOf(rest), first.tx.txid, p, RootIds(rest), a, b);
    }
  }

  /** The edges of a tree joined to those of a list of trees it shares nothing with. */
  lemma EdgesCombine(m1: map<Txid, Txid>, m2: map<Txid, Txid>, c1: map<Txid, seq<Txid>>, c2: map<Txid, seq<Txid>>,
                     f: Txid, p: Txid, roots: seq<Txid>, a: Txid, b: Txid)
    requires m1.Keys + {f} == c1.Keys && f !in m1 && m2.Keys == c2.Keys && c1.Keys !! c2.Keys && p !in c1 && p !in c2
    requires b in c1 ==> forall x :: x in c1[b] ==> x in m1
    requires b in c2 ==> forall x :: x in c2[b] ==> x in m2
    requires forall x :: x in roots ==> x in m2
    requires ParentEdge(m1, a, b) <==> ChildEdge(c1, a, b)
    requires ParentEdge(m2, a, b) <==> ((b == p && a in roots) || ChildEdge(c2, a, b))
    ensures ParentEdge(m2 + m1 + map[f := p], a, b) <==> ((b == p && a in [f] + roots) || ChildEdge(c2 + c1, a, b))
  {
    if a == f {
      assert !ChildEdge(c2, a, b) && !ChildEdge(c1, a, b);
    }
  }

  lemma {:induction false} ChildrenInside(t: RbfTree, b: Txid)
    requires b in Children(t)
    ensures forall a :: a in Children(t)[b] ==> a in IdsOf(t.prior)
    decreases t, 1
  {
    if b == t.tx.txid {
      RootsInside(t.prior);
    } else {
      ChildrenInsideOf(t.prior, b);
    }
  }

  lemma RootsInside(ts: seq<RbfTree>)
    ensures forall a :: a in RootIds(ts) ==> a in IdsOf(ts)
  {
    forall a | a in RootIds(ts) ensures a in IdsOf(ts) {
      var i :| 0 <= i < |ts| && RootIds(ts)[i] == a;
      MemberIds(ts, i);
    }
  }

  lemma {:induction false} ChildrenInsideOf(ts: seq<RbfTree>, b: Txid)
    requires b in ChildrenOf(ts)
    ensures forall a :: a in ChildrenOf(ts)[b] ==> a in IdsOf(ts)
    decreases ts, 0
  {
    if b in Children(ts[0]) {
      ChildrenInside(ts[0], b);
    } else {
      ChildrenInsideOf(ts[1..], b);
    }
  }

  lemma {:induction false} IdsAppend(ts: seq<RbfTree>, t: RbfTree)
    ensures IdsOf(ts + [t]) == IdsOf(ts) + Ids(t)
  {
    if ts == [] {
      assert ts + [t] == [t];
      assert IdsOf([t][1..]) == {};
    } else {
      assert (ts + [t])[1..] == ts[1..] + [t];
      IdsAppend(ts[1..], t);
    }
  }

  lemma {:induction false} DistinctAppend(ts: seq<RbfTree>, t: RbfTree)
    requires DistinctAll(ts) && Distinct(t) && Ids(t) !! IdsOf(ts)
    ensures DistinctAll(ts + [t])
  {
    if ts == [] {
      assert (ts + [t])[1..] == [];
    } else {
      assert (ts + [t])[1..] == ts[1..] + [t];
      DistinctAppend(ts[1..], t);
      IdsAppend(ts[1..], t);
    }
  }

  // ---------- signaling ----------

  /** Some transaction of the tree does not signal replaceability. */
  ghost predicate SilentIn(t: RbfTree)
    decreases t, 1
  {
    !t.tx.rbf || SilentInAny(t.prior)
  }

  ghost predicate SilentInAny(ts: seq<RbfTree>)
    decreases ts, 0
  {
    ts != [] && (SilentIn(ts[0]) || SilentInAny(ts[1..]))
  }

  /** Each tree of the list was replaced at "time": its own time and its interval lead there. */
  ghost predicate ReplacedAt(time: int, ts: seq<RbfTree>) {
    ts == [] || (ts[0].interval.Some? && ts[0].time + ts[0].interval.value == time && ReplacedAt(time, ts[1..]))
  }

  lemma {:induction false} ReplacedAtMember(time: int, ts: seq<RbfTree>, i: nat)
    requires ReplacedAt(time, ts) && i < |ts|
    ensures ts[i].interval.Some? && ts[i].time + ts[i].interval.value == time
  {
    if i > 0 { ReplacedAtMember(time, ts[1..], i - 1); }
  }

  lemma {:induction false} ReplacedAtAll(time: int, ts: seq<RbfTree>)
    requires forall i :: 0 <= i < |ts| ==> ts[i].interval.Some? && ts[i].time + ts[i].interval.value == time
    ensures ReplacedAt(time, ts)
  {
    if ts != [] { ReplacedAtAll(time, ts[1..]); }
  }

  /** fullRbf marks a replacement of which some transaction strictly below did not signal; a transaction
      that replaced nothing is marked when it does not signal itself. What a node replaced, it replaced at its time. */
  ghost predicate NodesRight(t: RbfTree)
    decreases t, 1
  {
    && t.fullRbf == (if t.prior == [] then !t.tx.rbf else SilentInAny(t.prior))
    && ReplacedAt(t.time, t.prior)
    && NodesAllRight(t.prior)
  }

  ghost predicate NodesAllRight(ts: seq<RbfTree>)
    decreases ts, 0
  {
    ts == [] || (NodesRight(ts[0]) && NodesAllRight(ts[1..]))
  }

  lemma SilentByFlag(t: RbfTree)
    requires NodesRight(t)
    ensures SilentIn(t) == (t.fullRbf || !t.tx.rbf)
  {
  }

  lemma {:induction false} SilentAppend(ts: seq<RbfTree>, t: RbfTree)
    ensures SilentInAny(ts + [t]) == (SilentInAny(ts) || SilentIn(t))
    ensures NodesAllRight(ts + [t]) == (NodesAllRight(ts) && NodesRight(t))
  {
    if ts == [] {
      assert (ts + [t])[1..] == [];
    } else {
      assert (ts + [t])[1..] == ts[1..] + [t];
      SilentAppend(ts[1..], t);
    }
  }

  /** The nodes carry what their transactions say, and the time each was first seen if that is set. */
  ghost predicate Faithful(t: RbfTree, txs: map<Txid, Tx>)
    decreases t, 1
  {
    && t.tx.txid in txs && Copies(t.tx, txs[t.tx.txid])
    && (txs[t.tx.txid].firstSeen != 0 ==> t.time == txs[t.tx.txid].firstSeen)
    && FaithfulAll(t.prior, txs)
  }

  ghost predicate FaithfulAll(ts: seq<RbfTree>, txs: map<Txid, Tx>)
    decreases ts, 0
  {
    ts == [] || (Faithful(ts[0], txs) && FaithfulAll(ts[1..], txs))
  }

  lemma {:induction false} FaithfulSame(t: RbfTree, txs: map<Txid, Tx>, txs': map<Txid, Tx>)
    requires Faithful(t, txs) && Same(txs, txs', Ids(t))
    ensures Faithful(t, txs')
    decreases t, 1
  {
    FaithfulAllSame(t.prior, txs, txs');
  }

  lemma {:induction false} FaithfulAllSame(ts: seq<RbfTree>, txs: map<Txid, Tx>, txs': map<Txid, Tx>)
    requires FaithfulAll(ts, txs) && Same(txs, txs', IdsOf(ts))
    ensures FaithfulAll(ts, txs')
    decreases ts, 0
  {
    if ts != [] {
      FaithfulSame(ts[0], txs, txs');
      FaithfulAllSame(ts[1..], txs, txs');
    }
  }

  lemma {:induction false} FaithfulAppend(ts: seq<RbfTree>, t: RbfTree, txs: map<Txid, Tx>)
    requires FaithfulAll(ts, txs) && Faithful(t, txs)
    ensures FaithfulAll(ts + [t], txs)
  {
    if ts == [] {
      assert (ts + [t])[1..] == [];
    } else {
      assert (ts + [t])[1..] == ts[1..] + [t];
      FaithfulAppend(ts[1..], t, txs);
    }
  }

  /** "v" is a node of the tree "t". */
  ghost predicate Node(t: RbfTree, v: RbfTree)
    decreases t
  {
    v == t || exists i :: 0 <= i < |t.prior| && Node(t.prior[i], v)
  }

  lemma {:induction false} NodesRightMember(ts: seq<RbfTree>, i: nat)
    requires NodesAllRight(ts) && i < |ts|
    ensures NodesRight(ts[i])
  {
    if i > 0 { NodesRightMember(ts[1..], i - 1); }
  }

  lemma {:induction false} FaithfulMember(ts: seq<RbfTree>, txs: map<Txid, Tx>, i: nat)
    requires FaithfulAll(ts, txs) && i < |ts|
    ensures Faithful(ts[i], txs)
  {
    if i > 0 { FaithfulMember(ts[1..], txs, i - 1); }
  }

  /** What holds of all nodes holds of each. */
  lemma {:induction false} NodeRight(t: RbfTree, v: RbfTree, txs: map<Txid, Tx>)
    requires NodesRight(t) && Faithful(t, txs) && Node(t, v)
    ensures NodesRight(v) && Faithful(v, txs)
    decreases t
  {
    hide Replaceable;
    if v != t {
      var i :| 0 <= i < |t.prior| && Node(t.prior[i], v);
      NodesRightMember(t.prior, i);
      FaithfulMember(t.prior, txs, i);
      NodeRight(t.prior[i], v, txs);
    }
  }

  // ---------- marking a transaction as mined ----------

  function SetTreeMined(t: RbfTree, txid: Txid): RbfTree
    decreases t, 1
  {
    if t.tx.txid == txid then t.(tx := t.tx.(mined := true)) else t.(prior := SetAllMined(t.prior, txid))
  }

  function SetAllMined(ts: seq<RbfTree>, txid: Txid): (r: seq<RbfTree>)
    ensures |r| == |ts|
    decreases ts, 0
  {
    if ts == [] then [] else [SetTreeMined(ts[0], txid)] + SetAllMined(ts[1..], txid)
  }

  /** Marking keeps everything the indexes depend on. */
  lemma {:induction false} MinedKeeps(t: RbfTree, txid: Txid, txs: map<Txid, Tx>)
    ensures var t' := SetTreeMined(t, txid);
      && t'.tx.txid == t.tx.txid && Ids(t') == Ids(t) && Distinct(t') == Distinct(t)
      && Parents(t') == Parents(t) && Children(t') == Children(t)
      && SilentIn(t') == SilentIn(t) && NodesRight(t') == NodesRight(t) && Faithful(t', txs) == Faithful(t, txs)
      && t'.tx.rbf == t.tx.rbf && t'.fullRbf == t.fullRbf && t'.time == t.time && t'.interval == t.interval
    decreases t, 1
  {
    hide Replaceable;
    if t.tx.txid != txid {
      AllMinedKeeps(t.tx.txid, t.time, t.prior, txid, txs);
    }
  }

  lemma {:induction false} AllMinedKeeps(p: Txid, time: int, ts: seq<RbfTree>, txid: Txid, txs: map<Txid, Tx>)
    ensures var ts' := SetAllMined(ts, txid);
      && RootIds(ts') == RootIds(ts) && IdsOf(ts') == IdsOf(ts) && DistinctAll(ts') == DistinctAll(ts)
      && ParentsOf(p, ts') == ParentsOf(p, ts) && ChildrenOf(ts') == ChildrenOf(ts)
      && SilentInAny(ts') == SilentInAny(ts) && NodesAllRight(ts') == NodesAllRight(ts) && FaithfulAll(ts', txs) == FaithfulAll(ts, txs)
      && ReplacedAt(time, ts') == ReplacedAt(time, ts)
    decreases ts, 0
  {
    if ts != [] {
      MinedKeeps(ts[0], txid, txs);
      AllMinedKeeps(p, time, ts[1..], txid, txs);
      var ts' := SetAllMined(ts, txid);
      assert ts'[0] == SetTreeMined(ts[0], txid) && ts'[1..] == SetAllMined(ts[1..], txid);
      RootIdsCons(ts);
      RootIdsCons(ts');
    }
  }

  /** The transactions marked as mined. */
  ghost function MinedIds(t: RbfTree): set<Txid>
    decreases t, 1
  {
    (if t.tx.mined then {t.tx.txid} else {}) + MinedIdsOf(t.prior)
  }

  ghost function MinedIdsOf(ts: seq<RbfTree>): set<Txid>
    decreases ts, 0
  {
    if ts == [] then {} else MinedIds(ts[0]) + MinedIdsOf(ts[1..])
  }

  /** Marking adds exactly the one transaction. */
  lemma {:induction false} MinedMarks(t: RbfTree, txid: Txid)
    requires Distinct(t)
    ensures MinedIds(SetTreeMined(t, txid)) == MinedIds(t) + if txid in Ids(t) then {txid} else {}
    decreases t, 1
  {
    if t.tx.txid != txid {
      AllMinedMarks(t.prior, txid);
    }
  }

  lemma {:induction false} AllMinedMarks(ts: seq<RbfTree>, txid: Txid)
    requires DistinctAll(ts)
    ensures MinedIdsOf(SetAllMined(ts, txid)) == MinedIdsOf(ts) + if txid in IdsOf(ts) then {txid} else {}
    decreases ts, 0
  {
    if ts != [] {
      MinedMarks(ts[0], txid);
      AllMinedMarks(ts[1..], txid);
      var ts' := SetAllMined(ts, txid);
      assert ts'[0] == SetTreeMined(ts[0], txid) && ts'[1..] == SetAllMined(ts[1..], txid);
    }
  }

  /** The tree without any such marks. */
  ghost function Unmarked(t: RbfTree): RbfTree
    decreases t, 1
  {
    t.(tx := t.tx.(mined := false), prior := UnmarkedAll(t.prior))
  }

  ghost function UnmarkedAll(ts: seq<RbfTree>): seq<RbfTree>
    decreases ts, 0
  {
    if ts == [] then [] else [Unmarked(ts[0])] + UnmarkedAll(ts[1..])
  }

  /** Marking changes nothing but marks. */
  lemma {:induction false} MinedOnlyMarks(t: RbfTree, txid: Txid)
    ensures Unmarked(SetTreeMined(t, txid)) == Unmarked(t)
    decreases t, 1
  {
    if t.tx.txid != txid {
      AllMinedOnlyMarks(t.prior, txid);
    }
  }

  lemma {:induction false} AllMinedOnlyMarks(ts: seq<RbfTree>, txid: Txid)
    ensures UnmarkedAll(SetAllMined(ts, txid)) == UnmarkedAll(ts)
    decreases ts, 0
  {
    if ts != [] {
      MinedOnlyMarks(ts[0], txid);
      AllMinedOnlyMarks(ts[1..], txid);
      var ts' := SetAllMined(ts, txid);
      assert ts'[0] == SetTreeMined(ts[0], txid) && ts'[1..] == SetAllMined(ts[1..], txid);
    }
  }

  lemma RootIdsCons(ts: seq<RbfTree>)
    requires ts != []
    ensures RootIds(ts) == [ts[0].tx.txid] + RootIds(ts[1..])
  {
  }

  // ---------- dumps ----------

  /** What is written out for one node: its children by identifier only. */
  datatype Entry = Entry(txMined: bool, time: int, interval: Option<int>, mined: bool, fullRbf: bool, prior: seq<Txid>)

  function EntryOf(t: RbfTree): Entry {
    Entry(t.tx.mined, t.time, t.interval, t.mined, t.fullRbf, RootIds(t.prior))
  }

  function ExportTree(t: RbfTree, deflated: map<Txid, Entry>): map<Txid, Entry>
    decreases t, 1
  {
    ExportAll(t.prior, deflated[t.tx.txid := EntryOf(t)])
  }

  function ExportAll(ts: seq<RbfTree>, deflated: map<Txid, Entry>): map<Txid, Entry>
    decreases ts, 0
  {
    if ts == [] then deflated else ExportAll(ts[1..], ExportTree(ts[0], deflated))
  }

  /** "d" holds the entry of every node of the tree. */
  ghost predicate Dumps(d: map<Txid, Entry>, t: RbfTree)
    decreases t, 1
  {
    t.tx.txid in d && d[t.tx.txid] == EntryOf(t) && DumpsAll(d, t.prior)
  }

  ghost predicate DumpsAll(d: map<Txid, Entry>, ts: seq<RbfTree>)
    decreases ts, 0
  {
    ts == [] || (Dumps(d, ts[0]) && DumpsAll(d, ts[1..]))
  }

  lemma {:induction false} DumpsSame(d: map<Txid, Entry>, d': map<Txid, Entry>, t: RbfTree)
    requires Dumps(d, t) && Same(d, d', Ids(t))
    ensures Dumps(d', t)
    decreases t, 1
  {
    DumpsAllSame(d, d', t.prior);
  }

  lemma {:induction false} DumpsAllSame(d: map<Txid, Entry>, d': map<Txid, Entry>, ts: seq<RbfTree>)
    requires DumpsAll(d, ts) && Same(d, d', IdsOf(ts))
    ensures DumpsAll(d', ts)
    decreases ts, 0
  {
    if ts != [] {
      DumpsSame(d, d', ts[0]);
      DumpsAllSame(d, d', ts[1..]);
    }
  }

  /** Exporting writes the entries of exactly the tree's transactions. */
  lemma {:induction false} ExportWrites(t: RbfTree, d: map<Txid, Entry>)
    requires Distinct(t)
    ensures var d' := ExportTree(t, d);
      d'.Keys == d.Keys + Ids(t) && Dumps(d', t) && forall x :: x in d && x !in Ids(t) ==> d'[x] == d[x]
    decreases t, 1
  {
    var d1 := d[t.tx.txid := EntryOf(t)];
    ExportAllWrites(t.prior, d1);
  }

  lemma {:induction false} ExportAllWrites(ts: seq<RbfTree>, d: map<Txid, Entry>)
    requires DistinctAll(ts)
    ensures var d' := ExportAll(ts, d);
      d'.Keys == d.Keys + IdsOf(ts) && DumpsAll(d', ts) && forall x :: x in d && x !in IdsOf(ts) ==> d'[x] == d[x]
    decreases ts, 0
  {
    if ts != [] {
      var d1 := ExportTree(ts[0], d);
      ExportWrites(ts[0], d);
      ExportAllWrites(ts[1..], d1);
      DumpsSame(d1, ExportAll(ts, d), ts[0]);
    }
  }

  // ---------- what a dump forgets ----------

  /** The tree-level mined flags and the transactions' own fullRbf are not read back. */
  ghost function Normalized(t: RbfTree): RbfTree
    decreases t, 1
  {
    t.(tx := t.tx.(fullRbf := None), mined := false, prior := NormalizedAll(t.prior))
  }

  ghost function NormalizedAll(ts: seq<RbfTree>): (r: seq<RbfTree>)
    ensures |r| == |ts|
    decreases ts, 0
  {
    if ts == [] then [] else [Normalized(ts[0])] + NormalizedAll(ts[1..])
  }

  lemma {:induction false} NormalizedKeeps(t: RbfTree, txs: map<Txid, Tx>)
    ensures var t' := Normalized(t);
      && t'.tx.txid == t.tx.txid && Ids(t') == Ids(t) && Distinct(t') == Distinct(t)
      && Parents(t') == Parents(t) && Children(t') == Children(t)
      && SilentIn(t') == SilentIn(t) && NodesRight(t') == NodesRight(t)
      && (Faithful(t, txs) ==> Faithful(t', txs)) && t'.tx.rbf == t.tx.rbf && t'.fullRbf == t.fullRbf
      && t'.time == t.time && t'.interval == t.interval
    decreases t, 1
  {
    hide Replaceable;
    NormalizedAllKeeps(t.tx.txid, t.time, t.prior, txs);
  }

  lemma {:induction false} NormalizedAllKeeps(p: Txid, time: int, ts: seq<RbfTree>, txs: map<Txid, Tx>)
    ensures var ts' := NormalizedAll(ts);
      && RootIds(ts') == RootIds(ts) && IdsOf(ts') == IdsOf(ts) && DistinctAll(ts') == DistinctAll(ts)
      && ParentsOf(p, ts') == ParentsOf(p, ts) && ChildrenOf(ts') == ChildrenOf(ts)
      && SilentInAny(ts') == SilentInAny(ts) && NodesAllRight(ts') == NodesAllRight(ts)
      && (FaithfulAll(ts, txs) ==> FaithfulAll(ts', txs)) && ReplacedAt(time, ts') == ReplacedAt(time, ts)
    decreases ts, 0
  {
    if ts != [] {
      NormalizedKeeps(ts[0], txs);
      NormalizedAllKeeps(p, time, ts[1..], txs);
      var ts' := NormalizedAll(ts);
      assert ts'[0] == Normalized(ts[0]) && ts'[1..] == NormalizedAll(ts[1..]);
      RootIdsCons(ts);
      RootIdsCons(ts');
    }
  }
}
