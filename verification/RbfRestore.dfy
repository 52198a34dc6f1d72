/** Writing the cache out and reading it back. */
module RbfRestore {
  import opened Collections
  import opened RbfTrees
  import opened RbfIndex
  import opened RbfRemoval

  /** One exported tree: the entries of its nodes. Entries kept in the external store also carry their key. */
  datatype Dump = Dump(root: Txid, key: Option<Txid>, entries: map<Txid, Entry>)

  ghost predicate Dumped(c: Maps, d: Dump) {
    d.root in c.rbfTrees && Dumps(d.entries, c.rbfTrees[d.root])
  }

  /** Dumps of the trees rooted in "roots", each once, in some order. */
  ghost predicate DumpsOf(c: Maps, ds: seq<Dump>, roots: set<Txid>) {
    && (forall i :: 0 <= i < |ds| ==> Dumped(c, ds[i]))
    && (forall i, j :: 0 <= i < j < |ds| ==> ds[i].root != ds[j].root)
    && Roots(ds) == roots
  }

  ghost function Roots(ds: seq<Dump>): set<Txid> {
    set i | 0 <= i < |ds| :: ds[i].root
  }

  lemma DumpsNothing(c: Maps)
    ensures DumpsOf(c, [], {})
  {
    assert Roots([]) == {};
  }

  lemma DumpsOneMore(c: Maps, ds: seq<Dump>, roots: set<Txid>, d: Dump)
    requires DumpsOf(c, ds, roots) && Dumped(c, d) && d.root !in roots
    ensures DumpsOf(c, ds + [d], roots + {d.root})
  {
    var more := ds + [d];
    assert more[..|ds|] == ds && more[..|ds| + 1] == more;
    RootsStep(more, |ds|);
    forall i, j | 0 <= i < j < |more| ensures more[i].root != more[j].root {
      assert ds[i].root in Roots(ds);
    }
    hide Roots, Dumped;
  }

  lemma NextDump(c: Maps, ds: seq<Dump>, roots: set<Txid>, i: nat)
    requires DumpsOf(c, ds, roots) && i < |ds|
    ensures Dumped(c, ds[i]) && ds[i].root in c.rbfTrees && Dumps(ds[i].entries, c.rbfTrees[ds[i].root])
    ensures Roots(ds[..i + 1]) == Roots(ds[..i]) + {ds[i].root} && ds[i].root !in Roots(ds[..i])
  {
    hide Roots, Dumps;
    RootsStep(ds, i);
  }

  lemma RootsStep(ds: seq<Dump>, i: nat)
    requires i < |ds|
    ensures Roots(ds[..i + 1]) == Roots(ds[..i]) + {ds[i].root}
    ensures (forall j :: 0 <= j < i ==> ds[j].root != ds[i].root) ==> ds[i].root !in Roots(ds[..i])
  {
    assert ds[..i + 1][i] == ds[i];
    forall x | x in Roots(ds[..i]) ensures x in Roots(ds[..i + 1]) {
      var j :| 0 <= j < i && ds[..i][j].root == x;
      assert ds[..i + 1][j].root == x;
    }
    forall x | x in Roots(ds[..i + 1]) ensures x in Roots(ds[..i]) || x == ds[i].root {
      var j :| 0 <= j < i + 1 && ds[..i + 1][j].root == x;
      assert j < i ==> ds[..i][j].root == x;
    }
  }

  lemma ExportedTree(c: Maps, r: Txid)
    requires Valid(c) && r in c.rbfTrees
    ensures Dumped(c, Dump(r, None, ExportTree(c.rbfTrees[r], map[])))
  {
    OldTreeOwned(c, r);
    hide Valid, Ids;
    ExportWrites(c.rbfTrees[r], map[]);
  }

  lemma NoRootsYet(ds: seq<Dump>)
    ensures ds[..0] == [] && Roots(ds[..0]) == {}
  {
  }

  /** All trees are read, and every saved expiry belongs to a transaction that was read. */
  lemma LoadedAll(c: Maps, ds: seq<Dump>, expiring: map<Txid, int>)
    requires Valid(c) && DumpsOf(c, ds, c.rbfTrees.Keys) && expiring == c.expiring
    ensures Roots(ds[..|ds|]) == c.rbfTrees.Keys
    ensures map[] + (map x | x in expiring && x in c.txs :: expiring[x]) == expiring
    ensures Restored(c, c.rbfTrees.Keys).txs == c.txs && Restored(c, c.rbfTrees.Keys).expiring == map[]
  {
    hide Valid, Roots, Dumped, Placed, SoundTree, Owned, Indexed;
    assert ds[..|ds|] == ds;
    ValidKeys(c);
  }

  // ---------- importing one tree ----------

  /** Everything the import of a dumped tree needs in order to restore it. */
  ghost predicate Restorable(txs: map<Txid, Tx>, treeMap: map<Txid, Txid>, t: RbfTree) {
    Distinct(t) && Faithful(t, txs) && Ids(t) !! treeMap.Keys
  }

  lemma RestorableParts(txs: map<Txid, Tx>, treeMap: map<Txid, Txid>, t: RbfTree)
    requires Restorable(txs, treeMap, t)
    ensures t.tx.txid in txs && t.tx.txid !in treeMap && DistinctAll(t.prior)
    ensures Strip(txs[t.tx.txid]).(mined := t.tx.mined) == t.tx.(fullRbf := None)
    ensures forall i :: 0 <= i < |t.prior| ==> Restorable(txs, treeMap, t.prior[i])
  {
    StripIs(txs[t.tx.txid], t.tx.(mined := false, fullRbf := None));
    hide Signals, Replaceable;
    forall i | 0 <= i < |t.prior| ensures Restorable(txs, treeMap, t.prior[i]) {
      FaithfulMember(t.prior, txs, i);
      MemberIds(t.prior, i);
      MemberDistinct(t.prior, i);
    }
  }

  lemma {:induction false} DumpsMember(d: map<Txid, Entry>, ts: seq<RbfTree>, i: nat)
    requires DumpsAll(d, ts) && i < |ts|
    ensures Dumps(d, ts[i])
  {
    if i > 0 { DumpsMember(d, ts[1..], i - 1); }
  }

  lemma DumpsParts(d: map<Txid, Entry>, t: RbfTree)
    requires Dumps(d, t)
    ensures t.tx.txid in d && d[t.tx.txid] == Entry(t.tx.mined, t.time, t.interval, t.mined, t.fullRbf, RootIds(t.prior))
    ensures |RootIds(t.prior)| == |t.prior|
    ensures forall i :: 0 <= i < |t.prior| ==> RootIds(t.prior)[i] == t.prior[i].tx.txid && Dumps(d, t.prior[i])
  {
    forall i | 0 <= i < |t.prior| ensures Dumps(d, t.prior[i]) {
      DumpsMember(d, t.prior, i);
    }
  }

  /** What has been read and recorded once the first "i" children are imported. */
  ghost predicate Imported(m0: map<Txid, Txid>, m: map<Txid, Txid>, p0: map<Txid, seq<Txid>>, p: map<Txid, seq<Txid>>,
                           t: RbfTree, i: nat, earlier: seq<RbfTree>) {
    && i <= |t.prior| && earlier == NormalizedAll(t.prior[..i])
    && m == m0 + ParentsOf(t.tx.txid, t.prior[..i]) && p == p0 + ChildrenOf(t.prior[..i])
  }

  lemma ImportStarts(m: map<Txid, Txid>, p: map<Txid, seq<Txid>>, t: RbfTree)
    ensures Imported(m, m, p, p, t, 0, [])
  {
    assert t.prior[..0] == [];
  }

  lemma {:induction false} AppendEdges(p: Txid, ts: seq<RbfTree>, t: RbfTree)
    requires DistinctAll(ts + [t])
    ensures ParentsOf(p, ts + [t]) == ParentsOf(p, ts) + Parents(t) + map[t.tx.txid := p]
    ensures ChildrenOf(ts + [t]) == ChildrenOf(ts) + Children(t)
  {
    if ts == [] {
      assert ts + [t] == [t] && [t][1..] == [];
    } else {
      assert (ts + [t])[0] == ts[0] && (ts + [t])[1..] == ts[1..] + [t];
      AppendEdges(p, ts[1..], t);
      IdsAppend(ts[1..], t);
      EdgeKeys(ts[0]);
      EdgeKeys(t);
      EdgesCommute(p, ts, t);
    }
  }

  /** The edges of the first tree and of the last one do not meet. */
  lemma EdgesCommute(p: Txid, ts: seq<RbfTree>, t: RbfTree)
    requires ts != [] && Ids(ts[0]) !! IdsOf(ts[1..]) + Ids(t)
    requires Parents(t).Keys <= Ids(t) && Children(t).Keys == Ids(t) && Parents(ts[0]).Keys <= Ids(ts[0]) && Children(ts[0]).Keys == Ids(ts[0])
    requires t.tx.txid in Ids(t) && ts[0].tx.txid in Ids(ts[0])
    ensures var m := ParentsOf(p, ts[1..]);
      m + Parents(t) + map[t.tx.txid := p] + Parents(ts[0]) + map[ts[0].tx.txid := p]
      == m + Parents(ts[0]) + map[ts[0].tx.txid := p] + Parents(t) + map[t.tx.txid := p]
    ensures var m := ChildrenOf(ts[1..]); m + Children(t) + Children(ts[0]) == m + Children(ts[0]) + Children(t)
  {
    hide Ids, IdsOf, Parents, Children, ParentsOf, ChildrenOf;
  }

  lemma {:induction false} NormalizedAppend(ts: seq<RbfTree>, t: RbfTree)
    ensures NormalizedAll(ts + [t]) == NormalizedAll(ts) + [Normalized(t)]
  {
    if ts == [] {
      assert ts + [t] == [t] && [t][1..] == [];
    } else {
      assert (ts + [t])[0] == ts[0] && (ts + [t])[1..] == ts[1..] + [t];
      NormalizedAppend(ts[1..], t);
    }
  }

  lemma {:induction false} PrefixDistinct(ts: seq<RbfTree>, i: nat)
    requires DistinctAll(ts) && i <= |ts|
    ensures DistinctAll(ts[..i])
  {
    if i > 0 {
      PrefixDistinct(ts, i - 1);
      MemberDistinct(ts, i - 1);
      PrefixDisjoint(ts, i - 1);
      assert ts[..i] == ts[..i - 1] + [ts[i - 1]];
      DistinctAppend(ts[..i - 1], ts[i - 1]);
    }
  }

  lemma ImportStep(m0: map<Txid, Txid>, m: map<Txid, Txid>, p0: map<Txid, seq<Txid>>, p: map<Txid, seq<Txid>>,
                   t: RbfTree, i: nat, earlier: seq<RbfTree>)
    requires Imported(m0, m, p0, p, t, i, earlier) && i < |t.prior| && DistinctAll(t.prior)
    ensures var u := t.prior[i];
      Imported(m0, (m + Parents(u))[u.tx.txid := t.tx.txid], p0, p + Children(u), t, i + 1, earlier + [Normalized(u)])
  {
    hide *;
    var u, before := t.prior[i], t.prior[..i];
    assert t.prior[..i + 1] == before + [u];
    PrefixDistinct(t.prior, i + 1);
    AppendEdges(t.tx.txid, before, u);
    NormalizedAppend(before, u);
    ImportedIs(m0, m, p0, p, t, i, earlier);
    PlusAssociates(m0, ParentsOf(t.tx.txid, before), Parents(u), u.tx.txid, t.tx.txid);
    PlusAssociates2(p0, ChildrenOf(before), Children(u));
    ImportedIs(m0, (m + Parents(u))[u.tx.txid := t.tx.txid], p0, p + Children(u), t, i + 1, earlier + [Normalized(u)]);
  }

  lemma ImportedIs(m0: map<Txid, Txid>, m: map<Txid, Txid>, p0: map<Txid, seq<Txid>>, p: map<Txid, seq<Txid>>,
                   t: RbfTree, i: nat, earlier: seq<RbfTree>)
    requires i <= |t.prior|
    ensures Imported(m0, m, p0, p, t, i, earlier) <==>
      (earlier == NormalizedAll(t.prior[..i]) && m == m0 + ParentsOf(t.tx.txid, t.prior[..i]) && p == p0 + ChildrenOf(t.prior[..i]))
  {
    hide NormalizedAll, ParentsOf, ChildrenOf;
  }

  lemma PlusAssociates2(m: map<Txid, seq<Txid>>, a: map<Txid, seq<Txid>>, b: map<Txid, seq<Txid>>)
    ensures m + a + b == m + (a + b)
  {
  }

  lemma PlusAssociates(m: map<Txid, Txid>, a: map<Txid, Txid>, b: map<Txid, Txid>, k: Txid, v: Txid)
    ensures (m + a + b)[k := v] == m + (a + b + map[k := v])
  {
  }

  lemma ImportEnds(m0: map<Txid, Txid>, m: map<Txid, Txid>, p0: map<Txid, seq<Txid>>, p: map<Txid, seq<Txid>>, t: RbfTree, earlier: seq<RbfTree>)
    requires Imported(m0, m, p0, p, t, |t.prior|, earlier)
    ensures m == m0 + Parents(t) && p[t.tx.txid := RootIds(earlier)] == p0 + Children(t) && earlier == NormalizedAll(t.prior)
  {
    assert t.prior[..|t.prior|] == t.prior;
    NormalizedRoots(t.prior);
    hide NormalizedAll, ParentsOf, ChildrenOf;
  }

  lemma {:induction false} NormalizedRoots(ts: seq<RbfTree>)
    ensures RootIds(NormalizedAll(ts)) == RootIds(ts)
  {
    if ts != [] {
      NormalizedRoots(ts[1..]);
      var ts' := NormalizedAll(ts);
      assert ts'[0] == Normalized(ts[0]) && ts'[1..] == NormalizedAll(ts[1..]);
      RootIdsCons(ts);
      RootIdsCons(ts');
    }
  }

  // ---------- restoring the cache ----------

  /** The part of the restored cache that comes from the trees rooted in "done". */
  ghost function Restored(c: Maps, done: set<Txid>): Maps {
    var s := Members(c, done);
    Maps(OnlyAt(c.replacedBy, s), ListsAt(c.prior, s), NormalizedAt(c.rbfTrees, done), OnlyAt(c.treeMap, s), c.txs, map[])
  }

  ghost function OnlyAt(m: map<Txid, Txid>, s: set<Txid>): map<Txid, Txid> {
    map x | x in m && x in s :: m[x]
  }

  ghost function ListsAt(m: map<Txid, seq<Txid>>, s: set<Txid>): map<Txid, seq<Txid>> {
    map x | x in s :: Listed(m, x)
  }

  ghost function NormalizedAt(m: map<Txid, RbfTree>, s: set<Txid>): map<Txid, RbfTree> {
    map x | x in m && x in s :: Normalized(m[x])
  }

  lemma RestoredNothing(c: Maps)
    ensures Restored(c, {}) == Maps(map[], map[], map[], map[], c.txs, map[])
  {
    assert Members(c, {}) == {};
  }

  lemma StillRestorable(c: Maps, done: set<Txid>, r: Txid)
    requires Valid(c) && r in c.rbfTrees && r !in done
    ensures Restorable(c.txs, Restored(c, done).treeMap, c.rbfTrees[r]) && c.rbfTrees[r].tx.txid == r
  {
    hide Valid, Ids, Distinct, NodesRight, Faithful;
    var t, treeMap := c.rbfTrees[r], Restored(c, done).treeMap;
    OldTreeOwned(c, r);
    forall x | x in Ids(t) ensures x !in treeMap {
    }
    assert Ids(t) !! treeMap.Keys;
  }

  /** Reading one more tree adds its part. */
  lemma RestoredStep(c: Maps, done: set<Txid>, r: Txid)
    requires Valid(c) && r in c.rbfTrees && r !in done
    ensures var h, t := Restored(c, done), c.rbfTrees[r];
      Restored(c, done + {r}) == h.(replacedBy := h.replacedBy + Parents(t), prior := h.prior + Children(t),
                                    rbfTrees := h.rbfTrees[r := Normalized(t)], treeMap := h.treeMap + Mapped(Ids(t), r))
  {
    hide *;
    var t := c.rbfTrees[r];
    MembersOfTree(c, r);
    MembersGrow(c, done, r);
    OldTreeOwned(c, r);
    TreeMapped(c, r);
    EdgeKeys(t);
    TreeEdges(t);
    var s := Members(c, done);
    OnlyAtTree(c.replacedBy, c.prior, s, t);
    TreeMapAt(c, s, r, t);
    NormalizedMore(c.rbfTrees, done, r);
    RestoredIs(c, done);
    RestoredIs(c, done + {r});
  }

  lemma RestoredIs(c: Maps, done: set<Txid>)
    ensures var s := Members(c, done);
      Restored(c, done) == Maps(OnlyAt(c.replacedBy, s), ListsAt(c.prior, s), NormalizedAt(c.rbfTrees, done), OnlyAt(c.treeMap, s), c.txs, map[])
  {
  }

  lemma MembersGrow(c: Maps, done: set<Txid>, r: Txid)
    ensures Members(c, done + {r}) == Members(c, done) + Members(c, {r})
  {
  }

  lemma OnlyAtTree(m: map<Txid, Txid>, prior: map<Txid, seq<Txid>>, s: set<Txid>, t: RbfTree)
    requires Indexed(m, prior, t) && Parents(t).Keys == IdsOf(t.prior) && Children(t).Keys == Ids(t) == {t.tx.txid} + IdsOf(t.prior)
    ensures OnlyAt(m, s + Ids(t)) == OnlyAt(m, s) + Parents(t)
    ensures ListsAt(prior, s + Ids(t)) == ListsAt(prior, s) + Children(t)
  {
    hide *;
    IndexedAt(m, prior, t);
    OnlyAtMore(m, s, Ids(t), Parents(t));
    ListsAtMore(prior, s, Ids(t), Children(t));
  }

  lemma OnlyAtMore(m: map<Txid, Txid>, s: set<Txid>, ids: set<Txid>, more: map<Txid, Txid>)
    requires more.Keys <= ids && forall x :: x in ids ==> (x in m <==> x in more)
    requires forall x :: x in more ==> m[x] == more[x]
    ensures OnlyAt(m, s + ids) == OnlyAt(m, s) + more
  {
    var a, b := OnlyAt(m, s + ids), OnlyAt(m, s) + more;
    assert forall x :: x in a <==> x in b;
    assert forall x :: x in a ==> a[x] == b[x];
    assert a == b;
  }

  lemma ListsAtMore(m: map<Txid, seq<Txid>>, s: set<Txid>, ids: set<Txid>, more: map<Txid, seq<Txid>>)
    requires more.Keys == ids && forall x :: x in ids ==> Listed(m, x) == more[x]
    ensures ListsAt(m, s + ids) == ListsAt(m, s) + more
  {
  }

  lemma IndexedAt(m: map<Txid, Txid>, prior: map<Txid, seq<Txid>>, t: RbfTree)
    requires Indexed(m, prior, t) && Children(t).Keys == Ids(t)
    ensures forall x :: x in Ids(t) ==> (x in m <==> x in Parents(t))
    ensures forall x :: x in Ids(t) && x in m ==> m[x] == Parents(t)[x]
    ensures forall x :: x in Ids(t) ==> Listed(prior, x) == Children(t)[x]
  {
    hide Ids, Parents, Children;
  }

  lemma TreeMapAt(c: Maps, s: set<Txid>, r: Txid, t: RbfTree)
    requires Owned(c.treeMap, r, t)
    ensures OnlyAt(c.treeMap, s + Ids(t)) == OnlyAt(c.treeMap, s) + Mapped(Ids(t), r)
  {
    hide Ids;
    OnlyAtMore(c.treeMap, s, Ids(t), Mapped(Ids(t), r));
  }

  lemma NormalizedMore(m: map<Txid, RbfTree>, done: set<Txid>, r: Txid)
    requires r in m
    ensures NormalizedAt(m, done + {r}) == NormalizedAt(m, done)[r := Normalized(m[r])]
  {
    hide Normalized;
  }

  lemma NormalizedIs(t: RbfTree)
    ensures Normalized(t) == RbfTree(t.tx.(fullRbf := None), t.time, t.interval, false, t.fullRbf, NormalizedAll(t.prior))
  {
  }

  lemma NormalizedIds(t: RbfTree)
    ensures Normalized(t).tx.txid == t.tx.txid && Ids(Normalized(t)) == Ids(t) && !Normalized(t).mined
  {
    NormalizedKeeps(t, map[]);
  }

  /** Reading back everything restores every map, every tree up to what a dump forgets, and the invariant. */
  lemma RestoredWhole(c: Maps, expiring: map<Txid, int>)
    requires Valid(c) && expiring == c.expiring
    ensures var c' := Restored(c, c.rbfTrees.Keys).(expiring := expiring);
      && c'.replacedBy == c.replacedBy && c'.treeMap == c.treeMap && c'.txs == c.txs && c'.expiring == c.expiring
      && (forall x :: Listed(c'.prior, x) == Listed(c.prior, x))
      && c'.rbfTrees.Keys == c.rbfTrees.Keys && (forall r :: r in c.rbfTrees ==> c'.rbfTrees[r] == Normalized(c.rbfTrees[r]))
      && Valid(c')
  {
    hide *;
    EveryoneBelongs(c);
    ValidKeys(c);
    RestoredIs(c, c.rbfTrees.Keys);
    RestoredMaps(c);
    RestoredValid(c, Restored(c, c.rbfTrees.Keys).(expiring := expiring));
  }

  lemma EveryoneBelongs(c: Maps)
    requires Valid(c)
    ensures Members(c, c.rbfTrees.Keys) == c.treeMap.Keys
  {
    forall x | x in c.treeMap ensures c.treeMap[x] in c.rbfTrees {
      assert Placed(c, x);
    }
    hide Valid;
  }

  lemma RestoredMaps(c: Maps)
    requires KeysMatch(c)
    ensures OnlyAt(c.replacedBy, c.treeMap.Keys) == c.replacedBy && OnlyAt(c.treeMap, c.treeMap.Keys) == c.treeMap
    ensures forall x :: Listed(ListsAt(c.prior, c.treeMap.Keys), x) == Listed(c.prior, x)
    ensures ListsAt(c.prior, c.treeMap.Keys).Keys == c.treeMap.Keys
    ensures NormalizedAt(c.rbfTrees, c.rbfTrees.Keys).Keys == c.rbfTrees.Keys
    ensures forall r :: r in c.rbfTrees ==> NormalizedAt(c.rbfTrees, c.rbfTrees.Keys)[r] == Normalized(c.rbfTrees[r])
  {
    hide Normalized;
  }

  lemma RestoredValid(c: Maps, c': Maps)
    requires Valid(c)
    requires c'.replacedBy == c.replacedBy && c'.treeMap == c.treeMap && c'.txs == c.txs && c'.expiring == c.expiring
    requires forall x :: Listed(c'.prior, x) == Listed(c.prior, x)
    requires c'.prior.Keys == c.treeMap.Keys
    requires c'.rbfTrees.Keys == c.rbfTrees.Keys && forall r :: r in c.rbfTrees ==> c'.rbfTrees[r] == Normalized(c.rbfTrees[r])
    ensures Valid(c')
  {
    hide SoundTree, Owned, Indexed, Placed, Normalized, Listed;
    forall r | r in c'.rbfTrees
      ensures SoundTree(c', r, c'.rbfTrees[r]) && Owned(c'.treeMap, r, c'.rbfTrees[r]) && Indexed(c'.replacedBy, c'.prior, c'.rbfTrees[r])
    {
      RestoredTree(c, c', r);
    }
    forall x | x in c'.treeMap ensures Placed(c', x) {
      StillPlaced(c, c', x);
    }
  }

  lemma StillPlaced(c: Maps, c': Maps, x: Txid)
    requires Placed(c, x) && c'.treeMap == c.treeMap && c'.rbfTrees.Keys == c.rbfTrees.Keys
    requires forall r :: r in c.rbfTrees ==> c'.rbfTrees[r] == Normalized(c.rbfTrees[r])
    ensures Placed(c', x)
  {
    hide Normalized;
    var r := c.treeMap[x];
    assert r in c.rbfTrees && r in c'.rbfTrees;
    var t := c.rbfTrees[r];
    assert c'.rbfTrees[r] == Normalized(t);
    NormalizedIds(t);
  }

  lemma RestoredTree(c: Maps, c': Maps, r: Txid)
    requires r in c.rbfTrees && r in c'.rbfTrees && c'.rbfTrees[r] == Normalized(c.rbfTrees[r])
    requires c'.replacedBy == c.replacedBy && c'.treeMap == c.treeMap && c'.txs == c.txs
    requires forall x :: Listed(c'.prior, x) == Listed(c.prior, x)
    requires SoundTree(c, r, c.rbfTrees[r]) && Owned(c.treeMap, r, c.rbfTrees[r]) && Indexed(c.replacedBy, c.prior, c.rbfTrees[r])
    ensures SoundTree(c', r, c'.rbfTrees[r]) && Owned(c'.treeMap, r, c'.rbfTrees[r]) && Indexed(c'.replacedBy, c'.prior, c'.rbfTrees[r])
  {
    NormalizedKeeps(c.rbfTrees[r], c.txs);
    hide Normalized, Ids, Distinct, NodesRight, Faithful, Parents, Children;
  }
}
