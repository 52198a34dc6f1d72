/** The cache of replacement trees: five maps that index one forest. */
module RbfCaching {
  import opened Collections
  import opened RbfTrees
  import opened RbfIndex
  import opened RbfRemoval
  import opened RbfRestore

  class RbfCache {
    var replacedBy: map<Txid, Txid>
    var prior: map<Txid, seq<Txid>>
    var rbfTrees: map<Txid, RbfTree>
    var treeMap: map<Txid, Txid>
    var txs: map<Txid, Tx>
    var expiring: map<Txid, int>

    ghost function View(): (c: Maps)
      reads this
      ensures c == Maps(replacedBy, prior, rbfTrees, treeMap, txs, expiring)
    {
      Maps(replacedBy, prior, rbfTrees, treeMap, txs, expiring)
    }

    constructor ()
      ensures View() == Maps(map[], map[], map[], map[], map[], map[]) && Valid(View())
    {
      replacedBy, prior, rbfTrees, treeMap, txs, expiring := map[], map[], map[], map[], map[], map[];
    }

    /** One round of the loop over the replaced transactions. */
    method Absorb(tx: Tx, newTx: Tx, newTime: int, now: int, ts: seq<RbfTree>, treeFullRbf: bool, ghost c0: Maps, ghost replaced: seq<Tx>,
                  ghost ok: bool)
      returns (ts': seq<RbfTree>, treeFullRbf': bool)
      requires Valid(c0) && newTx.txid !in c0.treeMap
      requires ok ==> newTx.txid != tx.txid && Absorbing(c0, View(), replaced, newTx, newTime, now, ts) && treeFullRbf == SilentInAny(ts)
      modifies this`replacedBy, this`rbfTrees, this`txs
      ensures tx.txid in replacedBy && old(replacedBy).Keys <= replacedBy.Keys
      ensures ok ==> Absorbing(c0, View(), replaced + [tx], newTx, newTime, now, ts') && treeFullRbf' == SilentInAny(ts')
    {
      ghost var c := View();
      ts', treeFullRbf' := ts, treeFullRbf;
      hide *;
      if tx.txid in replacedBy {
        // a second replacement of the same transaction is passed over
        if ok { PassedOver(c0, c, replaced, tx, newTx, newTime, now, ts); }
      } else {
        replacedBy := replacedBy[tx.txid := newTx.txid];
        if tx.txid in treeMap {
          var treeId := treeMap[tx.txid];
          if ok { TreeAbsorbed(c0, c, replaced, tx, newTx, newTime, now, ts); }
          if treeId in rbfTrees {
            var tree := rbfTrees[treeId].(interval := Some(newTime - rbfTrees[treeId].time));
            if ok { FullRbfOfTree(c0, c, replaced, tx, newTx, newTime, now, ts, tree); }
            ts', treeFullRbf' := ts + [tree], treeFullRbf || tree.fullRbf || !tree.tx.rbf;
          }
          rbfTrees := rbfTrees - {treeId};
        } else {
          if ok { LeafAbsorbed(c0, c, replaced, tx, newTx, newTime, now, ts); }
          FullRbfOfLeaf(tx, newTime, now, ts);
          ts', treeFullRbf' := ts + [Leaf(tx, newTime, now)], treeFullRbf || !Signals(tx);
          txs := txs[tx.txid := tx];
        }
      }
    }

    method UpdateTreeMap(newId: Txid, tree: RbfTree)
      modifies this`treeMap
      ensures treeMap == old(treeMap) + Mapped(Ids(tree), newId)
      decreases tree, 1
    {
      treeMap := treeMap[tree.tx.txid := newId];
      UpdateTreeMaps(newId, tree.prior);
    }

    method UpdateTreeMaps(newId: Txid, trees: seq<RbfTree>)
      modifies this`treeMap
      ensures treeMap == old(treeMap) + Mapped(IdsOf(trees), newId)
      decreases trees, 0
    {
      if trees != [] {
        UpdateTreeMap(newId, trees[0]);
        UpdateTreeMaps(newId, trees[1..]);
      }
    }

    /** The loop over the replaced transactions. */
    method AbsorbAll(replaced: seq<Tx>, newTx: Tx, newTime: int, now: int, ghost c0: Maps, ghost ok: bool)
      returns (replacedTrees: seq<RbfTree>, txFullRbf: bool, treeFullRbf: bool)
      requires Valid(c0) && newTx.txid !in c0.treeMap && ok == (newTx.txid !in IdsOfTxs(replaced))
      requires Absorbing(c0, View(), [], newTx, newTime, now, [])
      modifies this`replacedBy, this`rbfTrees, this`txs
      ensures forall j :: 0 <= j < |replaced| ==> replaced[j].txid in replacedBy
      ensures txFullRbf == AnySilent(replaced)
      ensures ok ==> Absorbing(c0, View(), replaced, newTx, newTime, now, replacedTrees) && treeFullRbf == SilentInAny(replacedTrees)
    {
      hide *;
      txFullRbf, treeFullRbf, replacedTrees := false, false, [];
      NoneSilent(replaced);
      for i := 0 to |replaced|
        invariant ok ==> Absorbing(c0, View(), replaced[..i], newTx, newTime, now, replacedTrees) && treeFullRbf == SilentInAny(replacedTrees)
        invariant forall j :: 0 <= j < i ==> replaced[j].txid in replacedBy
        invariant txFullRbf == AnySilent(replaced[..i])
      {
        IdsOfPrefix(replaced, i);
        AnySilentStep(replaced, i);
        if !Signals(replaced[i]) {
          txFullRbf := true;
        }
        replacedTrees, treeFullRbf := Absorb(replaced[i], newTx, newTime, now, replacedTrees, treeFullRbf, c0, replaced[..i], ok);
      }
    }

    /** Records that "newTx" replaced the transactions "replaced". The invariant survives exactly when the
        new transaction is not itself listed as replaced. */
    method Add(replaced: seq<Tx>, newTx: Tx, now: int)
      requires Valid(View())
      modifies this
      ensures Ignored(old(replacedBy), old(txs), replaced, newTx) ==> View() == old(View())
      ensures !Ignored(old(replacedBy), old(txs), replaced, newTx) && newTx.txid !in IdsOfTxs(replaced) ==> Added(old(View()), View(), replaced, newTx, now)
      ensures Valid(View()) <==> Ignored(old(replacedBy), old(txs), replaced, newTx) || newTx.txid !in IdsOfTxs(replaced)
    {
      hide *;
      IgnoredIs(replacedBy, txs, replaced, newTx);
      if replaced == [] || newTx.txid in txs || !(exists i :: 0 <= i < |replaced| && replaced[i].txid !in replacedBy) {
        return;
      }
      ghost var c0 := View();
      ghost var ok := newTx.txid !in IdsOfTxs(replaced);
      var newTime := Seen(newTx, now);
      NotIgnored(c0, replaced, newTx);
      AbsorbingStarts(c0, newTx, newTime, now);
      txs := txs[newTx.txid := newTx];
      var replacedTrees, txFullRbf, treeFullRbf := AbsorbAll(replaced, newTx, newTime, now, c0, ok);
      var newTree := RbfTree(Strip(newTx).(fullRbf := Some(txFullRbf)), newTime, None, false, treeFullRbf, replacedTrees);
      ghost var c := View();
      rbfTrees := rbfTrees[newTx.txid := newTree];
      UpdateTreeMap(newTx.txid, newTree);
      prior := prior[newTx.txid := RootIds(replacedTrees)];
      if ok {
        StripKeepsId(newTx);
        PlantedIs(c, View(), newTree);
        AddedNow(c0, c, replaced, newTx, newTime, now, newTree);
      } else {
        ListedAsReplaced(replaced, newTx.txid, replacedBy);
        ReplacedRootInvalid(View(), newTx.txid);
      }
    }

    /** Flags a transaction as gone from the mempool; it expires later. */
    method Evict(txid: Txid, fast: bool, now: int)
      modifies this`expiring
      ensures expiring == if txid in txs && (fast || txid !in old(expiring)) then old(expiring)[txid := now + if fast then 600000 else 86400000]
                          else old(expiring)
      ensures old(Valid(View())) ==> Valid(View())
    {
      ghost var c := View();
      if txid in txs && (fast || txid !in expiring) {
        expiring := expiring[txid := now + if fast then 600000 else 86400000];
      }
      ExpiringMayChange(c, expiring);
    }

    /** Marks a mined transaction in its tree, and evicts it. */
    method Mined(txid: Txid, now: int)
      requires Valid(View())
      modifies this`rbfTrees, this`expiring
      ensures Valid(View())
      ensures txid in txs ==> var r := treeMap[txid];
        && rbfTrees == old(rbfTrees)[r := rbfTrees[r]] && Unmarked(rbfTrees[r]) == Unmarked(old(rbfTrees)[r]).(mined := true)
        && MinedIds(rbfTrees[r]) == MinedIds(old(rbfTrees)[r]) + {txid}
        && expiring == if txid in old(expiring) then old(expiring) else old(expiring)[txid := now + 86400000]
      ensures txid !in txs ==> View() == old(View())
    {
      hide *;
      if txid !in txs {
        return;
      }
      ghost var c := View();
      KnownTree(c, txid);
      var treeId := treeMap[txid];
      if treeId in rbfTrees {
        var tree := SetTreeMined(rbfTrees[treeId], txid);
        rbfTrees := rbfTrees[treeId := tree.(mined := true)];
        MinedTreeIs(c, txid);
      }
      MinedValid(c, txid);
      Evict(txid, false, now);
    }

    /** Removes a transaction and, recursively, the versions it replaced, unless it was replaced itself. "t" is the
        tree that describes them, recorded under "root". */
    method Remove(txid: Txid, ghost t: RbfTree, ghost root: Txid)
      requires txid !in replacedBy ==> Describes(View(), txid, t, root)
      modifies this
      ensures View() == if txid in old(replacedBy) then old(View()) else
        Without(old(View()), Ids(t)).(rbfTrees := if txid in old(treeMap) && old(treeMap)[txid] == txid then old(rbfTrees) - {txid} else old(rbfTrees))
      decreases t
    {
      hide *;
      if txid in replacedBy {
        return;
      }
      ghost var c := View();
      DescribesParts(c, txid, t, root);
      var isRoot := txid in treeMap && treeMap[txid] == txid;
      var earlier := Listed(prior, txid);
      prior := prior - {txid};
      treeMap := treeMap - {txid};
      txs := txs - {txid};
      expiring := expiring - {txid};
      if isRoot {
        rbfTrees := rbfTrees - {txid};
      }
      ghost var trees := rbfTrees;
      FirstRemoved(c, View(), txid, t);
      for i := 0 to |earlier|
        invariant View() == Halfway(c, txid, t, i).(rbfTrees := trees)
      {
        ghost var u := t.prior[i];
        RemoveNext(c, View(), txid, t, root, i, trees);
        replacedBy := replacedBy - {earlier[i]};
        Remove(earlier[i], u, root);
      }
      HalfwayEnds(c, txid, t);
    }

    /** Drops what has expired. The entries are visited in some order, and the outcome does not depend on it. */
    method Cleanup(now: int)
      requires Valid(View())
      modifies this
      ensures View() == Cleaned(old(View()), now, old(expiring).Keys) && Valid(View())
    {
      hide *;
      ghost var c := View();
      var pending := expiring.Keys;
      ghost var visited: set<Txid> := {};
      CleanedNothing(c, now);
      while pending != {}
        invariant pending + visited == c.expiring.Keys && pending !! visited
        invariant View() == Cleaned(c, now, visited)
      {
        NonEmpty(pending);
        var txid :| txid in pending;
        if txid in expiring && expiring[txid] < now {
          CleanedStep(c, now, visited, txid);
          expiring := expiring - {txid};
          RemovalDuringCleanup(c, View(), now, visited, txid);
          Remove(txid, Versions(View(), txid), txid);
          RemovalIsPruning(RemovalState(c, now, visited, txid), View(), txid);
        } else {
          CleanedSkip(c, now, visited, txid);
        }
        pending, visited := pending - {txid}, visited + {txid};
      }
      CleanedValid(c, now, visited);
    }

    method DumpTrees() returns (trees: seq<Dump>)
      requires Valid(View())
      ensures DumpsOf(View(), trees, rbfTrees.Keys)
    {
      hide *;
      ghost var c := View();
      var pending := rbfTrees.Keys;
      ghost var written: set<Txid> := {};
      trees := [];
      DumpsNothing(c);
      while pending != {}
        invariant pending + written == rbfTrees.Keys && pending !! written
        invariant DumpsOf(c, trees, written)
      {
        NonEmpty(pending);
        var root :| root in pending;
        var dump := Dump(root, None, ExportTree(rbfTrees[root], map[]));
        ExportedTree(c, root);
        DumpsOneMore(c, trees, written, dump);
        trees, pending, written := trees + [dump], pending - {root}, written + {root};
      }
    }

    /** Rebuilds the tree of a dump. "t" is a tree the dump describes. */
    method ImportTree(root: Txid, txid: Txid, d: Dump, mined: bool, ghost t: RbfTree) returns (r: Option<RbfTree>)
      requires Dumps(d.entries, t) && t.tx.txid == txid
      modifies this`replacedBy, this`prior, this`rbfTrees
      ensures (txid == root && txid !in txs) || txid in treeMap ==>
        && r == None && replacedBy == old(replacedBy) && prior == old(prior)
        && rbfTrees == if d.key.Some? then old(rbfTrees) - {d.key.value} else old(rbfTrees)
      ensures txid !in txs ==> r == None
      ensures r.Some? ==> txid in prior && prior[txid] == RootIds(r.value.prior)
      ensures Restorable(txs, treeMap, t) && !mined ==>
        && r == Some(Normalized(t)) && rbfTrees == old(rbfTrees)
        && replacedBy == old(replacedBy) + Parents(t) && prior == old(prior) + Children(t)
      decreases t
    {
      hide *;
      DumpsParts(d.entries, t);
      var treeInfo := d.entries[txid];
      r := None;
      ghost var ok := Restorable(txs, treeMap, t) && !mined;
      if ok { RestorableParts(txs, treeMap, t); }
      if (txid == root && txid !in txs) || txid in treeMap {
        rbfTrees := if d.key.Some? then rbfTrees - {d.key.value} else rbfTrees;
        return;
      }
      ImportStarts(replacedBy, prior, t);
      var earlier, anyMined := [], mined;
      for i := 0 to |treeInfo.prior|
        invariant ok ==> Imported(old(replacedBy), replacedBy, old(prior), prior, t, i, earlier) && !anyMined && rbfTrees == old(rbfTrees)
      {
        ghost var m, p, before := replacedBy, prior, earlier;
        var child := ImportTree(root, treeInfo.prior[i], d, anyMined, t.prior[i]);
        if child.Some? {
          var replaced := child.value;
          replacedBy := replacedBy[replaced.tx.txid := txid];
          earlier := earlier + [replaced];
          anyMined := anyMined || replaced.mined;
        }
        if ok {
          NormalizedIds(t.prior[i]);
          ImportStep(old(replacedBy), m, old(prior), p, t, i, before);
        }
      }
      if ok { NormalizedIs(t); ImportEnds(old(replacedBy), replacedBy, old(prior), prior, t, earlier); }
      prior := prior[txid := RootIds(earlier)];
      if txid !in txs {
        return;
      }
      var tx := txs[txid];
      r := Some(RbfTree(Strip(tx).(mined := treeInfo.txMined), treeInfo.time, treeInfo.interval, anyMined, treeInfo.fullRbf, earlier));
    }

    /** Restores the dumped contents of a valid cache into an empty one. The dumps may come in any order. */
    method Load(savedTxs: map<Txid, Tx>, trees: seq<Dump>, savedExpiring: map<Txid, int>, ghost c: Maps)
      requires View() == Maps(map[], map[], map[], map[], map[], map[])
      requires Valid(c) && DumpsOf(c, trees, c.rbfTrees.Keys) && savedTxs == c.txs && savedExpiring == c.expiring
      modifies this
      ensures replacedBy == c.replacedBy && treeMap == c.treeMap && txs == c.txs && expiring == c.expiring
      ensures forall x :: Listed(prior, x) == Listed(c.prior, x)
      ensures rbfTrees.Keys == c.rbfTrees.Keys && forall r :: r in rbfTrees ==> rbfTrees[r] == Normalized(c.rbfTrees[r])
      ensures Valid(View())
    {
      hide *;
      txs := txs + savedTxs;
      RestoredNothing(c);
      NoRootsYet(trees);
      for i := 0 to |trees|
        invariant View() == Restored(c, Roots(trees[..i]))
      {
        NextDump(c, trees, c.rbfTrees.Keys, i);
        LoadTree(trees[i], c, Roots(trees[..i]));
      }
      LoadedAll(c, trees, savedExpiring);
      expiring := expiring + map x | x in savedExpiring && x in txs :: savedExpiring[x];
      RestoredWhole(c, expiring);
    }

    method LoadTree(d: Dump, ghost c: Maps, ghost done: set<Txid>)
      requires Valid(c) && d.root in c.rbfTrees && d.root !in done && Dumps(d.entries, c.rbfTrees[d.root])
      requires View() == Restored(c, done)
      modifies this
      ensures View() == Restored(c, done + {d.root})
    {
      hide *;
      ghost var t := c.rbfTrees[d.root];
      StillRestorable(c, done, d.root);
      RestoredIs(c, done);
      RestoredStep(c, done, d.root);
      NormalizedIds(t);
      var imported := ImportTree(d.root, d.root, d, false, t);
      if imported.Some? {
        var tree := imported.value;
        rbfTrees := rbfTrees[tree.tx.txid := tree];
        UpdateTreeMap(tree.tx.txid, tree);
        // the source evicts a tree that was read back as mined; there is none
        assert !tree.mined;
      }
    }
  }
}
