/** Which deleted transactions each new one replaced: the nested search, and the one through a lookup table. */
module RbfMatching {
  type Txid = int

  datatype Outpoint = Outpoint(txid: Txid, vout: nat)

  datatype Tx = Tx(txid: Txid, fee: int, rate: real, vin: seq<Outpoint>)

  datatype Match = Match(replaced: set<Tx>, replacedBy: Tx)

  /** More fee in total, and per vsize. */
  ghost predicate Outbids(a: Tx, d: Tx) {
    a.fee > d.fee && a.rate > d.rate
  }

  ghost predicate SharesInput(a: Tx, d: Tx) {
    exists o :: o in d.vin && o in a.vin
  }

  // ---------- the two forms, as sets ----------

  /** What the nested loops find. */
  ghost function Conflicts(a: Tx, deleted: seq<Tx>): set<Tx> {
    set d | d in deleted && Outbids(a, d) && SharesInput(a, d)
  }

  /** The index of the last deleted transaction that spends "o", or -1. */
  ghost function LastSpender(deleted: seq<Tx>, o: Outpoint): (k: int)
    ensures -1 <= k < |deleted|
    ensures k >= 0 ==> o in deleted[k].vin
    ensures forall j :: k < j < |deleted| ==> o !in deleted[j].vin
  {
    if deleted == [] then -1
    else if o in deleted[|deleted| - 1].vin then |deleted| - 1
    else LastSpender(deleted[..|deleted| - 1], o)
  }

  ghost predicate LooksUp(a: Tx, deleted: seq<Tx>, o: Outpoint, d: Tx) {
    o in a.vin && LastSpender(deleted, o) >= 0 && deleted[LastSpender(deleted, o)] == d
  }

  /** What the lookup table finds. */
  ghost function Found(a: Tx, deleted: seq<Tx>): set<Tx> {
    set d | d in deleted && d.txid != a.txid && Outbids(a, d) && exists o :: LooksUp(a, deleted, o, d)
  }

  /** A transaction identifier names one transaction. */
  ghost predicate SameId(a: Tx, deleted: seq<Tx>) {
    forall d :: d in deleted && d.txid == a.txid ==> d == a
  }

  /** No two different deleted transactions spend the same output. */
  ghost predicate Exclusive(deleted: seq<Tx>) {
    forall d, e, o :: d in deleted && e in deleted && o in d.vin && o in e.vin ==> d == e
  }

  /** The lookup table never finds more than the nested loops. */
  lemma FoundConflicts(a: Tx, deleted: seq<Tx>)
    ensures Found(a, deleted) <= Conflicts(a, deleted)
  {
    forall d | d in Found(a, deleted) ensures d in Conflicts(a, deleted) {
      var o :| LooksUp(a, deleted, o, d);
      assert o in d.vin && o in a.vin;
    }
  }

  lemma ExclusiveFinds(a: Tx, deleted: seq<Tx>)
    requires Exclusive(deleted) && SameId(a, deleted)
    ensures Found(a, deleted) == Conflicts(a, deleted)
  {
    FoundConflicts(a, deleted);
    forall d | d in Conflicts(a, deleted) ensures d in Found(a, deleted) {
      var o :| o in d.vin && o in a.vin;
      SpentSomewhere(deleted, d, o);
      assert LooksUp(a, deleted, o, d);
    }
  }

  lemma SpentSomewhere(deleted: seq<Tx>, d: Tx, o: Outpoint)
    requires d in deleted && o in d.vin
    ensures LastSpender(deleted, o) >= 0
  {
    var i :| 0 <= i < |deleted| && deleted[i] == d;
  }

  ghost function Above(deleted: seq<Tx>): (x: Txid)
    ensures forall d :: d in deleted ==> d.txid < x
  {
    if deleted == [] then 0 else
    var last, x := deleted[|deleted| - 1].txid, Above(deleted[..|deleted| - 1]);
    assert deleted == deleted[..|deleted| - 1] + [deleted[|deleted| - 1]];
    if last < x then x else last + 1
  }

  /** A replacement of one of two transactions with a common input that the lookup table misses. */
  lemma Missed(deleted: seq<Tx>, d: Tx, o: Outpoint) returns (a: Tx)
    requires d in deleted && o in d.vin && deleted[LastSpender(deleted, o)] != d && LastSpender(deleted, o) >= 0
    ensures SameId(a, deleted) && d in Conflicts(a, deleted) && d !in Found(a, deleted)
  {
    a := Tx(Above(deleted), d.fee + 1, d.rate + 1.0, [o]);
    assert o in d.vin && o in a.vin;
    assert forall o' :: o' in a.vin ==> o' == o;
  }

  /** The two forms agree on every replacement exactly when no two deleted transactions spend the same output. */
  lemma FormsAgree(deleted: seq<Tx>)
    ensures (forall a :: SameId(a, deleted) ==> Found(a, deleted) == Conflicts(a, deleted)) <==> Exclusive(deleted)
  {
    if Exclusive(deleted) {
      forall a | SameId(a, deleted) ensures Found(a, deleted) == Conflicts(a, deleted) {
        ExclusiveFinds(a, deleted);
      }
    } else {
      var d, e, o :| d in deleted && e in deleted && o in d.vin && o in e.vin && d != e;
      SpentSomewhere(deleted, d, o);
      var a := Missed(deleted, if deleted[LastSpender(deleted, o)] != d then d else e, o);
      assert SameId(a, deleted) && Found(a, deleted) != Conflicts(a, deleted);
    }
    hide Found, Conflicts, SameId, Exclusive;
  }

  // ---------- the methods ----------

  ghost predicate DistinctIds(txs: seq<Tx>) {
    forall i, j :: 0 <= i < j < |txs| ==> txs[i].txid != txs[j].txid
  }

  /** One match per added transaction that has any, holding exactly what "found" gives. */
  ghost predicate Matches(m: map<Txid, Match>, added: seq<Tx>, found: Tx -> set<Tx>) {
    && (forall x :: x in m ==> m[x].replacedBy in added && m[x].replacedBy.txid == x && m[x].replaced == found(m[x].replacedBy) != {})
    && forall a :: a in added && found(a) != {} ==> a.txid in m && m[a.txid] == Match(found(a), a)
  }

  /** What the lookup table reports, the nested loops report too; and they report the same when the spends are exclusive. */
  lemma LookupRefines(m: map<Txid, Match>, n: map<Txid, Match>, added: seq<Tx>, deleted: seq<Tx>)
    requires Matches(m, added, a => Found(a, deleted)) && Matches(n, added, a => Conflicts(a, deleted)) && DistinctIds(added)
    ensures forall x :: x in m ==> x in n && m[x].replacedBy == n[x].replacedBy && m[x].replaced <= n[x].replaced
    ensures Exclusive(deleted) && (forall a :: a in added ==> SameId(a, deleted)) ==> m == n
  {
    hide Found, Conflicts, SameId, Exclusive;
    forall a | a in added ensures Found(a, deleted) <= Conflicts(a, deleted) {
      FoundConflicts(a, deleted);
    }
    forall x | x in m ensures x in n && m[x].replacedBy == n[x].replacedBy {
      var a := m[x].replacedBy;
      FoundConflicts(a, deleted);
      assert Conflicts(a, deleted) != {};
    }
    if Exclusive(deleted) && forall a :: a in added ==> SameId(a, deleted) {
      forall x | x in n ensures x in m && m[x] == n[x] {
        ExclusiveFinds(n[x].replacedBy, deleted);
      }
      assert m.Keys == n.Keys;
    }
  }

  lemma MatchesStart(found: Tx -> set<Tx>)
    ensures Matches(map[], [], found)
  {
  }

  lemma MatchesStep(m: map<Txid, Match>, added: seq<Tx>, a: Tx, found: Tx -> set<Tx>)
    requires Matches(m, added, found) && DistinctIds(added + [a])
    ensures Matches(if found(a) != {} then m[a.txid := Match(found(a), a)] else m, added + [a], found)
  {
    forall b | b in added ensures b.txid != a.txid {
      var i :| 0 <= i < |added| && added[i] == b;
      assert (added + [a])[i] == b && (added + [a])[|added|] == a;
    }
  }

  method FindNested(added: seq<Tx>, deleted: seq<Tx>) returns (matches: map<Txid, Match>)
    requires DistinctIds(added)
    ensures Matches(matches, added, a => Conflicts(a, deleted))
  {
    ghost var found := a => Conflicts(a, deleted);
    matches := map[];
    MatchesStart(found);
    for i := 0 to |added|
      invariant Matches(matches, added[..i], found)
    {
      var addedTx := added[i];
      var foundMatches := set d | d in deleted && addedTx.fee > d.fee && addedTx.rate > d.rate && exists o :: o in d.vin && o in addedTx.vin;
      assert foundMatches == Conflicts(addedTx, deleted);
      assert added[..i + 1] == added[..i] + [addedTx];
      MatchesStep(matches, added[..i], addedTx, found);
      if foundMatches != {} {
        matches := matches[addedTx.txid := Match(foundMatches, addedTx)];
      }
    }
    assert added[..|added|] == added;
  }

  /** The lookup table after the first "n" deleted transactions, and the first "k" inputs of the next. */
  ghost predicate Spends(table: map<Outpoint, Tx>, deleted: seq<Tx>) {
    forall o :: (o in table <==> LastSpender(deleted, o) >= 0) && (o in table ==> table[o] == deleted[LastSpender(deleted, o)])
  }

  lemma SpendsStep(table: map<Outpoint, Tx>, table': map<Outpoint, Tx>, deleted: seq<Tx>, tx: Tx)
    requires Spends(table, deleted)
    requires forall o :: o in table' <==> o in table || o in tx.vin
    requires forall o :: o in table' ==> table'[o] == if o in tx.vin then tx else table[o]
    ensures Spends(table', deleted + [tx])
  {
    forall o ensures (o in table' <==> LastSpender(deleted + [tx], o) >= 0) && (o in table' ==> table'[o] == (deleted + [tx])[LastSpender(deleted + [tx], o)]) {
      assert (deleted + [tx])[..|deleted|] == deleted;
    }
  }

  method BuildSpendMap(deleted: seq<Tx>) returns (deletedSpendMap: map<Outpoint, Tx>)
    ensures Spends(deletedSpendMap, deleted)
  {
    deletedSpendMap := map[];
    for i := 0 to |deleted|
      invariant Spends(deletedSpendMap, deleted[..i])
    {
      ghost var before := deletedSpendMap;
      var tx := deleted[i];
      for k := 0 to |tx.vin|
        invariant forall o :: o in deletedSpendMap <==> o in before || o in tx.vin[..k]
        invariant forall o :: o in deletedSpendMap ==> deletedSpendMap[o] == if o in tx.vin[..k] then tx else before[o]
      {
        deletedSpendMap := deletedSpendMap[tx.vin[k] := tx];
      }
      assert tx.vin[..|tx.vin|] == tx.vin;
      assert deleted[..i + 1] == deleted[..i] + [tx];
      SpendsStep(before, deletedSpendMap, deleted[..i], tx);
    }
    assert deleted[..|deleted|] == deleted;
  }

  /** What the first "k" inputs of "a" find. */
  ghost function FoundBy(a: Tx, deleted: seq<Tx>, k: nat): set<Tx>
    requires k <= |a.vin|
  {
    Found(a.(vin := a.vin[..k]), deleted)
  }

  lemma FoundByStep(a: Tx, deleted: seq<Tx>, k: nat, table: map<Outpoint, Tx>)
    requires k < |a.vin| && Spends(table, deleted)
    ensures var o := a.vin[k];
      FoundBy(a, deleted, k + 1) == FoundBy(a, deleted, k)
        + if o in table && table[o].txid != a.txid && Outbids(a, table[o]) then {table[o]} else {}
  {
    var o, a0, a1 := a.vin[k], a.(vin := a.vin[..k]), a.(vin := a.vin[..k + 1]);
    var s := if o in table && table[o].txid != a.txid && Outbids(a, table[o]) then {table[o]} else {};
    assert a1.vin == a0.vin + [o];
    assert a0.txid == a1.txid == a.txid && FoundBy(a, deleted, k) == Found(a0, deleted) && FoundBy(a, deleted, k + 1) == Found(a1, deleted);
    hide *;
    SpendsAt(table, deleted, o);
    SameBid(a, a0, a1, if o in table then table[o] else a);
    forall d ensures d in Found(a1, deleted) <==> d in Found(a0, deleted) + s {
      SameBid(a, a0, a1, d);
      LookupGrows(a0, a1, deleted, o, d);
      FoundIs(a0, deleted, d);
      FoundIs(a1, deleted, d);
    }
  }

  lemma SpendsAt(table: map<Outpoint, Tx>, deleted: seq<Tx>, o: Outpoint)
    requires Spends(table, deleted)
    ensures o in table <==> LastSpender(deleted, o) >= 0
    ensures o in table ==> table[o] == deleted[LastSpender(deleted, o)] && table[o] in deleted
  {
    hide LastSpender;
  }

  lemma SameBid(a: Tx, a0: Tx, a1: Tx, d: Tx)
    requires a0 == a.(vin := a0.vin) && a1 == a.(vin := a1.vin)
    ensures Outbids(a0, d) == Outbids(a1, d) == Outbids(a, d)
  {
  }

  lemma OutbidsIs(a: Tx, d: Tx)
    ensures Outbids(a, d) <==> a.fee > d.fee && a.rate > d.rate
  {
  }

  lemma FoundIs(a: Tx, deleted: seq<Tx>, d: Tx)
    ensures d in Found(a, deleted) <==> d in deleted && d.txid != a.txid && Outbids(a, d) && exists o :: LooksUp(a, deleted, o, d)
  {
    hide LooksUp, Outbids;
  }

  lemma LookupGrows(a0: Tx, a1: Tx, deleted: seq<Tx>, o: Outpoint, d: Tx)
    requires a1.vin == a0.vin + [o]
    ensures (exists o' :: LooksUp(a1, deleted, o', d)) <==> (exists o' :: LooksUp(a0, deleted, o', d)) || (LastSpender(deleted, o) >= 0 && deleted[LastSpender(deleted, o)] == d)
  {
    if o' :| LooksUp(a1, deleted, o', d) {
      assert o' == o || LooksUp(a0, deleted, o', d);
    }
    if o' :| LooksUp(a0, deleted, o', d) {
      assert LooksUp(a1, deleted, o', d);
    }
    if LastSpender(deleted, o) >= 0 && deleted[LastSpender(deleted, o)] == d {
      assert LooksUp(a1, deleted, o, d);
    }
  }

  lemma FoundByNone(a: Tx, deleted: seq<Tx>)
    ensures FoundBy(a, deleted, 0) == {} && FoundBy(a, deleted, |a.vin|) == Found(a, deleted)
  {
    assert a.vin[..|a.vin|] == a.vin;
    assert a.(vin := a.vin) == a;
  }

  /** The inner loop: a match is (re)written after every input as long as anything has been found. */
  method MatchInputs(addedTx: Tx, deletedSpendMap: map<Outpoint, Tx>, before: map<Txid, Match>, ghost deleted: seq<Tx>) returns (matches: map<Txid, Match>)
    requires Spends(deletedSpendMap, deleted)
    ensures matches == if Found(addedTx, deleted) != {} then before[addedTx.txid := Match(Found(addedTx, deleted), addedTx)] else before
  {
    hide *;
    matches := before;
    var foundMatches := {};
    FoundByNone(addedTx, deleted);
    for k := 0 to |addedTx.vin|
      invariant foundMatches == FoundBy(addedTx, deleted, k)
      invariant matches == if foundMatches != {} then before[addedTx.txid := Match(foundMatches, addedTx)] else before
    {
      FoundByStep(addedTx, deleted, k, deletedSpendMap);
      var o := addedTx.vin[k];
      OutbidsIs(addedTx, if o in deletedSpendMap then deletedSpendMap[o] else addedTx);
      if o in deletedSpendMap && deletedSpendMap[o].txid != addedTx.txid
         && addedTx.fee > deletedSpendMap[o].fee && addedTx.rate > deletedSpendMap[o].rate {
        foundMatches := foundMatches + {deletedSpendMap[o]};
      }
      if foundMatches != {} {
        matches := matches[addedTx.txid := Match(foundMatches, addedTx)];
      }
    }
  }

  method FindByLookup(added: seq<Tx>, deleted: seq<Tx>) returns (matches: map<Txid, Match>)
    requires DistinctIds(added)
    ensures Matches(matches, added, a => Found(a, deleted))
  {
    hide LastSpender;
    ghost var found := a => Found(a, deleted);
    var deletedSpendMap := BuildSpendMap(deleted);
    matches := map[];
    MatchesStart(found);
    for i := 0 to |added|
      invariant Matches(matches, added[..i], found)
    {
      assert added[..i + 1] == added[..i] + [added[i]];
      MatchesStep(matches, added[..i], added[i], found);
      matches := MatchInputs(added[i], deletedSpendMap, matches, deleted);
    }
    assert added[..|added|] == added;
  }

  /** Small inputs take the nested form, large or forced ones the lookup table. */
  method FindRbfTransactions(added: seq<Tx>, deleted: seq<Tx>, forceScalable: bool) returns (matches: map<Txid, Match>)
    requires DistinctIds(added)
    ensures Matches(matches, added, if |added| < 1000 && |deleted| < 50 && !forceScalable then a => Conflicts(a, deleted) else a => Found(a, deleted))
  {
    if |added| < 1000 && |deleted| < 50 && !forceScalable {
      matches := FindNested(added, deleted);
    } else {
      matches := FindByLookup(added, deleted);
    }
  }
}
