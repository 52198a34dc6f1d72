/** Removing whole replacement trees from the maps. */
module RbfRemoval {
  import opened Collections
  import opened RbfTrees
  import opened RbfIndex

  /** The maps without the transactions "s"; trees are removed separately. */
  ghost function Without(c: Maps, s: set<Txid>): Maps {
    c.(replacedBy := c.replacedBy - s, prior := c.prior - s, treeMap := c.treeMap - s, txs := c.txs - s, expiring := c.expiring - s)
  }

  // ---------- one removal, from a state in which the invariant may be broken ----------

  /** "t" is what the maps say about the versions "x" replaced; "root" is the tree they are recorded under. */
  ghost predicate Describes(c: Maps, x: Txid, t: RbfTree, root: Txid) {
    && t.tx.txid == x && Distinct(t) && Indexed(c.replacedBy, c.prior, t)
    && (forall y :: y in Ids(t) && y in c.treeMap ==> c.treeMap[y] == root) && root !in IdsOf(t.prior)
  }

  lemma DescribesParts(c: Maps, x: Txid, t: RbfTree, root: Txid)
    requires Describes(c, x, t, root)
    ensures t.tx.txid == x && x in Ids(t) && Ids(t) == {x} + IdsOf(t.prior) && x !in IdsOf(t.prior) && DistinctAll(t.prior)
    ensures x !in c.replacedBy && Listed(c.prior, x) == RootIds(t.prior) && root !in IdsOf(t.prior) && |RootIds(t.prior)| == |t.prior|
    ensures x in c.treeMap ==> c.treeMap[x] == root
  {
    EdgeKeys(t);
    hide Parents, IdsOf, DistinctAll;
  }

  /** The state after the first "i" earlier versions are gone; the next one is no longer recorded as replaced. */
  ghost function Halfway(c: Maps, x: Txid, t: RbfTree, i: nat): Maps
    requires i <= |t.prior|
  {
    Without(c, {x} + IdsOf(t.prior[..i]))
  }

  lemma PrefixIds(ts: seq<RbfTree>, i: nat)
    requires i < |ts|
    ensures IdsOf(ts[..i + 1]) == IdsOf(ts[..i]) + Ids(ts[i])
  {
    assert ts[..i + 1] == ts[..i] + [ts[i]];
    IdsAppend(ts[..i], ts[i]);
  }

  lemma {:induction false} PrefixDisjoint(ts: seq<RbfTree>, i: nat)
    requires DistinctAll(ts) && i < |ts|
    ensures Ids(ts[i]) !! IdsOf(ts[..i])
  {
    forall y | y in IdsOf(ts[..i]) ensures y !in Ids(ts[i]) {
      var j := IdsOfMember(ts[..i], y);
      MembersDisjoint(ts, j, i);
    }
  }

  lemma ChildDescribed(c: Maps, x: Txid, t: RbfTree, root: Txid, i: nat)
    requires Describes(c, x, t, root) && i < |t.prior|
    ensures var u, h := t.prior[i], Halfway(c, x, t, i);
      Describes(h.(replacedBy := h.replacedBy - {u.tx.txid}), u.tx.txid, u, root)
  {
    hide *;
    var u, h := t.prior[i], Halfway(c, x, t, i);
    DescribesParts(c, x, t, root);
    MemberEdges(x, t.prior, i);
    MemberIds(t.prior, i);
    MemberDistinct(t.prior, i);
    PrefixDisjoint(t.prior, i);
    HalfwayParts(c, x, t, i);
    IndexedBelow(c, x, t, root, i);
    ChildIndexed(c.replacedBy, c.prior, u, {x} + IdsOf(t.prior[..i]));
    UnionDisjoint(Ids(u), x, IdsOf(t.prior[..i]));
    ChildFits(c, h, t, root, u, {x} + IdsOf(t.prior[..i]));
  }

  lemma UnionDisjoint(s: set<Txid>, x: Txid, s': set<Txid>)
    requires x !in s && s !! s'
    ensures s !! {x} + s'
  {
  }

  lemma HalfwayParts(c: Maps, x: Txid, t: RbfTree, i: nat)
    requires i <= |t.prior|
    ensures Halfway(c, x, t, i) == Without(c, {x} + IdsOf(t.prior[..i]))
  {
  }

  lemma IndexedBelow(c: Maps, x: Txid, t: RbfTree, root: Txid, i: nat)
    requires Describes(c, x, t, root) && i < |t.prior|
    requires Ids(t.prior[i]) <= IdsOf(t.prior) && x !in IdsOf(t.prior)
    requires Same(ParentsOf(x, t.prior), Parents(t.prior[i]), Ids(t.prior[i]) - {t.prior[i].tx.txid})
    requires Same(ChildrenOf(t.prior), Children(t.prior[i]), Ids(t.prior[i]))
    ensures Same(c.replacedBy, Parents(t.prior[i]), Ids(t.prior[i]) - {t.prior[i].tx.txid})
    ensures forall y :: y in Ids(t.prior[i]) ==> Listed(c.prior, y) == Listed(Children(t.prior[i]), y)
  {
    hide *;
    TreeEdges(t);
    DescribedIndex(c, x, t, root);
    SubtreeEdges(c.replacedBy, c.prior, t, t.prior[i], x);
  }

  lemma TreeEdges(t: RbfTree)
    ensures Parents(t) == ParentsOf(t.tx.txid, t.prior)
    ensures Children(t) == ChildrenOf(t.prior) + map[t.tx.txid := RootIds(t.prior)]
    ensures Ids(t) == {t.tx.txid} + IdsOf(t.prior)
  {
  }

  lemma DescribedIndex(c: Maps, x: Txid, t: RbfTree, root: Txid)
    requires Describes(c, x, t, root)
    ensures t.tx.txid == x && Indexed(c.replacedBy, c.prior, t)
  {
  }

  lemma SubtreeEdges(m: map<Txid, Txid>, prior: map<Txid, seq<Txid>>, t: RbfTree, u: RbfTree, x: Txid)
    requires Indexed(m, prior, t) && Ids(t) == {x} + IdsOf(t.prior) && Ids(u) <= IdsOf(t.prior) && x !in IdsOf(t.prior)
    requires Parents(t) == ParentsOf(x, t.prior) && Children(t) == ChildrenOf(t.prior) + map[x := RootIds(t.prior)]
    requires Same(ParentsOf(x, t.prior), Parents(u), Ids(u) - {u.tx.txid}) && Same(ChildrenOf(t.prior), Children(u), Ids(u))
    ensures Same(m, Parents(u), Ids(u) - {u.tx.txid})
    ensures forall y :: y in Ids(u) ==> Listed(prior, y) == Listed(Children(u), y)
  {
    hide Ids, IdsOf, Parents, ParentsOf, Children, ChildrenOf;
    forall y | y in Ids(u) ensures Listed(prior, y) == Listed(Children(u), y) {
      assert y in Ids(t) && y != x;
    }
  }

  /** Taking away what lies elsewhere, and the link to the parent, leaves a subtree indexed. */
  lemma ChildIndexed(m: map<Txid, Txid>, prior: map<Txid, seq<Txid>>, u: RbfTree, s: set<Txid>)
    requires Same(m, Parents(u), Ids(u) - {u.tx.txid}) && Distinct(u)
    requires forall y :: y in Ids(u) ==> Listed(prior, y) == Listed(Children(u), y)
    ensures Ids(u) !! s ==> Indexed(m - s - {u.tx.txid}, prior - s, u)
  {
    EdgeKeys(u);
    assert u.tx.txid !in Parents(u);
    hide Ids, Parents, Children, Distinct;
  }

  lemma ChildFits(c: Maps, h: Maps, t: RbfTree, root: Txid, u: RbfTree, s: set<Txid>)
    requires Describes(c, t.tx.txid, t, root) && h == Without(c, s) && Ids(u) !! s
    requires Ids(u) <= IdsOf(t.prior) && Distinct(u) && Indexed(c.replacedBy - s - {u.tx.txid}, c.prior - s, u)
    ensures Describes(h.(replacedBy := h.replacedBy - {u.tx.txid}), u.tx.txid, u, root)
  {
    assert forall y :: y in IdsOf(t.prior) ==> y in Ids(t);
    assert forall y :: y in IdsOf(u.prior) ==> y in Ids(u);
    hide Ids, IdsOf, Distinct, Indexed;
  }

  lemma HalfwayStarts(c: Maps, x: Txid, t: RbfTree)
    ensures Halfway(c, x, t, 0) == Without(c, {x})
  {
    assert IdsOf(t.prior[..0]) == {};
    assert {x} + IdsOf(t.prior[..0]) == {x};
  }

  lemma HalfwayStep(c: Maps, x: Txid, t: RbfTree, i: nat)
    requires i < |t.prior|
    ensures var u, h := t.prior[i], Halfway(c, x, t, i);
      Without(h.(replacedBy := h.replacedBy - {u.tx.txid}), Ids(u)) == Halfway(c, x, t, i + 1)
  {
    var u := t.prior[i];
    PrefixIds(t.prior, i);
    assert u.tx.txid in Ids(u);
    hide IdsOf, Ids;
    WithoutTwice(c, {x} + IdsOf(t.prior[..i]), u.tx.txid, Ids(u));
    assert {x} + IdsOf(t.prior[..i + 1]) == {x} + IdsOf(t.prior[..i]) + Ids(u);
  }

  lemma WithoutTwice(c: Maps, s: set<Txid>, x: Txid, s': set<Txid>)
    requires x in s'
    ensures var h := Without(c, s);
      Without(h.(replacedBy := h.replacedBy - {x}), s') == Without(c, s + s')
  {
    MinusTwice(c.replacedBy, s, x, s');
    MinusTwice(c.prior, s, x, s');
    MinusTwice(c.treeMap, s, x, s');
    MinusTwice(c.txs, s, x, s');
    MinusTwice(c.expiring, s, x, s');
  }

  lemma MinusTwice<V>(m: map<Txid, V>, s: set<Txid>, x: Txid, s': set<Txid>)
    requires x in s'
    ensures m - s - {x} - s' == m - (s + s') == m - s - s'
  {
  }

  lemma HalfwayEnds(c: Maps, x: Txid, t: RbfTree)
    requires t.tx.txid == x
    ensures Halfway(c, x, t, |t.prior|) == Without(c, Ids(t))
  {
    assert t.prior[..|t.prior|] == t.prior;
  }

  lemma FirstRemoved(c: Maps, c': Maps, x: Txid, t: RbfTree)
    requires x !in c.replacedBy && c' == c.(prior := c.prior - {x}, treeMap := c.treeMap - {x}, txs := c.txs - {x}, expiring := c.expiring - {x},
                                            rbfTrees := c'.rbfTrees)
    ensures c' == Halfway(c, x, t, 0).(rbfTrees := c'.rbfTrees)
  {
    HalfwayStarts(c, x, t);
    assert c.replacedBy - {x} == c.replacedBy;
    hide Halfway;
  }

  /** One round of the recursion is set up, and will lead to the next state. */
  lemma RemoveNext(c: Maps, h: Maps, x: Txid, t: RbfTree, root: Txid, i: nat, trees: map<Txid, RbfTree>)
    requires Describes(c, x, t, root) && i < |t.prior| && h == Halfway(c, x, t, i).(rbfTrees := trees)
    ensures var u := t.prior[i]; var h' := h.(replacedBy := h.replacedBy - {u.tx.txid});
      && RootIds(t.prior)[i] == u.tx.txid && u.tx.txid !in h'.replacedBy && Describes(h', u.tx.txid, u, root)
      && !(u.tx.txid in h'.treeMap && h'.treeMap[u.tx.txid] == u.tx.txid)
      && Without(h', Ids(u)) == Halfway(c, x, t, i + 1).(rbfTrees := trees)
  {
    hide *;
    var u := t.prior[i];
    var g := Halfway(c, x, t, i);
    ChildDescribed(c, x, t, root, i);
    HalfwayStep(c, x, t, i);
    var g' := g.(replacedBy := g.replacedBy - {u.tx.txid});
    TreesAside(g', u.tx.txid, u, root, trees);
    RootIdAt(t.prior, i);
    DescribesParts(c, x, t, root);
    MemberIds(t.prior, i);
    DescribesParts(g', u.tx.txid, u, root);
  }

  lemma RootIdAt(ts: seq<RbfTree>, i: nat)
    requires i < |ts|
    ensures |RootIds(ts)| == |ts| && RootIds(ts)[i] == ts[i].tx.txid
  {
  }

  lemma TreesAside(c: Maps, x: Txid, u: RbfTree, root: Txid, trees: map<Txid, RbfTree>)
    requires Describes(c, x, u, root)
    ensures Describes(c.(rbfTrees := trees), x, u, root)
    ensures Without(c.(rbfTrees := trees), Ids(u)) == Without(c, Ids(u)).(rbfTrees := trees)
  {
    hide Ids, Indexed, Distinct;
  }

  // ---------- removal in a valid cache ----------

  /** The transactions of the trees whose roots are in "roots". */
  ghost function Members(c: Maps, roots: set<Txid>): set<Txid> {
    set x | x in c.treeMap && c.treeMap[x] in roots
  }

  lemma MembersOfTree(c: Maps, r: Txid)
    requires Valid(c) && r in c.rbfTrees
    ensures Members(c, {r}) == Ids(c.rbfTrees[r])
  {
    hide Ids, SoundTree, Indexed, KeysMatch;
    var t := c.rbfTrees[r];
    OldTreeOwned(c, r);
    forall x ensures x in Members(c, {r}) <==> x in Ids(t) {
      if x in c.treeMap && c.treeMap[x] == r {
        assert Placed(c, x);
      }
    }
  }

  /** The trees in "gone" are removed, and the expiry entries "dropped". */
  ghost function Pruned(c: Maps, gone: set<Txid>, dropped: set<Txid>): Maps {
    var c' := Without(c, Members(c, gone));
    c'.(rbfTrees := c.rbfTrees - gone, expiring := c'.expiring - dropped)
  }

  /** Whatever trees are removed, what is left is the index of what is left. */
  lemma PrunedValid(c: Maps, gone: set<Txid>, dropped: set<Txid>)
    requires Valid(c)
    ensures Valid(Pruned(c, gone, dropped))
  {
    var c' := Pruned(c, gone, dropped);
    forall r | r in c'.rbfTrees
      ensures SoundTree(c', r, c'.rbfTrees[r]) && Owned(c'.treeMap, r, c'.rbfTrees[r]) && Indexed(c'.replacedBy, c'.prior, c'.rbfTrees[r])
    {
      PrunedTree(c, gone, dropped, r);
    }
    forall x | x in c'.treeMap ensures Placed(c', x) {
      PrunedPlaced(c, gone, dropped, x);
    }
    PrunedKeys(c, gone, dropped);
    hide SoundTree, Owned, Indexed, Placed, KeysMatch, Pruned;
  }

  lemma PrunedTree(c: Maps, gone: set<Txid>, dropped: set<Txid>, r: Txid)
    requires Valid(c) && r in c.rbfTrees && r !in gone
    ensures var c', t := Pruned(c, gone, dropped), c.rbfTrees[r];
      SoundTree(c', r, t) && Owned(c'.treeMap, r, t) && Indexed(c'.replacedBy, c'.prior, t)
  {
    hide Valid, Ids, Distinct, NodesRight, Faithful;
    var t := c.rbfTrees[r];
    OldTreeOwned(c, r);
    TreeMapped(c, r);
    forall x | x in Ids(t) ensures x !in Members(c, gone) {
    }
    FaithfulSame(t, c.txs, c.txs - Members(c, gone));
  }

  lemma PrunedPlaced(c: Maps, gone: set<Txid>, dropped: set<Txid>, x: Txid)
    requires Valid(c) && x in c.treeMap && c.treeMap[x] !in gone
    ensures Placed(Pruned(c, gone, dropped), x)
  {
    assert Placed(c, x);
    hide Valid, Ids;
  }

  lemma PrunedKeys(c: Maps, gone: set<Txid>, dropped: set<Txid>)
    requires Valid(c)
    ensures KeysMatch(Pruned(c, gone, dropped))
  {
    ValidKeys(c);
    hide Valid;
  }

  /** The tree of a root describes it, and the stub of an unknown transaction describes that. */
  ghost function Versions(c: Maps, x: Txid): RbfTree {
    if x in c.rbfTrees then c.rbfTrees[x] else RbfTree(RbfTx(x, 0, 0.0, 0, 0.0, false, false, None), 0, None, false, false, [])
  }

  /** The trees that removing "x" takes away: its own if it is unreplaced, none otherwise. */
  ghost function TreesRemoved(c: Maps, x: Txid): set<Txid> {
    if x in c.treeMap && x !in c.replacedBy then {x} else {}
  }

  lemma VersionsDescribe(c: Maps, x: Txid)
    requires Valid(c) && x !in c.replacedBy
    ensures Describes(c, x, Versions(c, x), x)
    ensures x in c.treeMap ==> x in c.rbfTrees && c.treeMap[x] == x && Ids(Versions(c, x)) == Members(c, {x})
    ensures x !in c.treeMap ==> x !in c.rbfTrees && Ids(Versions(c, x)) == {x} && x !in c.prior && x !in c.txs && x !in c.expiring
  {
    hide *;
    if x in c.treeMap {
      UnreplacedIsRoot(c, x);
      UniqueIdAndExistence(c, x);
      OldTreeOwned(c, x);
      MembersOfTree(c, x);
      RootDescribed(c, x);
    } else {
      NoTreeThere(c, x);
      ValidKeys(c);
      StubDescribed(c, x);
    }
  }

  lemma RootDescribed(c: Maps, x: Txid)
    requires x in c.rbfTrees && SoundTree(c, x, c.rbfTrees[x]) && Owned(c.treeMap, x, c.rbfTrees[x])
    requires Indexed(c.replacedBy, c.prior, c.rbfTrees[x])
    ensures Versions(c, x) == c.rbfTrees[x] && Describes(c, x, Versions(c, x), x)
  {
    hide Indexed, Ids, DistinctAll;
  }

  lemma StubDescribed(c: Maps, x: Txid)
    requires KeysMatch(c) && x !in c.treeMap && x !in c.rbfTrees && x !in c.replacedBy && x !in c.prior
    ensures Describes(c, x, Versions(c, x), x) && Ids(Versions(c, x)) == {x} && x !in c.txs && x !in c.expiring
  {
    var t := Versions(c, x);
    assert t.prior == [] && RootIds(t.prior) == [];
    assert IdsOf(t.prior) == {} && ChildrenOf(t.prior) == map[];
    TreeEdges(t);
    assert Ids(t) == {x} && Parents(t) == map[] && Children(t) == map[x := []];
    assert Distinct(t);
    hide Ids, Parents, Children, Distinct;
  }

  /** What the recursion leaves behind is what pruning says. */
  lemma RemovalIsPruning(c: Maps, c': Maps, x: Txid)
    requires Valid(c)
    requires if x in c.replacedBy then c' == c else
      c' == Without(c, Ids(Versions(c, x))).(rbfTrees := if x in c.treeMap && c.treeMap[x] == x then c.rbfTrees - {x} else c.rbfTrees)
    ensures c' == Pruned(c, TreesRemoved(c, x), {}) && Valid(c')
  {
    hide *;
    PrunedValid(c, TreesRemoved(c, x), {});
    if x in c.replacedBy {
      PrunedNothing(c, x);
    } else {
      VersionsDescribe(c, x);
      PrunedOne(c, c', x);
    }
  }

  lemma PrunedNothing(c: Maps, x: Txid)
    requires x in c.replacedBy
    ensures Pruned(c, TreesRemoved(c, x), {}) == c
  {
    assert Members(c, {}) == {};
  }

  lemma PrunedOne(c: Maps, c': Maps, x: Txid)
    requires x !in c.replacedBy
    requires x in c.treeMap ==> c.treeMap[x] == x && Ids(Versions(c, x)) == Members(c, {x})
    requires x !in c.treeMap ==> Ids(Versions(c, x)) == {x} && x !in c.prior && x !in c.txs && x !in c.expiring
    requires c' == Without(c, Ids(Versions(c, x))).(rbfTrees := if x in c.treeMap && c.treeMap[x] == x then c.rbfTrees - {x} else c.rbfTrees)
    ensures c' == Pruned(c, TreesRemoved(c, x), {})
  {
    hide Ids, Versions;
    if x in c.treeMap {
      MinusNothing(c.expiring - Members(c, {x}));
    } else {
      assert Members(c, {}) == {};
      MinusAbsent(c.replacedBy, x);
      MinusAbsent(c.prior, x);
      MinusAbsent(c.treeMap, x);
      MinusAbsent(c.txs, x);
      MinusAbsent(c.expiring, x);
    }
  }

  lemma MinusNothing<V>(m: map<Txid, V>)
    ensures m - {} == m
  {
  }

  lemma MinusAbsent<V>(m: map<Txid, V>, x: Txid)
    requires x !in m
    ensures m - {x} == m == m - {} == m - {} - {}
  {
  }

  // ---------- cleaning up ----------

  ghost function Expired(c: Maps, now: int, among: set<Txid>): set<Txid> {
    set x | x in among && x in c.expiring && c.expiring[x] < now
  }

  /** The expired transactions that nothing replaced. */
  ghost function ExpiredRoots(c: Maps, now: int, among: set<Txid>): set<Txid> {
    set x | x in Expired(c, now, among) && x in c.treeMap && x !in c.replacedBy
  }

  /** The cache after the expiry entries "visited" have been dealt with, in whatever order. */
  ghost function Cleaned(c: Maps, now: int, visited: set<Txid>): Maps {
    Pruned(c, ExpiredRoots(c, now, visited), Expired(c, now, visited))
  }

  lemma CleanedNothing(c: Maps, now: int)
    ensures Cleaned(c, now, {}) == c
  {
    var none := Expired(c, now, {});
    assert forall x :: x !in none;
    assert none == {};
    var roots := ExpiredRoots(c, now, {});
    assert forall x :: x !in roots;
    assert roots == {};
    assert Members(c, {}) == {};
  }

  /** An entry that is gone, or not yet due, changes nothing. */
  lemma CleanedSkip(c: Maps, now: int, visited: set<Txid>, x: Txid)
    requires Valid(c) && x in c.expiring && x !in visited
    requires var h := Cleaned(c, now, visited); x !in h.expiring || h.expiring[x] >= now
    ensures Cleaned(c, now, visited + {x}) == Cleaned(c, now, visited)
  {
    hide *;
    var gone, dropped := ExpiredRoots(c, now, visited), Expired(c, now, visited);
    CleanedIs(c, now, visited);
    CleanedIs(c, now, visited + {x});
    ValidKeys(c);
    if c.expiring[x] < now {
      AlreadyGone(c, gone, dropped, x);
      EntryNotDropped(c, now, visited, x);
      MemberRoot(c, gone, x);
      GoneAlready(c, now, visited, x);
      DueEntry(c, now, visited, x);
      assert gone + {} == gone;
      DroppedAlready(c, gone, dropped, x);
    } else {
      NotDue(c, now, visited, x);
    }
  }

  lemma NotDue(c: Maps, now: int, visited: set<Txid>, x: Txid)
    requires x in c.expiring && c.expiring[x] >= now
    ensures ExpiredRoots(c, now, visited + {x}) == ExpiredRoots(c, now, visited) && Expired(c, now, visited + {x}) == Expired(c, now, visited)
  {
    assert forall y :: y in Expired(c, now, visited + {x}) <==> y in Expired(c, now, visited);
  }

  lemma EntryNotDropped(c: Maps, now: int, visited: set<Txid>, x: Txid)
    requires x !in visited
    ensures x !in Expired(c, now, visited)
  {
  }

  /** An entry that is not there any more was dropped, or its tree is gone. */
  lemma AlreadyGone(c: Maps, gone: set<Txid>, dropped: set<Txid>, x: Txid)
    requires KeysMatch(c) && x in c.expiring
    ensures x in c.treeMap
    ensures x !in Pruned(c, gone, dropped).expiring ==> x in dropped || x in Members(c, gone)
    ensures x in Pruned(c, gone, dropped).expiring ==> Pruned(c, gone, dropped).expiring[x] == c.expiring[x]
  {
  }

  lemma MemberRoot(c: Maps, gone: set<Txid>, x: Txid)
    ensures x in Members(c, gone) <==> x in c.treeMap && c.treeMap[x] in gone
  {
  }

  lemma DroppedAlready(c: Maps, gone: set<Txid>, dropped: set<Txid>, x: Txid)
    requires x in Members(c, gone)
    ensures Pruned(c, gone, dropped + {x}) == Pruned(c, gone, dropped)
  {
  }

  /** A member of a tree that is gone but was not visited is not a root. */
  lemma GoneAlready(c: Maps, now: int, visited: set<Txid>, x: Txid)
    requires Valid(c) && x !in visited && x in c.treeMap && c.treeMap[x] in ExpiredRoots(c, now, visited)
    ensures x in c.replacedBy
  {
    UnreplacedIsRoot(c, x);
    hide Valid;
  }

  /** An entry that is due takes its tree away if it is a root's. */
  lemma CleanedStep(c: Maps, now: int, visited: set<Txid>, x: Txid)
    requires Valid(c) && x in c.expiring && x !in visited
    requires var h := Cleaned(c, now, visited); x in h.expiring && h.expiring[x] < now
    ensures var h := Cleaned(c, now, visited); var d := h.(expiring := h.expiring - {x});
      Pruned(d, TreesRemoved(d, x), {}) == Cleaned(c, now, visited + {x})
  {
    hide *;
    var gone, dropped := ExpiredRoots(c, now, visited), Expired(c, now, visited);
    var h := Cleaned(c, now, visited);
    CleanedIs(c, now, visited);
    ValidKeys(c);
    KeptEntry(c, gone, dropped, x);
    DueEntry(c, now, visited, x);
    if x in c.replacedBy {
      PruneEntry(c, gone, dropped, x);
    } else {
      PruneRoot(c, gone, dropped, x);
    }
    CleanedIs(c, now, visited + {x});
  }

  lemma CleanedIs(c: Maps, now: int, visited: set<Txid>)
    ensures Cleaned(c, now, visited) == Pruned(c, ExpiredRoots(c, now, visited), Expired(c, now, visited))
  {
  }

  lemma KeptEntry(c: Maps, gone: set<Txid>, dropped: set<Txid>, x: Txid)
    requires KeysMatch(c) && x in c.expiring && x in Pruned(c, gone, dropped).expiring
    ensures x in c.treeMap && c.treeMap[x] !in gone && x !in dropped && Pruned(c, gone, dropped).expiring[x] == c.expiring[x]
  {
  }

  lemma DueEntry(c: Maps, now: int, visited: set<Txid>, x: Txid)
    requires x in c.expiring && c.expiring[x] < now && x in c.treeMap
    ensures Expired(c, now, visited + {x}) == Expired(c, now, visited) + {x}
    ensures ExpiredRoots(c, now, visited + {x}) == ExpiredRoots(c, now, visited) + if x in c.replacedBy then {} else {x}
  {
  }

  lemma PruneEntry(c: Maps, gone: set<Txid>, dropped: set<Txid>, x: Txid)
    requires x in c.replacedBy && x in c.treeMap && c.treeMap[x] !in gone
    ensures var h := Pruned(c, gone, dropped); var d := h.(expiring := h.expiring - {x});
      Pruned(d, TreesRemoved(d, x), {}) == Pruned(c, gone + {}, dropped + {x})
  {
    var h := Pruned(c, gone, dropped);
    var d := h.(expiring := h.expiring - {x});
    assert x in d.replacedBy;
    PrunedNothing(d, x);
    assert gone + {} == gone;
    hide TreesRemoved;
  }

  lemma PruneRoot(c: Maps, gone: set<Txid>, dropped: set<Txid>, x: Txid)
    requires x !in c.replacedBy && x in c.treeMap && c.treeMap[x] !in gone
    ensures var h := Pruned(c, gone, dropped); var d := h.(expiring := h.expiring - {x});
      Pruned(d, TreesRemoved(d, x), {}) == Pruned(c, gone + {x}, dropped + {x})
  {
    var h := Pruned(c, gone, dropped);
    var d := h.(expiring := h.expiring - {x});
    assert TreesRemoved(d, x) == {x};
    var s, s' := Members(c, gone), Members(d, {x});
    MembersSplit(c, gone, dropped, x);
    assert c.rbfTrees - gone - {x} == c.rbfTrees - (gone + {x});
    MinusTwo(c.replacedBy, s, s');
    MinusTwo(c.prior, s, s');
    MinusTwo(c.treeMap, s, s');
    MinusTwo(c.txs, s, s');
    MinusMany(c.expiring, s, dropped, x, s');
    hide Members;
  }

  lemma MembersSplit(c: Maps, gone: set<Txid>, dropped: set<Txid>, x: Txid)
    ensures Members(c, gone + {x}) == Members(c, gone) + Members(Pruned(c, gone, dropped), {x})
  {
  }

  lemma MinusTwo<V>(m: map<Txid, V>, s: set<Txid>, s': set<Txid>)
    ensures m - s - s' == m - (s + s')
  {
  }

  lemma MinusMany<V>(m: map<Txid, V>, s: set<Txid>, d: set<Txid>, x: Txid, s': set<Txid>)
    ensures m - s - d - {x} - s' - {} == m - (s + s') - (d + {x})
  {
  }

  lemma CleanedValid(c: Maps, now: int, visited: set<Txid>)
    requires Valid(c)
    ensures Valid(Cleaned(c, now, visited))
  {
    hide *;
    CleanedIs(c, now, visited);
    PrunedValid(c, ExpiredRoots(c, now, visited), Expired(c, now, visited));
  }

  /** The state from which the expired transaction "x" is removed. */
  ghost function RemovalState(c: Maps, now: int, visited: set<Txid>, x: Txid): Maps {
    var h := Cleaned(c, now, visited);
    h.(expiring := h.expiring - {x})
  }

  lemma RemovalDuringCleanup(c: Maps, d: Maps, now: int, visited: set<Txid>, x: Txid)
    requires Valid(c) && x in Cleaned(c, now, visited).expiring
    requires var h := Cleaned(c, now, visited); d == h.(expiring := h.expiring - {x})
    ensures d == RemovalState(c, now, visited, x) && Valid(d)
    ensures x !in d.replacedBy ==> Describes(d, x, Versions(d, x), x)
    ensures Versions(d, x) == Versions(RemovalState(c, now, visited, x), x)
  {
    hide *;
    var h := Cleaned(c, now, visited);
    CleanedValid(c, now, visited);
    ValidKeys(h);
    FewerKeys(h, x);
    ExpiringMayChange(h, h.expiring - {x});
    RemovalStateIs(c, now, visited, x);
    if x !in d.replacedBy {
      VersionsDescribe(d, x);
    }
  }

  lemma FewerKeys(h: Maps, x: Txid)
    requires KeysMatch(h)
    ensures (h.expiring - {x}).Keys <= h.txs.Keys
  {
  }

  lemma RemovalStateIs(c: Maps, now: int, visited: set<Txid>, x: Txid)
    ensures var h := Cleaned(c, now, visited); RemovalState(c, now, visited, x) == h.(expiring := h.expiring - {x})
  {
  }

  /** Cleaning up keeps every version of a transaction whose newest version has not expired, and nothing else. */
  lemma CleanedKeeps(c: Maps, now: int, x: Txid)
    requires Valid(c) && x in c.txs
    ensures var c' := Cleaned(c, now, c.expiring.Keys); var r := c.treeMap[x];
      && (x in c'.txs <==> r !in c.expiring || c.expiring[r] >= now)
      && (x in c'.txs ==> r in c'.rbfTrees && c'.rbfTrees[r] == c.rbfTrees[r])
  {
    ValidKeys(c);
    UniqueIdAndExistence(c, x);
    UnreplacedIsRoot(c, c.treeMap[x]);
    hide Valid;
  }
}
