/** Following a chain reorganisation: re-pointing the canonical rows of the block table and rebuilding the block cache. */
module Reorg {
  import opened Collections

  type Hash = int

  /** What a block hash commits to. */
  datatype Header = Header(height: int, prev: Hash)

  datatype Row = Row(header: Header, stale: bool)

  datatype Block = Block(id: Hash, header: Header)

  type Chain = map<Hash, Header>

  type Table = map<Hash, Row>

  // ---------- blocks and their ancestors ----------

  ghost predicate Rooted(chain: Chain, h: Hash) {
    h in chain && chain[h].height >= 0 && (chain[h].height > 0 ==> chain[h].prev in chain && chain[chain[h].prev].height == chain[h].height - 1)
  }

  /** Every block above the genesis has a known parent, one lower. */
  ghost predicate WellFormed(chain: Chain) {
    forall h :: h in chain ==> Rooted(chain, h)
  }

  /** The ancestors of a block, by height, and the block itself at the end. */
  ghost function Line(chain: Chain, h: Hash): seq<Hash>
    requires WellFormed(chain) && h in chain
    decreases chain[h].height
  {
    assert Rooted(chain, h);
    if chain[h].height <= 0 then [h] else Line(chain, chain[h].prev) + [h]
  }

  /** "line" lists one ancestor per height. */
  ghost predicate IsLine(chain: Chain, line: seq<Hash>) {
    && (forall k :: 0 <= k < |line| ==> line[k] in chain && chain[line[k]].height == k)
    && (forall j, k :: 0 <= j < k < |line| && k == j + 1 ==> chain[line[k]].prev == line[j])
  }

  lemma {:induction false} LineIsLine(chain: Chain, h: Hash)
    requires WellFormed(chain) && h in chain
    ensures IsLine(chain, Line(chain, h)) && |Line(chain, h)| == chain[h].height + 1 && Line(chain, h)[chain[h].height] == h
    decreases chain[h].height
  {
    assert Rooted(chain, h);
    if chain[h].height > 0 {
      LineIsLine(chain, chain[h].prev);
    }
  }

  // ---------- the table ----------

  ghost predicate Agrees(t: Table, chain: Chain) {
    forall h :: h in t ==> h in chain && t[h].header == chain[h]
  }

  /** "h" is a row of the best chain at height "k". */
  ghost predicate Canonical(t: Table, h: Hash, k: int) {
    h in t && !t[h].stale && t[h].header.height == k
  }

  ghost predicate OneCanonical(t: Table) {
    forall a, b, k :: Canonical(t, a, k) && Canonical(t, b, k) ==> a == b
  }

  function MarkCanonical(t: Table, hash: Hash): Table {
    map h | h in t :: if h == hash then t[h].(stale := false) else t[h]
  }

  function MarkOthersStale(t: Table, height: int, hash: Option<Hash>): Table {
    map h | h in t :: if t[h].header.height == height && Some(h) != hash then t[h].(stale := true) else t[h]
  }

  /** The table after the two updates that make a block, or none, canonical at a height. */
  ghost function Designated(t: Table, hash: Option<Hash>, height: int): Table {
    MarkOthersStale(if hash.Some? then MarkCanonical(t, hash.value) else t, height, hash)
  }

  /** The rows, and what the table says they are, stay. */
  ghost predicate SameRows(t: Table, t': Table) {
    t'.Keys == t.Keys && forall h :: h in t ==> t'[h].header == t[h].header
  }

  /** Afterwards only the given block can be canonical at the height; all other heights are as before if the
      block's own row is at that height. */
  lemma SetCanonicalUnique(t: Table, hash: Option<Hash>, height: int)
    ensures var t' := Designated(t, hash, height);
      && SameRows(t, t')
      && (forall h :: Canonical(t', h, height) <==> Some(h) == hash && h in t && t[h].header.height == height)
      && (AtHeight(t, hash, height) ==> forall h, k :: k != height ==> (Canonical(t', h, k) <==> Canonical(t, h, k)))
      && (AtHeight(t, hash, height) && OneCanonical(t) ==> OneCanonical(t'))
  {
    var t' := Designated(t, hash, height);
    assert forall h :: Canonical(t', h, height) <==> Some(h) == hash && h in t && t[h].header.height == height;
    if AtHeight(t, hash, height) {
      assert forall h, k :: k != height ==> (Canonical(t', h, k) <==> Canonical(t, h, k));
      hide Canonical, Designated;
    }
  }

  ghost predicate AtHeight(t: Table, hash: Option<Hash>, height: int) {
    hash.Some? && hash.value in t ==> t[hash.value].header.height == height
  }

  /** The table after saving a block: a new row, or an old one made canonical again unless the block is stale. */
  ghost function Saved(t: Table, hash: Hash, row: Row): Table {
    if hash !in t then t[hash := row] else if row.stale then t else Designated(t, Some(hash), row.header.height)
  }

  /** Saving a block keeps one canonical row per height, except when a new block that is not stale lands on a
      height that has one already: then nothing marks the old row stale. */
  lemma SavedUnique(t: Table, hash: Hash, row: Row)
    requires OneCanonical(t) && (hash in t ==> t[hash].header == row.header)
    ensures OneCanonical(Saved(t, hash, row)) <==> hash in t || row.stale || forall h :: !Canonical(t, h, row.header.height)
  {
    var t', height := Saved(t, hash, row), row.header.height;
    if hash in t {
      SetCanonicalUnique(t, Some(hash), height);
    } else {
      assert forall h, k :: Canonical(t', h, k) <==> Canonical(t, h, k) || (h == hash && !row.stale && k == height);
      hide Saved;
      if h :| Canonical(t, h, height) && !row.stale {
        assert Canonical(t', h, height) && Canonical(t', hash, height) && h in t;
      }
    }
  }

  /** A saved block that is not stale is on the best chain. */
  lemma SavedIsCanonical(t: Table, hash: Hash, row: Row, h: Hash, k: int)
    requires hash in t ==> t[hash].header == row.header
    ensures !row.stale ==> Canonical(Saved(t, hash, row), hash, row.header.height)
    ensures k != row.header.height ==> (Canonical(Saved(t, hash, row), h, k) <==> Canonical(t, h, k))
  {
  }

  /** Saving the tip after the walk back. */
  lemma TipSaved(t0: Table, t: Table, chain: Chain, line: seq<Hash>, fork: int, tip: Block, stale: bool)
    requires Moved(t0, t, chain, line, fork, tip.header.height) && WellFormed(chain) && Agrees(t0, chain)
    requires tip.id in chain && chain[tip.id] == tip.header && line == Line(chain, tip.id)
    ensures 0 <= fork <= tip.header.height < |line| && (tip.id in t ==> t[tip.id].header == tip.header)
    ensures tip.id in t <==> tip.id in t0
    ensures forall h :: Canonical(t, h, tip.header.height) <==> Canonical(t0, h, tip.header.height)
    ensures forall h, k :: k < fork || k > tip.header.height ==> (Canonical(t, h, k) <==> Canonical(t0, h, k))
    ensures var t' := Saved(t, tip.id, Row(tip.header, stale));
      && Agrees(t', chain)
      && (!stale ==> forall k :: fork <= k <= tip.header.height ==> Canonical(t', line[k], k))
      && (forall h, k :: k < fork || k > tip.header.height ==> (Canonical(t', h, k) <==> Canonical(t0, h, k)))
  {
    var top, row := tip.header.height, Row(tip.header, stale);
    LineIsLine(chain, tip.id);
    TipNotMoved(t0, t, chain, line, fork, tip);
    SavedAgrees(t, chain, tip.id, row);
    hide *;
    forall h, k | k < fork || k >= top ensures Canonical(t, h, k) <==> Canonical(t0, h, k) {
      MovedElsewhere(t0, t, chain, line, fork, top, h, k);
    }
    var t' := Saved(t, tip.id, row);
    forall h, k | k != top ensures Canonical(t', h, k) <==> Canonical(t, h, k) {
      SavedIsCanonical(t, tip.id, row, h, k);
    }
    if !stale {
      forall k | fork <= k <= top ensures Canonical(t', line[k], k) {
        if k < top {
          MovedThere(t0, t, chain, line, fork, top, line[k], k);
        } else {
          SavedIsCanonical(t, tip.id, row, tip.id, top);
        }
      }
    }
  }

  lemma TipNotMoved(t0: Table, t: Table, chain: Chain, line: seq<Hash>, fork: int, tip: Block)
    requires Moved(t0, t, chain, line, fork, tip.header.height) && IsLine(chain, line) && Agrees(t0, chain)
    requires tip.id in chain && chain[tip.id] == tip.header
    ensures 0 <= fork <= tip.header.height < |line| && Agrees(t, chain)
    ensures (tip.id in t <==> tip.id in t0) && (tip.id in t ==> t[tip.id].header == tip.header)
  {
    var s := line[fork..tip.header.height];
    if tip.id in s {
      var i :| 0 <= i < |s| && s[i] == tip.id;
      assert line[fork + i] == tip.id;
    }
  }

  lemma SavedAgrees(t: Table, chain: Chain, hash: Hash, row: Row)
    requires Agrees(t, chain) && hash in chain && chain[hash] == row.header
    ensures Agrees(Saved(t, hash, row), chain)
  {
  }

  lemma IsDesignated(t: Table, t': Table, hash: Option<Hash>, height: int)
    requires t' == MarkOthersStale(if hash.Some? then MarkCanonical(t, hash.value) else t, height, hash)
    ensures t' == Designated(t, hash, height)
  {
  }

  // ---------- the walk back to the fork ----------

  /** The table once the ancestors of heights "fork" to "top" - 1 are canonical; the others there are stale. */
  ghost predicate Moved(t0: Table, t: Table, chain: Chain, line: seq<Hash>, fork: int, top: int) {
    && 0 <= fork <= top < |line| && Agrees(t, chain)
    && (forall h :: h in t <==> h in t0 || h in line[fork..top])
    && (forall h :: h in t && !(fork <= t[h].header.height < top) ==> h in t0 && t[h] == t0[h])
    && (forall h :: h in t && fork <= t[h].header.height < top ==> t[h].stale == (h != line[t[h].header.height]))
  }

  /** The table had a canonical row at height "k" that is not the ancestor. */
  ghost predicate Diverged(t0: Table, k: int, ancestor: Hash) {
    exists h :: Canonical(t0, h, k) && h != ancestor
  }

  /** From "fork" upwards the old best chain differed from the new one; just below, it is absent or the same. */
  ghost predicate ForkAt(t0: Table, line: seq<Hash>, fork: int, top: int) {
    && 0 <= fork <= top < |line|
    && (forall k :: fork <= k < top ==> Diverged(t0, k, line[k]))
    && (fork == 0 || !Diverged(t0, fork - 1, line[fork - 1]))
  }

  ghost predicate DivergedFrom(t0: Table, line: seq<Hash>, fork: int, top: int) {
    0 <= fork <= top < |line| && forall k :: fork <= k < top ==> Diverged(t0, k, line[k])
  }

  lemma MovedStarts(t: Table, chain: Chain, line: seq<Hash>, top: int)
    requires Agrees(t, chain) && 0 <= top < |line|
    ensures Moved(t, t, chain, line, top, top) && DivergedFrom(t, line, top, top)
  {
    assert line[top..top] == [];
  }

  /** The table with one more block indexed and made canonical. */
  ghost function Repointed(t: Table, chain: Chain, hash: Hash, nodeStale: bool): Table
    requires hash in chain
  {
    Designated(if hash in t then t else t[hash := Row(chain[hash], nodeStale)], Some(hash), chain[hash].height)
  }

  lemma RepointedRows(t: Table, chain: Chain, hash: Hash, nodeStale: bool)
    requires hash in chain && Agrees(t, chain)
    ensures var t' := Repointed(t, chain, hash, nodeStale);
      && Agrees(t', chain) && t'.Keys == t.Keys + {hash}
      && (forall h :: h in t' && chain[h].height == chain[hash].height ==> t'[h].stale == (h != hash))
      && (forall h :: h in t' && chain[h].height != chain[hash].height ==> h in t && t'[h] == t[h])
  {
  }

  lemma MovedStep(t0: Table, t: Table, chain: Chain, line: seq<Hash>, fork: int, top: int, nodeStale: bool)
    requires Moved(t0, t, chain, line, fork, top) && IsLine(chain, line) && fork > 0
    ensures line[fork - 1] in chain
    ensures Moved(t0, Repointed(t, chain, line[fork - 1], nodeStale), chain, line, fork - 1, top)
  {
    var k, hash := fork - 1, line[fork - 1];
    RepointedRows(t, chain, hash, nodeStale);
    var t' := Repointed(t, chain, hash, nodeStale);
    hide Repointed;
    assert line[k..top] == [hash] + line[fork..top];
    assert hash in chain && chain[hash].height == k;
    MovedRows(t0, t, t', chain, line, fork, top);
  }

  lemma MovedRows(t0: Table, t: Table, t': Table, chain: Chain, line: seq<Hash>, fork: int, top: int)
    requires Moved(t0, t, chain, line, fork, top) && fork > 0 && line[fork - 1] in chain && chain[line[fork - 1]].height == fork - 1
    requires line[fork - 1..top] == [line[fork - 1]] + line[fork..top]
    requires Agrees(t', chain) && t'.Keys == t.Keys + {line[fork - 1]}
    requires forall h :: h in t' && chain[h].height == fork - 1 ==> t'[h].stale == (h != line[fork - 1])
    requires forall h :: h in t' && chain[h].height != fork - 1 ==> h in t && t'[h] == t[h]
    ensures Moved(t0, t', chain, line, fork - 1, top)
  {
    forall h | h in t' && !(fork - 1 <= t'[h].header.height < top) ensures h in t0 && t'[h] == t0[h] {
      assert h in t && t'[h] == t[h];
    }
    forall h | h in t' && fork - 1 <= t'[h].header.height < top ensures t'[h].stale == (h != line[t'[h].header.height]) {
      if chain[h].height != fork - 1 {
        assert h in t && t'[h] == t[h];
      }
    }
  }

  /** Outside the moved heights the best chain is the old one. */
  lemma MovedElsewhere(t0: Table, t: Table, chain: Chain, line: seq<Hash>, fork: int, top: int, h: Hash, k: int)
    requires Moved(t0, t, chain, line, fork, top) && Agrees(t0, chain) && (k < fork || k >= top)
    ensures Canonical(t, h, k) <==> Canonical(t0, h, k)
  {
  }

  /** At the moved heights the best chain is the ancestors, and nothing else. */
  lemma MovedThere(t0: Table, t: Table, chain: Chain, line: seq<Hash>, fork: int, top: int, h: Hash, k: int)
    requires Moved(t0, t, chain, line, fork, top) && IsLine(chain, line) && fork <= k < top
    ensures Canonical(t, h, k) <==> h == line[k]
  {
    assert line[fork..top][k - fork] == line[k];
    assert line[k] in t && chain[line[k]].height == k;
  }

  lemma MovedUnique(t0: Table, t: Table, chain: Chain, line: seq<Hash>, fork: int, top: int)
    requires Moved(t0, t, chain, line, fork, top) && IsLine(chain, line) && Agrees(t0, chain) && OneCanonical(t0)
    ensures OneCanonical(t) && Agrees(t, chain)
  {
    forall a, b, k | Canonical(t, a, k) && Canonical(t, b, k) ensures a == b {
      if fork <= k < top {
        MovedThere(t0, t, chain, line, fork, top, a, k);
        MovedThere(t0, t, chain, line, fork, top, b, k);
      } else {
        MovedElsewhere(t0, t, chain, line, fork, top, a, k);
        MovedElsewhere(t0, t, chain, line, fork, top, b, k);
      }
    }
    hide Canonical, IsLine;
  }

  /** The row found just below the last moved height tells whether the old best chain still differs there. */
  lemma GuardMeans(t0: Table, t: Table, chain: Chain, line: seq<Hash>, fork: int, top: int, k: int, found: Option<Block>)
    requires Moved(t0, t, chain, line, fork, top) && Agrees(t0, chain) && OneCanonical(t0) && IsLine(chain, line) && k == fork - 1 >= 0
    requires found.Some? ==> Canonical(t, found.value.id, k)
    requires found.None? ==> forall h :: !Canonical(t, h, k)
    ensures Diverged(t0, k, line[k]) <==> found.Some? && found.value.id != line[k]
  {
    forall h ensures Canonical(t, h, k) <==> Canonical(t0, h, k) {
      MovedElsewhere(t0, t, chain, line, fork, top, h, k);
    }
    hide Canonical, Moved, IsLine;
  }

  lemma DivergedMore(t0: Table, line: seq<Hash>, fork: int, top: int)
    requires DivergedFrom(t0, line, fork, top) && fork > 0 && Diverged(t0, fork - 1, line[fork - 1])
    ensures DivergedFrom(t0, line, fork - 1, top)
  {
  }

  lemma ForkFound(t0: Table, line: seq<Hash>, fork: int, top: int)
    requires DivergedFrom(t0, line, fork, top) && (fork == 0 || !Diverged(t0, fork - 1, line[fork - 1]))
    ensures ForkAt(t0, line, fork, top)
  {
  }

  /** There is one fork height. */
  lemma ForkUnique(t0: Table, line: seq<Hash>, f: int, g: int, top: int)
    requires ForkAt(t0, line, f, top) && ForkAt(t0, line, g, top)
    ensures f == g
  {
  }

  // ---------- the block cache ----------

  ghost predicate CachedRight(blocks: seq<Block>, chain: Chain) {
    forall i :: 0 <= i < |blocks| ==> blocks[i].id in chain && blocks[i].header == chain[blocks[i].id]
  }

  /** The ancestors of heights "from" to "to" - 1, from the lowest up. */
  ghost function Segment(chain: Chain, line: seq<Hash>, from: int, to: int): (r: seq<Block>)
    requires 0 <= from <= to <= |line| && forall k :: 0 <= k < |line| ==> line[k] in chain
    ensures |r| == to - from
  {
    seq(to - from, i requires 0 <= i < to - from => Block(line[from + i], chain[line[from + i]]))
  }

  /** Such a list is an ascending, hash-linked chain. */
  lemma SegmentLinked(chain: Chain, line: seq<Hash>, from: int, to: int, i: nat, j: nat)
    requires IsLine(chain, line) && 0 <= from <= to <= |line| && i < j < to - from && j == i + 1
    ensures var s := Segment(chain, line, from, to);
      s[j].header.prev == s[i].id && s[j].header.height == s[i].header.height + 1
  {
    assert chain[line[from + j]].prev == line[from + i];
  }

  function Reverse(s: seq<Block>): (r: seq<Block>)
    ensures |r| == |s| && forall i :: 0 <= i < |s| ==> r[i] == s[|s| - 1 - i]
  {
    seq(|s|, i requires 0 <= i < |s| => s[|s| - 1 - i])
  }

  /** slice(-n): the last "n" elements, but everything when "n" is 0 */
  function SliceLast(s: seq<Block>, n: nat): seq<Block> {
    if n == 0 || n >= |s| then s else s[|s| - n..]
  }

  lemma SegmentLast(chain: Chain, line: seq<Hash>, from: int, to: int, n: nat)
    requires IsLine(chain, line) && 0 <= from <= to <= |line|
    ensures SliceLast(Segment(chain, line, from, to), n) == Segment(chain, line, if n == 0 || n >= to - from then from else to - n, to)
  {
  }

  /** What is collected from the top down. */
  ghost predicate Collected(chain: Chain, line: seq<Hash>, from: int, to: int, newBlocks: seq<Block>) {
    && 0 <= from <= to < |line| && (forall k :: 0 <= k < |line| ==> line[k] in chain)
    && Reverse(newBlocks) == Segment(chain, line, from, to)
  }

  lemma CollectedStarts(chain: Chain, line: seq<Hash>, top: int)
    requires IsLine(chain, line) && 0 <= top < |line|
    ensures Collected(chain, line, top, top, [])
  {
    assert Reverse([]) == Segment(chain, line, top, top);
  }

  lemma CollectedMore(chain: Chain, line: seq<Hash>, from: int, to: int, newBlocks: seq<Block>)
    requires Collected(chain, line, from, to, newBlocks) && from > 0
    ensures line[from - 1] in chain
    ensures Collected(chain, line, from - 1, to, newBlocks + [Block(line[from - 1], chain[line[from - 1]])])
  {
    var b := Block(line[from - 1], chain[line[from - 1]]);
    var r := Segment(chain, line, from - 1, to);
    assert r == [b] + Segment(chain, line, from, to);
    assert Reverse(newBlocks + [b]) == [b] + Reverse(newBlocks);
  }

  lemma CollectedSize(chain: Chain, line: seq<Hash>, from: int, to: int, newBlocks: seq<Block>)
    requires Collected(chain, line, from, to, newBlocks)
    ensures |newBlocks| == to - from && 0 <= from <= to < |line|
  {
  }

  lemma LineParent(chain: Chain, line: seq<Hash>, k: int)
    requires IsLine(chain, line) && 0 < k < |line|
    ensures line[k] in chain && chain[line[k]].prev == line[k - 1] && line[k - 1] in chain && chain[line[k - 1]].height == k - 1
    ensures chain[line[k]].height == k
  {
  }

  // ---------- the walk, step by step ----------

  /** The state of the walk: heights "fork" and up are re-pointed, and "forkTail" is the ancestor at "fork". */
  ghost predicate Walking(t0: Table, t: Table, chain: Chain, line: seq<Hash>, fork: int, top: int, forkTail: Block, newBlocks: seq<Block>) {
    && WellFormed(chain) && IsLine(chain, line) && Agrees(t0, chain) && OneCanonical(t0)
    && Moved(t0, t, chain, line, fork, top) && DivergedFrom(t0, line, fork, top) && Collected(chain, line, fork, top, newBlocks)
    && forkTail.id == line[fork] && forkTail.header == chain[line[fork]] && forkTail.header.height == fork
  }

  lemma WalkStarts(t: Table, chain: Chain, tip: Block)
    requires WellFormed(chain) && Agrees(t, chain) && OneCanonical(t) && tip.id in chain && chain[tip.id] == tip.header
    ensures Walking(t, t, chain, Line(chain, tip.id), tip.header.height, tip.header.height, tip, [])
    ensures |Line(chain, tip.id)| == tip.header.height + 1 && tip.header.height >= 0
  {
    hide *;
    var line, top := Line(chain, tip.id), tip.header.height;
    LineIsLine(chain, tip.id);
    NonNegative(chain, tip.id);
    MovedStarts(t, chain, line, top);
    CollectedStarts(chain, line, top);
    WalkingIs(t, t, chain, line, top, top, tip, []);
  }

  lemma NonNegative(chain: Chain, h: Hash)
    requires WellFormed(chain) && h in chain
    ensures chain[h].height >= 0
  {
    assert Rooted(chain, h);
  }

  lemma WalkingIs(t0: Table, t: Table, chain: Chain, line: seq<Hash>, fork: int, top: int, forkTail: Block, newBlocks: seq<Block>)
    ensures Walking(t0, t, chain, line, fork, top, forkTail, newBlocks) <==>
      (&& WellFormed(chain) && IsLine(chain, line) && Agrees(t0, chain) && OneCanonical(t0)
       && Moved(t0, t, chain, line, fork, top) && DivergedFrom(t0, line, fork, top) && Collected(chain, line, fork, top, newBlocks)
       && forkTail.id == line[fork] && forkTail.header == chain[line[fork]] && forkTail.header.height == fork)
  {
    hide WellFormed, IsLine, Agrees, OneCanonical;
  }

  lemma MovedBounds(t0: Table, t: Table, chain: Chain, line: seq<Hash>, fork: int, top: int)
    requires Moved(t0, t, chain, line, fork, top)
    ensures 0 <= fork <= top < |line| && Agrees(t, chain)
  {
  }

  /** The guard of the walk: the old best chain has another block below. */
  lemma WalkGuard(t0: Table, t: Table, chain: Chain, line: seq<Hash>, fork: int, top: int, forkTail: Block, newBlocks: seq<Block>, found: Option<Block>)
    requires Walking(t0, t, chain, line, fork, top, forkTail, newBlocks)
    requires found.Some? ==> Canonical(t, found.value.id, fork - 1)
    requires found.None? ==> forall h, k :: k == fork - 1 ==> !Canonical(t, h, k)
    ensures 0 <= fork <= top < |line|
    ensures found.Some? && forkTail.header.prev != found.value.id ==>
      && fork > 0 && forkTail.header.prev == line[fork - 1] && DivergedFrom(t0, line, fork - 1, top) && line[fork - 1] in chain
    ensures found.None? || forkTail.header.prev == found.value.id ==> ForkAt(t0, line, fork, top)
  {
    hide *;
    WalkingIs(t0, t, chain, line, fork, top, forkTail, newBlocks);
    MovedBounds(t0, t, chain, line, fork, top);
    if fork > 0 {
      LineParent(chain, line, fork);
      GuardMeans(t0, t, chain, line, fork, top, fork - 1, found);
      if Diverged(t0, fork - 1, line[fork - 1]) {
        DivergedMore(t0, line, fork, top);
      } else {
        ForkFound(t0, line, fork, top);
      }
    } else {
      if found.Some? { NothingBelowGenesis(t, chain, found.value.id); }
      ForkFound(t0, line, fork, top);
    }
  }

  lemma NothingBelowGenesis(t: Table, chain: Chain, h: Hash)
    requires Agrees(t, chain) && WellFormed(chain)
    ensures !Canonical(t, h, -1)
  {
    if h in t { NonNegative(chain, h); }
    hide WellFormed;
  }

  lemma WalkStep(t0: Table, t: Table, chain: Chain, line: seq<Hash>, fork: int, top: int, forkTail: Block, newBlocks: seq<Block>, nodeStale: bool)
    requires Walking(t0, t, chain, line, fork, top, forkTail, newBlocks) && 0 < fork < |line|
    requires DivergedFrom(t0, line, fork - 1, top)
    ensures line[fork - 1] in chain
    ensures var b := Block(line[fork - 1], chain[line[fork - 1]]);
      Walking(t0, Repointed(t, chain, line[fork - 1], nodeStale), chain, line, fork - 1, top, b, newBlocks + [b])
  {
    hide *;
    WalkingIs(t0, t, chain, line, fork, top, forkTail, newBlocks);
    LineParent(chain, line, fork);
    var b := Block(line[fork - 1], chain[line[fork - 1]]);
    MovedStep(t0, t, chain, line, fork, top, nodeStale);
    CollectedMore(chain, line, fork, top, newBlocks);
    WalkingIs(t0, Repointed(t, chain, line[fork - 1], nodeStale), chain, line, fork - 1, top, b, newBlocks + [b]);
  }

  lemma WalkEnds(t0: Table, t: Table, chain: Chain, line: seq<Hash>, fork: int, top: int, forkTail: Block, newBlocks: seq<Block>)
    requires Walking(t0, t, chain, line, fork, top, forkTail, newBlocks)
    ensures Moved(t0, t, chain, line, fork, top) && DivergedFrom(t0, line, fork, top) && OneCanonical(t) && Agrees(t, chain)
    ensures Collected(chain, line, fork, top, newBlocks) && IsLine(chain, line) && 0 <= fork <= top < |line| && |newBlocks| == top - fork
    ensures forkTail.id == line[fork] && forkTail.header == chain[line[fork]] && forkTail.header.height == fork
  {
    hide *;
    WalkingIs(t0, t, chain, line, fork, top, forkTail, newBlocks);
    MovedUnique(t0, t, chain, line, fork, top);
    CollectedSize(chain, line, fork, top, newBlocks);
  }

  // ---------- rebuilding the cache ----------

  ghost predicate InCache(blocks: seq<Block>, n: int, h: Hash) {
    exists i :: 0 <= i < n && i < |blocks| && blocks[i].id == h
  }

  /** The first "n" cached blocks by their hash. */
  ghost predicate ByHash(chain: Chain, blocks: seq<Block>, n: int, m: map<Hash, Block>) {
    && (forall h :: h in m <==> InCache(blocks, n, h))
    && forall h :: h in m ==> h in chain && m[h] == Block(h, chain[h])
  }

  lemma ByHashStep(chain: Chain, blocks: seq<Block>, n: nat, m: map<Hash, Block>)
    requires ByHash(chain, blocks, n, m) && n < |blocks| && CachedRight(blocks, chain)
    ensures ByHash(chain, blocks, n + 1, m[blocks[n].id := blocks[n]])
  {
    var m' := m[blocks[n].id := blocks[n]];
    forall h ensures h in m' <==> InCache(blocks, n + 1, h) {
      assert InCache(blocks, n + 1, h) <==> InCache(blocks, n, h) || blocks[n].id == h by {
        if InCache(blocks, n + 1, h) {
          var i :| 0 <= i < n + 1 && i < |blocks| && blocks[i].id == h;
        }
      }
    }
    hide InCache;
  }

  /** The state of the rebuilding: collected down to "low", where "currentBlock" is. */
  ghost predicate Rebuilding(chain: Chain, line: seq<Hash>, low: int, top: int, currentBlock: Block, newBlocks: seq<Block>) {
    && IsLine(chain, line) && Collected(chain, line, low, top, newBlocks) && 0 <= low < |line|
    && currentBlock.id == line[low] && currentBlock.header == chain[line[low]] && currentBlock.header.height == low
  }

  lemma StartRebuilding(chain: Chain, line: seq<Hash>, fork: int, top: int, forkTail: Block, newBlocks: seq<Block>)
    requires IsLine(chain, line) && Collected(chain, line, fork, top, newBlocks) && 0 <= fork < |line|
    requires forkTail.id == line[fork] && forkTail.header == chain[line[fork]] && forkTail.header.height == fork
    ensures Rebuilding(chain, line, fork, top, forkTail, newBlocks)
  {
    hide IsLine, Collected;
  }

  lemma RebuildStep(chain: Chain, line: seq<Hash>, low: int, top: int, currentBlock: Block, newBlocks: seq<Block>)
    requires Rebuilding(chain, line, low, top, currentBlock, newBlocks)
    ensures 0 <= low <= top < |line| && currentBlock.header.height == low && |newBlocks| == top - low
    ensures low > 0 ==> var h := currentBlock.header.prev;
      h == line[low - 1] && h in chain && Rebuilding(chain, line, low - 1, top, Block(h, chain[h]), newBlocks + [Block(h, chain[h])])
  {
    hide IsLine, Collected;
    CollectedSize(chain, line, low, top, newBlocks);
    if low > 0 {
      LineParent(chain, line, low);
      CollectedMore(chain, line, low, top, newBlocks);
    }
  }

  /** The lowest collected height, once no more can be or need be collected. */
  ghost predicate Complete(t: Table, blocks: seq<Block>, line: seq<Hash>, low: int, top: int, limit: int) {
    0 <= low < |line| && (low == 0 || top - low >= limit || (line[low - 1] !in t && !InCache(blocks, |blocks|, line[low - 1])))
  }

  lemma FinalBlocks(chain: Chain, line: seq<Hash>, low: int, top: int, newBlocks: seq<Block>, limit: nat)
    requires Collected(chain, line, low, top, newBlocks) && IsLine(chain, line)
    ensures 0 <= low <= top < |line|
    ensures var n := if limit == 0 || top - low <= limit then top - low else limit;
      (if |newBlocks| > limit then SliceLast(Reverse(newBlocks), limit) else Reverse(newBlocks)) == Segment(chain, line, top - n, top)
  {
    CollectedSize(chain, line, low, top, newBlocks);
    SegmentLast(chain, line, low, top, limit);
  }

  lemma SegmentCached(chain: Chain, line: seq<Hash>, from: int, to: int)
    requires IsLine(chain, line) && 0 <= from <= to <= |line|
    ensures CachedRight(Segment(chain, line, from, to), chain)
  {
  }

  /** What the cache holds after a reorganisation: the new chain up to the tip's parent, as far down as it can
      be followed or, with a positive limit, as the limit allows. */
  ghost predicate CacheRebuilt(t: Table, cached: seq<Block>, blocks: seq<Block>, chain: Chain, line: seq<Hash>, fork: int, top: int, limit: nat) {
    && IsLine(chain, line) && 0 <= fork < top < |line| && 0 < |blocks| <= top
    && blocks == Segment(chain, line, top - |blocks|, top)
    && (limit > 0 ==> |blocks| <= limit) && (limit == 0 ==> |blocks| == top - fork)
    && (|blocks| >= limit || |blocks| >= top - fork)
    && (|blocks| < limit && |blocks| < top ==> line[top - |blocks| - 1] !in t && !InCache(cached, |cached|, line[top - |blocks| - 1]))
  }

  lemma CacheIsRebuilt(t: Table, cached: seq<Block>, blocks: seq<Block>, chain: Chain, line: seq<Hash>, low: int, fork: int, top: int, limit: nat,
                       newBlocks: seq<Block>)
    requires IsLine(chain, line) && Collected(chain, line, low, top, newBlocks) && 0 <= low <= fork < top < |line|
    requires Complete(t, cached, line, low, top, limit) && (low < fork ==> top - low <= limit)
    requires blocks == if |newBlocks| > limit then SliceLast(Reverse(newBlocks), limit) else Reverse(newBlocks)
    ensures CacheRebuilt(t, cached, blocks, chain, line, fork, top, limit) && CachedRight(blocks, chain)
  {
    hide *;
    FinalBlocks(chain, line, low, top, newBlocks, limit);
    var n := if limit == 0 || top - low <= limit then top - low else limit;
    SegmentCached(chain, line, top - n, top);
    CompleteIs(t, cached, line, low, top, limit);
    CacheRebuiltIs(t, cached, blocks, chain, line, fork, top, limit);
  }

  lemma CompleteIs(t: Table, blocks: seq<Block>, line: seq<Hash>, low: int, top: int, limit: int)
    requires Complete(t, blocks, line, low, top, limit)
    ensures 0 <= low < |line| && (low == 0 || top - low >= limit || (line[low - 1] !in t && !InCache(blocks, |blocks|, line[low - 1])))
  {
  }

  lemma CacheRebuiltIs(t: Table, cached: seq<Block>, blocks: seq<Block>, chain: Chain, line: seq<Hash>, fork: int, top: int, limit: nat)
    requires IsLine(chain, line) && 0 <= fork < top < |line| && 0 < |blocks| <= top
    requires blocks == Segment(chain, line, top - |blocks|, top)
    requires (limit > 0 ==> |blocks| <= limit) && (limit == 0 ==> |blocks| == top - fork) && (|blocks| >= limit || |blocks| >= top - fork)
    requires |blocks| < limit && |blocks| < top ==> line[top - |blocks| - 1] !in t && !InCache(cached, |cached|, line[top - |blocks| - 1])
    ensures CacheRebuilt(t, cached, blocks, chain, line, fork, top, limit)
  {
    hide IsLine, InCache;
  }

  /** The rebuilt cache ends at the tip's parent, and each block is the parent of the next. */
  lemma RebuiltLinked(t: Table, cached: seq<Block>, blocks: seq<Block>, chain: Chain, tip: Block, fork: int, limit: nat, i: nat, j: nat)
    requires WellFormed(chain) && tip.id in chain && chain[tip.id] == tip.header
    requires CacheRebuilt(t, cached, blocks, chain, Line(chain, tip.id), fork, tip.header.height, limit)
    ensures blocks[|blocks| - 1].id == tip.header.prev && blocks[|blocks| - 1].header.height == tip.header.height - 1
    ensures i < j < |blocks| && j == i + 1 ==>
      blocks[j].header.prev == blocks[i].id && blocks[j].header.height == blocks[i].header.height + 1
  {
    var line, top := Line(chain, tip.id), tip.header.height;
    LineIsLine(chain, tip.id);
    hide *;
    RebuiltParts(t, cached, blocks, chain, line, fork, top, limit);
    LineParent(chain, line, top);
    SegmentAt(chain, line, top - |blocks|, top, |blocks| - 1);
    if i < j < |blocks| && j == i + 1 {
      SegmentLinked(chain, line, top - |blocks|, top, i, j);
    }
  }

  lemma RebuiltParts(t: Table, cached: seq<Block>, blocks: seq<Block>, chain: Chain, line: seq<Hash>, fork: int, top: int, limit: nat)
    requires CacheRebuilt(t, cached, blocks, chain, line, fork, top, limit)
    ensures IsLine(chain, line) && 0 <= fork < top < |line| && 0 < |blocks| <= top && blocks == Segment(chain, line, top - |blocks|, top)
  {
  }

  lemma SegmentAt(chain: Chain, line: seq<Hash>, from: int, to: int, i: nat)
    requires IsLine(chain, line) && 0 <= from <= to <= |line| && i < to - from
    ensures Segment(chain, line, from, to)[i] == Block(line[from + i], chain[line[from + i]])
  {
  }

  class Blocks {
    /** the headers of all the blocks there are */
    ghost const chain: Chain
    /** the blocks the node can serve, with its own view of whether they are stale */
    const node: Table
    /** INITIAL_BLOCKS_AMOUNT * 4 */
    const limit: nat
    /** is there a database, and are blocks indexed? */
    const indexing: bool
    var table: Table
    var blocks: seq<Block>

    ghost predicate Valid()
      reads this
    {
      WellFormed(chain) && Agrees(table, chain) && Agrees(node, chain) && OneCanonical(table) && CachedRight(blocks, chain)
    }

    lemma ValidParts()
      requires Valid()
      ensures WellFormed(chain) && Agrees(table, chain) && Agrees(node, chain) && OneCanonical(table) && CachedRight(blocks, chain)
    {
    }

    constructor (ghost headers: Chain, served: Table, cacheSize: nat, indexed: bool)
      requires WellFormed(headers) && Agrees(served, headers)
      ensures Valid() && chain == headers && node == served && limit == cacheSize && indexing == indexed && table == map[] && blocks == []
    {
      chain, node, limit, indexing, table, blocks := headers, served, cacheSize, indexed, map[], [];
    }

    /** Makes the block the only canonical one at the height, or, without a block, leaves none there. */
    method SetCanonicalBlockAtHeight(hash: Option<Hash>, height: int)
      modifies this`table
      ensures table == Designated(old(table), hash, height)
      ensures SameRows(old(table), table)
      ensures forall h :: Canonical(table, h, height) <==> Some(h) == hash && h in old(table) && old(table)[h].header.height == height
      ensures AtHeight(old(table), hash, height) ==> forall h, k :: k != height ==> (Canonical(table, h, k) <==> Canonical(old(table), h, k))
      ensures AtHeight(old(table), hash, height) && OneCanonical(old(table)) ==> OneCanonical(table)
    {
      ghost var t := table;
      SetCanonicalUnique(t, hash, height);
      hide *;
      if hash.Some? {
        table := MarkCanonical(table, hash.value);
      }
      table := MarkOthersStale(table, height, hash);
      IsDesignated(t, table, hash, height);
    }

    /** Inserts a block; one that has a row already becomes canonical again, unless it is stale. */
    method SaveBlockInDatabase(block: Block, stale: bool)
      requires block.id in table ==> table[block.id].header == block.header
      modifies this`table
      ensures table == Saved(old(table), block.id, Row(block.header, stale))
      ensures !stale ==> Canonical(table, block.id, block.header.height)
      ensures OneCanonical(old(table)) ==>
        (OneCanonical(table) <==> block.id in old(table) || stale || forall h :: !Canonical(old(table), h, block.header.height))
    {
      ghost var t, row := table, Row(block.header, stale);
      if block.id in table {
        if !stale {
          SetCanonicalBlockAtHeight(Some(block.id), block.header.height);
        }
      } else {
        table := table[block.id := Row(block.header, stale)];
      }
      assert table == Saved(t, block.id, row);
      SavedIsCanonical(t, block.id, row, block.id, block.header.height);
      hide *;
      if OneCanonical(t) {
        SavedUnique(t, block.id, row);
      }
    }

    method GetBlockByHeight(height: int) returns (r: Option<Block>)
      ensures r.Some? ==> Canonical(table, r.value.id, height) && r.value.header == table[r.value.id].header
      ensures r.None? ==> forall h, k :: k == height ==> !Canonical(table, h, k)
    {
      if h :| h in table && !table[h].stale && table[h].header.height == height {
        return Some(Block(h, table[h].header));
      }
      return None;
    }

    method GetBlockByHash(hash: Hash) returns (r: Option<Block>)
      ensures r == if hash in table then Some(Block(hash, table[hash].header)) else None
    {
      return if hash in table then Some(Block(hash, table[hash].header)) else None;
    }

    /** Yields a block from the table or, failing that, from the node, and then saves it. Without indexing, or
        if told to skip the table, the table is not asked; without indexing it is not written either. */
    method IndexBlock(hash: Hash, skipDb: bool) returns (r: Option<Block>)
      requires Agrees(table, chain) && Agrees(node, chain)
      modifies this`table
      ensures indexing && !skipDb && hash in old(table) ==> table == old(table) && r == Some(Block(hash, table[hash].header))
      ensures !(indexing && !skipDb && hash in old(table)) && hash !in node ==> table == old(table) && r == None
      ensures !(indexing && !skipDb && hash in old(table)) && hash in node ==> r == Some(Block(hash, node[hash].header))
      ensures !(indexing && !skipDb && hash in old(table)) && hash in node ==>
        table == if indexing then Saved(old(table), hash, node[hash]) else old(table)
    {
      if indexing && !skipDb {
        r := GetBlockByHash(hash);
        if r.Some? {
          return;
        }
      }
      if hash !in node {
        return None;
      }
      var block := Block(hash, node[hash].header);
      if indexing {
        SaveBlockInDatabase(block, node[hash].stale);
      }
      return Some(block);
    }

    /** Indexes the next ancestor and makes it canonical. */
    method Repoint(hash: Hash) returns (r: Option<Block>, ghost nodeStale: bool)
      requires hash in chain && Agrees(table, chain) && Agrees(node, chain) && indexing
      modifies this`table
      ensures r.Some? ==> r.value == Block(hash, chain[hash]) && table == Repointed(old(table), chain, hash, nodeStale)
      ensures r.None? ==> table == old(table) && hash !in table && hash !in node
    {
      r := IndexBlock(hash, false);
      nodeStale := hash in node && node[hash].stale;
      if r.Some? {
        SetCanonicalBlockAtHeight(Some(r.value.id), r.value.header.height);
      }
    }

    /** Walks back along the new chain to the fork, re-pointing the table. */
    method WalkBack(tip: Block) returns (ok: bool, forkTail: Block, newBlocks: seq<Block>, ghost fork: int)
      requires Valid() && indexing && tip.id in chain && chain[tip.id] == tip.header
      modifies this`table
      ensures Walking(old(table), table, chain, Line(chain, tip.id), fork, tip.header.height, forkTail, newBlocks)
      ensures ok ==> ForkAt(old(table), Line(chain, tip.id), fork, tip.header.height)
      ensures !ok ==> 0 < fork < |Line(chain, tip.id)| && Line(chain, tip.id)[fork - 1] !in table && Line(chain, tip.id)[fork - 1] !in node
    {
      hide *;
      ValidParts();
      ghost var t0, line, top := table, Line(chain, tip.id), tip.header.height;
      WalkStarts(t0, chain, tip);
      forkTail, newBlocks, fork := tip, [], top;
      var currentlyIndexed := GetBlockByHeight(forkTail.header.height - 1);
      WalkGuard(t0, table, chain, line, fork, top, forkTail, newBlocks, currentlyIndexed);
      while currentlyIndexed.Some? && forkTail.header.prev != currentlyIndexed.value.id
        invariant Walking(t0, table, chain, line, fork, top, forkTail, newBlocks)
        invariant currentlyIndexed.Some? && forkTail.header.prev != currentlyIndexed.value.id ==>
          0 < fork < |line| && forkTail.header.prev == line[fork - 1] && DivergedFrom(t0, line, fork - 1, top) && line[fork - 1] in chain
        invariant currentlyIndexed.None? || forkTail.header.prev == currentlyIndexed.value.id ==> ForkAt(t0, line, fork, top)
        decreases fork
      {
        WalkEnds(t0, table, chain, line, fork, top, forkTail, newBlocks);
        ghost var t := table;
        var newBlock, nodeStale := Repoint(forkTail.header.prev);
        if newBlock.None? {
          return false, forkTail, newBlocks, fork;
        }
        WalkStep(t0, t, chain, line, fork, top, forkTail, newBlocks, nodeStale);
        newBlocks := newBlocks + [newBlock.value];
        forkTail := newBlock.value;
        fork := fork - 1;
        WalkEnds(t0, table, chain, line, fork, top, forkTail, newBlocks);
        currentlyIndexed := GetBlockByHeight(forkTail.header.height - 1);
        WalkGuard(t0, table, chain, line, fork, top, forkTail, newBlocks, currentlyIndexed);
      }
      ok := true;
    }

    /** Continues downwards from the fork with what is cached or indexed. */
    method Rebuild(forkTail: Block, reindexed: seq<Block>, ghost line: seq<Hash>, ghost fork: int, ghost top: int) returns (newBlocks: seq<Block>)
      requires Rebuilding(chain, line, fork, top, forkTail, reindexed) && Agrees(table, chain) && CachedRight(blocks, chain)
      ensures var low := top - |newBlocks|;
        && 0 <= low <= fork && Collected(chain, line, low, top, newBlocks) && Complete(table, blocks, line, low, top, limit)
        && (low < fork ==> top - low <= limit)
    {
      var cachedBlocksByHash := map[];
      for i := 0 to |blocks|
        invariant ByHash(chain, blocks, i, cachedBlocksByHash)
      {
        ByHashStep(chain, blocks, i, cachedBlocksByHash);
        cachedBlocksByHash := cachedBlocksByHash[blocks[i].id := blocks[i]];
      }
      newBlocks := Descend(forkTail, reindexed, cachedBlocksByHash, line, fork, top);
    }

    method Descend(forkTail: Block, reindexed: seq<Block>, cached: map<Hash, Block>, ghost line: seq<Hash>, ghost fork: int, ghost top: int)
      returns (newBlocks: seq<Block>)
      requires Rebuilding(chain, line, fork, top, forkTail, reindexed) && Agrees(table, chain) && ByHash(chain, blocks, |blocks|, cached)
      ensures var low := top - |newBlocks|;
        && 0 <= low <= fork && Collected(chain, line, low, top, newBlocks) && Complete(table, blocks, line, low, top, limit)
        && (low < fork ==> top - low <= limit)
    {
      hide Collected, IsLine, InCache;
      var currentBlock := forkTail;
      newBlocks := reindexed;
      ghost var low := fork;
      RebuildStep(chain, line, low, top, currentBlock, newBlocks);
      while currentBlock.header.height > 0 && |newBlocks| < limit
        invariant Rebuilding(chain, line, low, top, currentBlock, newBlocks) && 0 <= low <= fork && |newBlocks| == top - low
        invariant low < fork ==> top - low <= limit
        decreases low
      {
        RebuildStep(chain, line, low, top, currentBlock, newBlocks);
        var prev := currentBlock.header.prev;
        var newBlock;
        if prev in cached {
          newBlock := Some(cached[prev]);
        } else {
          newBlock := GetBlockByHash(prev);
        }
        if newBlock.Some? {
          newBlocks := newBlocks + [newBlock.value];
          currentBlock := newBlock.value;
          low := low - 1;
        } else {
          break;
        }
      }
    }

    /** Called with the block the node has just announced. If the old best chain has another block below it, the
        table is re-pointed down to the fork and the cache is rebuilt; if a block cannot be had from the node, the
        walk stops with the table still consistent. */
    method HandleReorgs(tip: Block) returns (ok: bool, ghost fork: int)
      requires Valid() && indexing && tip.id in chain && chain[tip.id] == tip.header
      modifies this`table, this`blocks
      ensures Valid()
      ensures Moved(old(table), table, chain, Line(chain, tip.id), fork, tip.header.height)
      ensures DivergedFrom(old(table), Line(chain, tip.id), fork, tip.header.height)
      ensures ok ==> ForkAt(old(table), Line(chain, tip.id), fork, tip.header.height)
      ensures !ok ==> 0 < fork < |Line(chain, tip.id)| && Line(chain, tip.id)[fork - 1] !in table && Line(chain, tip.id)[fork - 1] !in node
      ensures !ok || fork == tip.header.height ==> blocks == old(blocks)
      ensures ok && fork < tip.header.height ==>
        CacheRebuilt(table, old(blocks), blocks, chain, Line(chain, tip.id), fork, tip.header.height, limit)
    {
      hide *;
      ValidParts();
      ghost var t0, line, top := table, Line(chain, tip.id), tip.header.height;
      var forkTail, newBlocks;
      ok, forkTail, newBlocks, fork := WalkBack(tip);
      WalkEnds(t0, table, chain, line, fork, top, forkTail, newBlocks);
      StillValid();
      if !ok || newBlocks == [] {
        return;
      }
      StartRebuilding(chain, line, fork, top, forkTail, newBlocks);
      newBlocks := Rebuild(forkTail, newBlocks, line, fork, top);
      ghost var low := top - |newBlocks|;
      ghost var cached := blocks;
      blocks := Reverse(newBlocks);
      if |blocks| > limit {
        blocks := SliceLast(blocks, limit);
      }
      CacheIsRebuilt(table, cached, blocks, chain, line, low, fork, top, limit, newBlocks);
      StillValid();
    }

    /** What follows the announcement of a block: its chain becomes the best one in the table, and then the block
        itself is saved. From the fork up to the block every height has the new chain's block. */
    method Connect(tip: Block, stale: bool) returns (ok: bool, ghost fork: int)
      requires Valid() && indexing && tip.id in chain && chain[tip.id] == tip.header
      modifies this`table, this`blocks
      ensures 0 <= fork <= tip.header.height < |Line(chain, tip.id)|
      ensures ok && !stale ==> forall k :: fork <= k <= tip.header.height ==> Canonical(table, Line(chain, tip.id)[k], k)
      ensures forall h, k :: k < fork || k > tip.header.height ==> (Canonical(table, h, k) <==> Canonical(old(table), h, k))
      ensures !ok ==> Valid()
      ensures ok ==>
        (Valid() <==> tip.id in old(table) || stale || forall h :: !Canonical(old(table), h, tip.header.height))
    {
      hide *;
      ValidParts();
      ghost var t0, line := table, Line(chain, tip.id);
      ok, fork := HandleReorgs(tip);
      ValidParts();
      ghost var t := table;
      TipSaved(t0, t, chain, line, fork, tip, stale);
      if ok {
        SaveBlockInDatabase(tip, stale);
        StillValid();
      }
    }

    lemma StillValid()
      requires WellFormed(chain) && Agrees(node, chain) && CachedRight(blocks, chain) && Agrees(table, chain)
      ensures Valid() <==> OneCanonical(table)
    {
    }
  }
}
