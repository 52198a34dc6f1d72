/** The mini-miner's makeBlockTemplate: one block template out of a list of candidates. */
module MiniMiner {
  import opened Collections
  import opened PackageGraph
  import opened Relatives
  import opened Selection
  import opened Sorting
  import opened Packaging
  import opened RateCaps
  import opened Families
  import opened Candidates

  /** maxBlocks, weightLimit and sigopLimit; an absent limit is Infinity. */
  datatype Limits = Limits(maxBlocks: int, weight: Option<int>, sigops: Option<int>)

  /** An emitted transaction with the fields the template gives it. */
  datatype Taken = Taken(txid: Id, effectiveFeePerVsize: real, cluster: seq<Id>)

  // ---------- emission ----------

  /** The block under construction. */
  datatype Block = Block(transactions: seq<Taken>, weight: int, sigops: int)

  function Add(g: Graph, b: Block, x: Id, p: Pick): Block
    requires x in g
  {
    Block(b.transactions + [Taken(x, p.rate, p.cluster)], b.weight + g[x].weight, b.sigops + g[x].sigops)
  }

  ghost function EmittedPick(p: Pick, n: nat): seq<Taken>
    requires n <= |p.cluster|
  {
    if n == 0 then [] else EmittedPick(p, n - 1) + [Taken(p.cluster[|p.cluster| - n], p.rate, p.cluster)]
  }

  ghost function Emitted(picks: seq<Pick>): seq<Taken> {
    if picks == [] then [] else
    var p := picks[|picks| - 1];
    Emitted(picks[..|picks| - 1]) + EmittedPick(p, |p.cluster|)
  }

  /** The block after "n" pops. */
  ghost predicate AfterPops(g: Graph, b0: Block, b: Block, p: Pick, n: nat)
    requires n <= |p.cluster|
  {
    var s := Elements(Popping(p, n));
    && s <= g.Keys && Distinct(Popping(p, n))
    && s == Elements(p.cluster[|p.cluster| - n..])
    && b.transactions == b0.transactions + EmittedPick(p, n)
    && b.weight == b0.weight + Total(Weights(g), s)
    && b.sigops == b0.sigops + Total(Sigops(g), s)
  }

  lemma PoppedOneMore(g: Graph, b0: Block, b: Block, p: Pick, n: nat)
    requires n < |p.cluster| && Distinct(p.cluster) && Elements(p.cluster) <= g.Keys
    requires AfterPops(g, b0, b, p, n)
    ensures p.cluster[|p.cluster| - n - 1] in g
    ensures AfterPops(g, b0, Add(g, b, p.cluster[|p.cluster| - n - 1], p), p, n + 1)
    ensures Popping(p, n + 1) == Popping(p, n) + [p.cluster[|p.cluster| - n - 1]]
    ensures Elements(Popping(p, n + 1)) - Elements(Popping(p, n)) == {p.cluster[|p.cluster| - n - 1]}
    ensures Elements(Popping(p, n)) <= Elements(Popping(p, n + 1))
  {
    var k := |p.cluster| - n - 1;
    var x, popped := p.cluster[k], Popping(p, n);
    var s := Elements(popped);
    assert x in Elements(p.cluster);
    NextPopped(p.cluster, k, popped);
    hide Distinct, Total, Elements;
    assert s + {x} - {x} == s;
    TotalSplit(Weights(g), s + {x}, x);
    TotalSplit(Sigops(g), s + {x}, x);
  }

  lemma PoppedNone(g: Graph, b0: Block, p: Pick)
    ensures AfterPops(g, b0, b0, p, 0) && Popping(p, 0) == []
  {
    assert Elements(p.cluster[|p.cluster|..]) == {} == Elements(Popping(p, 0));
  }

  lemma PoppedAll(g: Graph, b: Block, b': Block, p: Pick)
    requires Elements(p.cluster) <= g.Keys && AfterPops(g, b, b', p, |p.cluster|)
    ensures Distinct(Popping(p, |p.cluster|)) && Elements(Popping(p, |p.cluster|)) == Elements(p.cluster)
  {
    assert p.cluster[0..] == p.cluster;
  }

  /** Takes the package into the block, popping it off its sorted list. */
  method TakeIntoBlock(pool: AuditPool, p: Pick, b0: Block) returns (b: Block, used: seq<Id>)
    requires Distinct(p.cluster) && Elements(p.cluster) <= pool.graph.Keys
    modifies pool`used
    ensures AfterPops(pool.graph, b0, b, p, |p.cluster|)
    ensures used == Popping(p, |p.cluster|)
    ensures pool.used == old(pool.used) + Elements(p.cluster)
  {
    b, used := b0, [];
    var sortedTxSet := p.cluster;
    PoppedNone(pool.graph, b0, p);
    assert pool.used == old(pool.used) + Elements(used);
    while sortedTxSet != []
      invariant sortedTxSet <= p.cluster
      invariant used == Popping(p, |p.cluster| - |sortedTxSet|)
      invariant AfterPops(pool.graph, b0, b, p, |p.cluster| - |sortedTxSet|)
      invariant pool.used == old(pool.used) + Elements(used)
      decreases |sortedTxSet|
    {
      b, used := PopOne(pool, p, sortedTxSet, b, used, b0);
      sortedTxSet := sortedTxSet[..|sortedTxSet| - 1];
    }
    PoppedAll(pool.graph, b0, b, p);
  }

  method PopOne(pool: AuditPool, p: Pick, sortedTxSet: seq<Id>, b: Block, used: seq<Id>, ghost b0: Block)
    returns (b': Block, used': seq<Id>)
    requires Distinct(p.cluster) && Elements(p.cluster) <= pool.graph.Keys
    requires sortedTxSet != [] && sortedTxSet <= p.cluster
    requires used == Popping(p, |p.cluster| - |sortedTxSet|)
    requires AfterPops(pool.graph, b0, b, p, |p.cluster| - |sortedTxSet|)
    modifies pool`used
    ensures used' == Popping(p, |p.cluster| - |sortedTxSet| + 1)
    ensures AfterPops(pool.graph, b0, b', p, |p.cluster| - |sortedTxSet| + 1)
    ensures pool.used == old(pool.used) + (Elements(used') - Elements(used)) && Elements(used) <= Elements(used')
  {
    hide *;
    var ancestor := sortedTxSet[|sortedTxSet| - 1];
    PoppedOneMore(pool.graph, b0, b, p, |p.cluster| - |sortedTxSet|);
    pool.used := pool.used + {ancestor};
    b' := Add(pool.graph, b, ancestor, p);
    used' := used + [ancestor];
  }

  // ---------- the two queues ----------

  /** Whoever is neither taken nor set aside waits in the queue its modified flag points to. */
  ghost predicate Waiting(g: Graph, gone: set<Id>, modified: set<Id>, pool: seq<Id>, queue: seq<Id>, aside: set<Id>) {
    && Elements(pool) <= g.Keys && Elements(queue) <= modified <= g.Keys
    && forall x :: x in g && x !in gone && x !in aside ==> if x in modified then x in queue else x in pool
  }

  /** Nobody waits twice, and whoever is set aside does not wait. */
  ghost predicate Once(modified: set<Id>, pool: seq<Id>, queue: seq<Id>, aside: set<Id>) {
    && Distinct(pool) && Distinct(queue) && Elements(queue) !! aside
    && forall x :: x in pool && x in aside ==> x in modified
  }

  method SkipInvalid(pool: seq<Id>, used: set<Id>, modified: set<Id>) returns (rest: seq<Id>)
    ensures |rest| <= |pool| && rest == pool[|pool| - |rest|..]
    ensures forall i :: 0 <= i < |pool| - |rest| ==> pool[i] in used || pool[i] in modified
    ensures rest != [] ==> rest[0] !in used && rest[0] !in modified
  {
    rest := pool;
    while rest != [] && (rest[0] in used || rest[0] in modified)
      invariant |rest| <= |pool| && rest == pool[|pool| - |rest|..]
      invariant forall i :: 0 <= i < |pool| - |rest| ==> pool[i] in used || pool[i] in modified
    {
      rest := rest[1..];
    }
  }

  /** The queues as the main loop keeps them. */
  ghost predicate InOrder(g: Graph, totals: map<Id, Totals>, gone: set<Id>, modified: set<Id>, pool: seq<Id>, queue: seq<Id>, aside: set<Id>) {
    && Waiting(g, gone, modified, pool, queue, aside) && Once(modified, pool, queue, aside)
    && Descending(totals, pool, modified) && Descending(totals, queue, {})
  }

  lemma SuffixOnce(modified: set<Id>, pool: seq<Id>, queue: seq<Id>, aside: set<Id>, rest: seq<Id>)
    requires Once(modified, pool, queue, aside) && |rest| <= |pool| && rest == pool[|pool| - |rest|..]
    ensures Once(modified, rest, queue, aside)
    ensures forall x :: x in rest ==> x in pool
  {
  }

  lemma SuffixInOrder(g: Graph, totals: map<Id, Totals>, gone: set<Id>, modified: set<Id>, pool: seq<Id>, queue: seq<Id>, aside: set<Id>, rest: seq<Id>)
    requires InOrder(g, totals, gone, modified, pool, queue, aside)
    requires |rest| <= |pool| && rest == pool[|pool| - |rest|..]
    requires forall i :: 0 <= i < |pool| - |rest| ==> pool[i] in gone || pool[i] in modified
    ensures InOrder(g, totals, gone, modified, rest, queue, aside)
  {
    SuffixOnce(modified, pool, queue, aside, rest);
    hide Once;
    assert forall x :: x in Elements(rest) ==> x in Elements(pool);
    forall x | x in g && x !in gone && x !in aside && x !in modified ensures x in rest {
      var i :| 0 <= i < |pool| && pool[i] == x;
      assert rest[i - (|pool| - |rest|)] == x;
    }
  }

  /** "next" was taken off its queue. */
  ghost predicate TakenOff(next: Id, modified: set<Id>, pool: seq<Id>, queue: seq<Id>, aside: set<Id>) {
    next !in aside && next !in queue && (next in pool ==> next in modified)
  }

  lemma HeadOff(s: seq<Id>)
    requires s != [] && Distinct(s)
    ensures s[0] !in s[1..] && Distinct(s[1..]) && s == [s[0]] + s[1..]
  {
  }

  lemma OffPool(g: Graph, totals: map<Id, Totals>, gone: set<Id>, modified: set<Id>, pool: seq<Id>, queue: seq<Id>, aside: set<Id>)
    requires InOrder(g, totals, gone, modified, pool, queue, aside) && pool != [] && pool[0] !in modified
    ensures InOrder(g, totals, gone + {pool[0]}, modified, pool[1..], queue, aside)
    ensures TakenOff(pool[0], modified, pool[1..], queue, aside)
  {
    HeadOff(pool);
    assert forall i :: 0 <= i < |queue| ==> queue[i] in Elements(queue);
  }

  lemma OffQueue(g: Graph, totals: map<Id, Totals>, gone: set<Id>, modified: set<Id>, pool: seq<Id>, queue: seq<Id>, aside: set<Id>)
    requires InOrder(g, totals, gone, modified, pool, queue, aside) && queue != []
    ensures InOrder(g, totals, gone + {queue[0]}, modified, pool, queue[1..], aside)
    ensures TakenOff(queue[0], modified, pool, queue[1..], aside)
  {
    HeadOff(queue);
    assert queue[0] in Elements(queue);
  }

  /** The better of the two queue heads; on a tie the modified queue goes first. */
  method SelectNext(totals: map<Id, Totals>, pool: seq<Id>, queue: seq<Id>, ghost g: Graph, ghost gone: set<Id>, ghost modified: set<Id>, ghost aside: set<Id>)
    returns (next: Option<Id>, pool': seq<Id>, queue': seq<Id>)
    requires totals.Keys == g.Keys && InOrder(g, totals, gone, modified, pool, queue, aside)
    requires pool != [] ==> pool[0] !in gone && pool[0] !in modified
    ensures next.None? ==> pool == pool' == [] && queue == queue' == []
    ensures next.Some? ==> next.value in g && |pool'| + |queue'| < |pool| + |queue|
    ensures next.Some? ==> Best(g, totals, gone, aside, next.value)
    ensures next.Some? ==> InOrder(g, totals, gone + {next.value}, modified, pool', queue', aside)
    ensures next.Some? ==> TakenOff(next.value, modified, pool', queue', aside)
  {
    pool', queue' := pool, queue;
    assert forall i :: 0 <= i < |pool| ==> pool[i] in Elements(pool);
    assert forall i :: 0 <= i < |queue| ==> queue[i] in Elements(queue);
    HeadsInPool(g, totals, gone, modified, pool, queue, aside);
    hide InOrder, Best, TakenOff;
    if pool != [] && (queue == [] || totals[pool[0]].score > totals[queue[0]].score) {
      next, pool' := Some(pool[0]), pool[1..];
      HeadIsBest(g, totals, gone, modified, pool, queue, aside, pool[0]);
      OffPool(g, totals, gone, modified, pool, queue, aside);
    } else if queue != [] {
      next, queue' := Some(queue[0]), queue[1..];
      HeadIsBest(g, totals, gone, modified, pool, queue, aside, queue[0]);
      OffQueue(g, totals, gone, modified, pool, queue, aside);
    } else {
      next := None;
    }
  }

  lemma HeadsInPool(g: Graph, totals: map<Id, Totals>, gone: set<Id>, modified: set<Id>, pool: seq<Id>, queue: seq<Id>, aside: set<Id>)
    requires InOrder(g, totals, gone, modified, pool, queue, aside)
    ensures (pool != [] ==> pool[0] in g) && (queue != [] ==> queue[0] in g)
  {
    assert pool != [] ==> pool[0] in Elements(pool);
    assert queue != [] ==> queue[0] in Elements(queue);
  }

  lemma HeadIsBest(g: Graph, totals: map<Id, Totals>, gone: set<Id>, modified: set<Id>, pool: seq<Id>, queue: seq<Id>, aside: set<Id>, head: Id)
    requires totals.Keys == g.Keys && InOrder(g, totals, gone, modified, pool, queue, aside) && head in g
    requires pool != [] ==> pool[0] in g && pool[0] !in modified && totals[pool[0]].score <= totals[head].score
    requires queue != [] ==> queue[0] in g && totals[queue[0]].score <= totals[head].score
    ensures Best(g, totals, gone, aside, head)
  {
    forall x | x in g && x !in gone && x !in aside ensures totals[x].score <= totals[head].score {
      var s := if x in modified then queue else pool;
      var i :| 0 <= i < |s| && s[i] == x;
      assert i > 0 ==> totals[s[0]].score >= totals[s[i]].score;
    }
  }

  // ---------- retiring a package, with the modified queue re-sorted after each update ----------

  /** Whoever is pushed waits again, even if it had been set aside. */
  lemma StillWaiting(g: Graph, gone: set<Id>, modified: set<Id>, pool: seq<Id>, queue: seq<Id>, queue': seq<Id>, aside: set<Id>, pushed: seq<Id>)
    requires Waiting(g, gone, modified, pool, queue, aside) && Elements(pushed) <= g.Keys
    requires forall x :: x in queue' <==> x in queue || x in pushed
    ensures Waiting(g, gone, modified + Elements(pushed), pool, queue', aside - Elements(pushed))
  {
    forall x | x in Elements(queue') ensures x in modified + Elements(pushed) {
      assert x in Elements(queue) || x in Elements(pushed);
    }
  }

  lemma StillOnce(modified: set<Id>, pool: seq<Id>, queue: seq<Id>, queue': seq<Id>, aside: set<Id>, pushed: seq<Id>)
    requires Once(modified, pool, queue, aside) && Elements(queue) <= modified
    requires Distinct(pushed) && Elements(pushed) !! modified && multiset(queue') == multiset(queue + pushed)
    ensures Once(modified + Elements(pushed), pool, queue', aside - Elements(pushed))
  {
    DistinctAppend(queue, pushed);
    SameElements(queue + pushed, queue');
  }

  /** All transactions have been processed: exactly the dependents of "root" are flagged now. */
  lemma FlaggedNow(anc: Links, c: Caches, c': Caches, root: Id, g: Graph, pushed: seq<Id>)
    requires g.Keys == anc.Keys && Queues(anc, c, c', root, false, g.Keys, pushed)
    ensures Distinct(pushed) && Elements(pushed) !! c.modified && Elements(pushed) <= g.Keys
    ensures c'.modified == c.modified + Elements(pushed) == c.modified + Dependents(anc, root)
    ensures c'.modified - c.modified == Elements(pushed)
  {
    hide Distinct;
  }

  lemma RequeuedInOrder(g: Graph, anc: Links, unit: nat, c: Caches, c': Caches, gone: set<Id>, root: Id,
                        taken: set<Id>, pool: seq<Id>, queue: seq<Id>, queue': seq<Id>, aside: set<Id>, pushed: seq<Id>)
    requires Dag(g, anc) && Consistent(g, anc, unit, c.ancestorMap, c.totals, gone)
    requires Consistent(g, anc, unit, c'.ancestorMap, c'.totals, gone + {root})
    requires Queues(anc, c, c', root, false, g.Keys, pushed)
    requires InOrder(g, c.totals, taken, c.modified, pool, queue, aside)
    requires multiset(queue') == multiset(queue + pushed) && Descending(c'.totals, queue', {})
    ensures InOrder(g, c'.totals, taken, c'.modified, pool, queue', aside - (c'.modified - c.modified))
  {
    FlaggedNow(anc, c, c', root, g, pushed);
    hide Queues, Consistent;
    forall x | x in g && x !in c'.modified ensures x in c.totals && x in c'.totals && c'.totals[x] == c.totals[x] {
      assert x !in Dependents(anc, root);
      TotalsKept(g, anc, unit, c, c', gone, root, x);
    }
    StillDescending(g, c.totals, c'.totals, pool, c.modified, c'.modified);
    SameMembers(queue + pushed, queue');
    StillWaiting(g, taken, c.modified, pool, queue, queue', aside, pushed);
    StillOnce(c.modified, pool, queue, queue', aside, pushed);
  }

  /** Removes the package from the caches of its descendants, re-sorting the modified queue each time. */
  method Retire(pool: AuditPool, used: seq<Id>, rate: real, queue: seq<Id>, ghost gone: set<Id>, ghost taken: set<Id>,
                ghost arr: seq<Id>, ghost aside: set<Id>)
    returns (queue': seq<Id>)
    requires Dag(pool.graph, pool.anc) && FullyLinked(pool.anc, pool.children)
    requires Consistent(pool.graph, pool.anc, pool.unit, pool.ancestorMap, pool.totals, gone)
    requires pool.dependencyRate.Keys == pool.graph.Keys
    requires Distinct(used) && Elements(used) <= pool.graph.Keys && Elements(used) !! gone
    requires InOrder(pool.graph, pool.totals, taken, pool.modified, arr, queue, aside)
    modifies pool`ancestorMap, pool`totals, pool`dependencyRate, pool`modified, pool`queued
    ensures Retiring(pool.graph, pool.anc, pool.unit, gone, rate, old(pool.View()), pool.View(), Elements(used))
    ensures pool.modified == old(pool.modified) + DependentsOfAny(pool.anc, Elements(used))
    ensures InOrder(pool.graph, pool.totals, taken, pool.modified, arr, queue', aside - (pool.modified - old(pool.modified)))
    ensures used != [] ==> TiesInOrder(pool.graph, pool.totals, queue')
  {
    ghost var g, anc, unit, c0 := pool.graph, pool.anc, pool.unit, pool.View();
    hide *;
    queue' := queue;
    RetiringStarts(g, anc, unit, gone, rate, c0);
    NoneFlagged(anc, used, aside, pool.modified);
    for i := 0 to |used|
      invariant Retiring(g, anc, unit, gone, rate, c0, pool.View(), Elements(used[..i]))
      invariant pool.modified == c0.modified + DependentsOfAny(anc, Elements(used[..i]))
      invariant InOrder(g, pool.totals, taken, pool.modified, arr, queue', aside - (pool.modified - c0.modified))
      invariant i > 0 ==> TiesInOrder(g, pool.totals, queue')
    {
      ghost var flagged := pool.modified;
      queue' := RetireOne(pool, used, i, rate, queue', gone, taken, arr, aside - (pool.modified - c0.modified), c0);
      MoreFlagged(anc, used, i, aside, c0.modified, flagged, pool.modified);
    }
    assert used[..|used|] == used;
  }

  lemma NoneFlagged(anc: Links, used: seq<Id>, aside: set<Id>, modified: set<Id>)
    ensures Elements(used[..0]) == {} && DependentsOfAny(anc, {}) == {}
    ensures modified + {} == modified && aside - (modified - modified) == aside
  {
  }

  lemma MoreFlagged(anc: Links, used: seq<Id>, i: nat, aside: set<Id>, m0: set<Id>, m: set<Id>, m': set<Id>)
    requires i < |used| && Distinct(used)
    requires m == m0 + DependentsOfAny(anc, Elements(used[..i])) && m' == m + Dependents(anc, used[i])
    ensures m' == m0 + DependentsOfAny(anc, Elements(used[..i + 1]))
    ensures aside - (m - m0) - (m' - m) == aside - (m' - m0)
  {
    ElementsAt(used, i);
    DependentsOneMore(anc, Elements(used[..i]), used[i]);
    hide DependentsOfAny, Dependents, Elements;
  }

  method RetireOne(pool: AuditPool, used: seq<Id>, i: nat, rate: real, queue: seq<Id>, ghost gone: set<Id>, ghost taken: set<Id>,
                   ghost arr: seq<Id>, ghost aside: set<Id>, ghost c0: Caches)
    returns (queue': seq<Id>)
    requires Dag(pool.graph, pool.anc) && FullyLinked(pool.anc, pool.children)
    requires i < |used| && Distinct(used) && Elements(used) <= pool.graph.Keys && Elements(used) !! gone
    requires c0.dependencyRate.Keys == pool.graph.Keys
    requires Retiring(pool.graph, pool.anc, pool.unit, gone, rate, c0, pool.View(), Elements(used[..i]))
    requires InOrder(pool.graph, pool.totals, taken, pool.modified, arr, queue, aside)
    modifies pool`ancestorMap, pool`totals, pool`dependencyRate, pool`modified, pool`queued
    ensures Retiring(pool.graph, pool.anc, pool.unit, gone, rate, c0, pool.View(), Elements(used[..i + 1]))
    ensures pool.modified == old(pool.modified) + Dependents(pool.anc, used[i])
    ensures InOrder(pool.graph, pool.totals, taken, pool.modified, arr, queue', aside - (pool.modified - old(pool.modified)))
    ensures TiesInOrder(pool.graph, pool.totals, queue')
  {
    ghost var g, anc, unit, c := pool.graph, pool.anc, pool.unit, pool.View();
    ghost var retired := Elements(used[..i]);
    ElementsAt(used, i);
    var pushed := pool.UpdateDescendants(used[i], rate, false, gone + retired);
    QueueKeyed(g, anc, c, pool.View(), used[i], taken, pool.totals, arr, queue, aside, pushed);
    FlaggedNow(anc, c, pool.View(), used[i], g, pushed);
    hide *;
    var keys := Priorities(pool.graph, pool.totals);
    queue' := SortBy(keys, queue + pushed);
    PriorityDescending(g, pool.totals, queue');
    RequeuedInOrder(g, anc, unit, c, pool.View(), gone + retired, used[i], taken, arr, queue, queue', aside, pushed);
    RetiredOneMore(g, anc, unit, gone, rate, c0, c, pool.View(), retired, used[i]);
  }

  lemma QueueKeyed(g: Graph, anc: Links, c: Caches, c': Caches, root: Id, taken: set<Id>, totals: map<Id, Totals>, pool: seq<Id>,
                   queue: seq<Id>, aside: set<Id>, pushed: seq<Id>)
    requires totals.Keys == g.Keys == anc.Keys && Queues(anc, c, c', root, false, g.Keys, pushed)
    requires Waiting(g, taken, c.modified, pool, queue, aside)
    ensures Keyed(Priorities(g, totals), queue + pushed)
  {
    forall i | 0 <= i < |queue + pushed| ensures (queue + pushed)[i] in g {
      var x := (queue + pushed)[i];
      assert x in Elements(queue) || x in Elements(pushed);
    }
  }

  // ---------- limits ----------

  predicate Below(n: int, limit: Option<int>) {
    limit.None? || n < limit.value
  }

  predicate UpTo(n: int, limit: Option<int>) {
    limit.None? || n <= limit.value
  }

  /** Does a package of this size fit into the block? (vsize times 4 stands for weight) */
  predicate Fits(limits: Limits, blockWeight: int, blockSigops: int, t: Totals) {
    limits.maxBlocks - 1 <= 0 || (Below(blockWeight + 4 * t.size, limits.weight) && UpTo(blockSigops + t.sigops, limits.sigops))
  }

  ghost predicate FitsAt(g: Graph, anc: Links, unit: nat, limits: Limits, before: seq<Pick>, x: Id)
  {
    var t := FreshTotals(g, anc, unit, x, Gone(before));
    || limits.maxBlocks <= 1
    || ((limits.weight.None? || Total(Weights(g), Gone(before)) + 4 * t.size < limits.weight.value)
        && (limits.sigops.None? || Total(Sigops(g), Gone(before)) + t.sigops <= limits.sigops.value))
  }

  // ---------- the run as a record of choices ----------

  /** What became of a selected transaction: its package was taken, or did not fit. */
  datatype Choice = Took(pick: Pick) | Refused(root: Id)

  ghost function PicksOf(trace: seq<Choice>): seq<Pick> {
    if trace == [] then [] else
    var last, before := trace[|trace| - 1], PicksOf(trace[..|trace| - 1]);
    if last.Took? then before + [last.pick] else before
  }

  /** The transactions some ancestor of which has been taken. */
  ghost function Flagged(anc: Links, picks: seq<Pick>): set<Id> {
    DependentsOfAny(anc, Gone(picks))
  }

  /** Who was refused and has not been queued again since: a refused transaction gets a second chance when
      the first of its ancestors is taken. */
  ghost function Aside(anc: Links, trace: seq<Choice>): set<Id> {
    if trace == [] then {} else
    var before := trace[..|trace| - 1];
    match trace[|trace| - 1]
    case Refused(x) => Aside(anc, before) + {x}
    case Took(p) => Aside(anc, before) - (Flagged(anc, PicksOf(before) + [p]) - Flagged(anc, PicksOf(before)))
  }

  /** Refusals since a package was last taken. */
  ghost function Failures(trace: seq<Choice>): nat {
    if trace == [] || trace[|trace| - 1].Took? then 0 else Failures(trace[..|trace| - 1]) + 1
  }

  /** More than a thousand refusals in a row with the block within 4000 of its limit. */
  ghost predicate Exceeded(g: Graph, limits: Limits, trace: seq<Choice>) {
    Failures(trace) > 1000 && limits.weight.Some? && Total(Weights(g), Gone(PicksOf(trace))) > limits.weight.value - 4000
  }

  /** "root" was looked at: of all transactions neither taken nor set aside it has the best ancestor score,
      and it was taken exactly if its package fits. */
  ghost predicate GreedyChoice(g: Graph, anc: Links, unit: nat, limits: Limits, before: seq<Choice>, root: Id, took: bool) {
    var picks, aside := PicksOf(before), Aside(anc, before);
    && root in g && root !in Gone(picks) && root !in aside
    && BestOf(g, anc, unit, Gone(picks), aside, root)
    && (took <==> FitsAt(g, anc, unit, limits, picks, root))
    && !Exceeded(g, limits, before)
  }

  ghost predicate GreedyStep(g: Graph, anc: Links, unit: nat, limits: Limits, before: seq<Choice>, c: Choice) {
    match c
    case Took(p) => p.cluster != [] && GreedyChoice(g, anc, unit, limits, before, Root(p), true)
    case Refused(x) => GreedyChoice(g, anc, unit, limits, before, x, false)
  }

  ghost predicate Greedy(g: Graph, anc: Links, unit: nat, limits: Limits, trace: seq<Choice>) {
    forall k :: 0 <= k < |trace| ==> GreedyStep(g, anc, unit, limits, trace[..k], trace[k])
  }

  /** The run may end here: everyone is taken or set aside, or too many packages in a row were refused. */
  ghost predicate Exhausted(g: Graph, anc: Links, limits: Limits, trace: seq<Choice>) {
    || (forall x :: x in g && x !in Gone(PicksOf(trace)) ==> x in Aside(anc, trace))
    || Exceeded(g, limits, trace)
  }

  lemma GreedyExtended(g: Graph, anc: Links, unit: nat, limits: Limits, trace: seq<Choice>, c: Choice)
    requires Greedy(g, anc, unit, limits, trace) && GreedyStep(g, anc, unit, limits, trace, c)
    ensures Greedy(g, anc, unit, limits, trace + [c])
  {
    hide GreedyStep;
    var more := trace + [c];
    forall k | 0 <= k < |more| ensures GreedyStep(g, anc, unit, limits, more[..k], more[k]) {
      assert more[..k] == trace[..k];
      assert trace[..|trace|] == trace;
    }
  }

  lemma TookOneMore(anc: Links, trace: seq<Choice>, p: Pick)
    ensures PicksOf(trace + [Took(p)]) == PicksOf(trace) + [p] && Failures(trace + [Took(p)]) == 0
    ensures Aside(anc, trace + [Took(p)]) == Aside(anc, trace) - (Flagged(anc, PicksOf(trace) + [p]) - Flagged(anc, PicksOf(trace)))
  {
    assert (trace + [Took(p)])[..|trace|] == trace;
  }

  lemma RefusedOneMore(anc: Links, trace: seq<Choice>, x: Id)
    ensures PicksOf(trace + [Refused(x)]) == PicksOf(trace) && Failures(trace + [Refused(x)]) == Failures(trace) + 1
    ensures Aside(anc, trace + [Refused(x)]) == Aside(anc, trace) + {x}
  {
    assert (trace + [Refused(x)])[..|trace|] == trace;
  }

  lemma {:induction false} PicksPrefix(trace: seq<Choice>, n: nat)
    requires n <= |trace|
    ensures PicksOf(trace[..n]) <= PicksOf(trace)
  {
    if n < |trace| {
      PicksPrefix(trace[..|trace| - 1], n);
      assert trace[..|trace| - 1][..n] == trace[..n];
    } else {
      assert trace[..n] == trace;
    }
  }

  /** Who is set aside was refused at some point, as the best one left then, because it did not fit. */
  lemma {:induction false} AsideRefused(g: Graph, anc: Links, unit: nat, limits: Limits, trace: seq<Choice>, x: Id) returns (k: nat)
    requires Greedy(g, anc, unit, limits, trace) && x in Aside(anc, trace)
    ensures k < |trace| && trace[k] == Refused(x) && GreedyChoice(g, anc, unit, limits, trace[..k], x, false)
  {
    var n := |trace| - 1;
    assert GreedyStep(g, anc, unit, limits, trace[..n], trace[n]);
    if trace[n] == Refused(x) {
      k := n;
    } else {
      hide GreedyStep, GreedyChoice, Flagged;
      GreedyPrefix(g, anc, unit, limits, trace, n);
      k := AsideRefused(g, anc, unit, limits, trace[..n], x);
      assert trace[..n][..k] == trace[..k];
    }
  }

  lemma GreedyPrefix(g: Graph, anc: Links, unit: nat, limits: Limits, trace: seq<Choice>, n: nat)
    requires Greedy(g, anc, unit, limits, trace) && n <= |trace|
    ensures Greedy(g, anc, unit, limits, trace[..n])
  {
    hide GreedyStep;
    forall k | 0 <= k < n ensures GreedyStep(g, anc, unit, limits, trace[..n][..k], trace[..n][k]) {
      assert trace[..n][..k] == trace[..k];
      assert GreedyStep(g, anc, unit, limits, trace[..k], trace[k]);
    }
  }

  /** Whoever is left out had its turn, unless the run was cut short. */
  lemma LeftOutRefused(g: Graph, anc: Links, unit: nat, limits: Limits, trace: seq<Choice>, x: Id) returns (k: nat)
    requires Greedy(g, anc, unit, limits, trace) && Exhausted(g, anc, limits, trace) && !Exceeded(g, limits, trace)
    requires x in g && x !in Gone(PicksOf(trace))
    ensures k < |trace| && trace[k] == Refused(x) && GreedyChoice(g, anc, unit, limits, trace[..k], x, false)
  {
    k := AsideRefused(g, anc, unit, limits, trace, x);
  }

  lemma NotRefused(g: Graph, anc: Links, unit: nat, limits: Limits, before: seq<Choice>, c: Choice)
    requires limits.maxBlocks <= 1 && GreedyStep(g, anc, unit, limits, before, c)
    ensures c.Took?
  {
    hide BestOf, FreshTotals, Exceeded, Aside, PicksOf, Gone;
  }

  ghost predicate TookAt(trace: seq<Choice>, k: nat)
    requires k < |trace|
  {
    k < |PicksOf(trace)| && trace[k] == Took(PicksOf(trace)[k]) && PicksOf(trace[..k]) == PicksOf(trace)[..k]
  }

  lemma TookBefore(anc: Links, before: seq<Choice>, p: Pick, k: nat)
    requires k <= |before| == |PicksOf(before)| && (k < |before| ==> TookAt(before, k))
    ensures TookAt(before + [Took(p)], k)
  {
    TookOneMore(anc, before, p);
    hide PicksOf;
    assert (before + [Took(p)])[..k] == before[..k];
    assert before[..|before|] == before;
  }

  /** The last block has no limits: nobody is ever refused. */
  lemma {:induction false} NoRefusals(g: Graph, anc: Links, unit: nat, limits: Limits, trace: seq<Choice>)
    requires limits.maxBlocks <= 1 && Greedy(g, anc, unit, limits, trace)
    ensures Aside(anc, trace) == {} && Failures(trace) == 0 && |PicksOf(trace)| == |trace|
    ensures forall k :: 0 <= k < |trace| ==> TookAt(trace, k)
  {
    if trace != [] {
      var n := |trace| - 1;
      var before := trace[..n];
      assert GreedyStep(g, anc, unit, limits, before, trace[n]);
      GreedyPrefix(g, anc, unit, limits, trace, n);
      assert trace == before + [trace[n]];
      hide *;
      NotRefused(g, anc, unit, limits, before, trace[n]);
      NoRefusals(g, anc, unit, limits, before);
      TookOneMore(anc, before, trace[n].pick);
      forall k | 0 <= k < |trace| ensures TookAt(trace, k) {
        TookBefore(anc, before, trace[n].pick, k);
      }
    }
  }

  /** Without limits every package root is best among all transactions not taken, and everyone is taken. */
  lemma UnboundedTakesBest(g: Graph, anc: Links, unit: nat, limits: Limits, trace: seq<Choice>)
    requires limits.maxBlocks <= 1 && Greedy(g, anc, unit, limits, trace)
    ensures |PicksOf(trace)| == |trace|
    ensures BestRoots(g, anc, unit, PicksOf(trace))
    ensures Exhausted(g, anc, limits, trace) ==> g.Keys <= Gone(PicksOf(trace))
  {
    hide Gone, PicksOf, Aside, BestOf, FitsAt, Total;
    NoRefusals(g, anc, unit, limits, trace);
    assert !Exceeded(g, limits, trace);
    var picks := PicksOf(trace);
    forall k | 0 <= k < |picks| ensures picks[k].cluster != [] && BestOf(g, anc, unit, Gone(picks[..k]), {}, Root(picks[k])) {
      assert TookAt(trace, k) && GreedyStep(g, anc, unit, limits, trace[..k], trace[k]);
      GreedyPrefix(g, anc, unit, limits, trace, k);
      NoRefusals(g, anc, unit, limits, trace[..k]);
    }
    if Exhausted(g, anc, limits, trace) {
      forall x | x in g ensures x in Gone(picks) {
        assert x !in Aside(anc, trace);
      }
    }
  }

  // ---------- capacity ----------

  ghost predicate Covered(g: Graph) {
    forall x :: x in g ==> g[x].weight <= 4 * g[x].size
  }

  lemma IsCovered(g: Graph)
    requires forall x :: x in g ==> g[x].weight <= 4 * g[x].size
    ensures Covered(g)
  {
  }

  lemma {:induction false} WeightCovered(g: Graph, s: set<Id>)
    requires Covered(g) && s <= g.Keys
    ensures Total(Weights(g), s) <= 4 * Total(Sizes(g), s)
    decreases s
  {
    if s != {} {
      var x := AnyOf(s);
      TotalSplit(Weights(g), s, x);
      TotalSplit(Sizes(g), s, x);
      WeightCovered(g, s - {x});
    }
  }

  /** The totals of a block that is the only one, or that the limits hold back. */
  ghost predicate Within(limits: Limits, b: Block) {
    limits.maxBlocks > 1 ==>
      && (limits.weight.Some? && limits.weight.value > 0 ==> b.weight < limits.weight.value)
      && (limits.sigops.Some? && limits.sigops.value >= 0 ==> b.sigops <= limits.sigops.value)
  }

  // ---------- the main loop ----------

  /** What the main loop keeps, apart from the order of its queues. */
  ghost predicate Going(pool: AuditPool, initial: map<Id, real>, limits: Limits, b: Block, trace: seq<Choice>)
    reads pool
  {
    var g, anc, picks := pool.graph, pool.anc, PicksOf(trace);
    && Dag(g, anc) && FullyLinked(anc, pool.children) && Covered(g)
    && Settled(g, anc, pool.unit, initial, picks, pool.View())
    && pool.used == Gone(picks) && Gone(picks) <= g.Keys && pool.modified == Flagged(anc, picks)
    && Ledger(g, anc, pool.unit, limits, trace, b)
  }

  ghost predicate Ledger(g: Graph, anc: Links, unit: nat, limits: Limits, trace: seq<Choice>, b: Block) {
    Accounted(g, PicksOf(trace), b) && Within(limits, b) && Greedy(g, anc, unit, limits, trace)
  }

  ghost predicate Accounted(g: Graph, picks: seq<Pick>, b: Block)
  {
    && b.transactions == Emitted(picks)
    && b.weight == Total(Weights(g), Gone(picks)) && b.sigops == Total(Sigops(g), Gone(picks))
  }

  lemma BlockGrown(g: Graph, anc: Links, unit: nat, initial: map<Id, real>, limits: Limits, picks: seq<Pick>, p: Pick,
                   b: Block, b': Block, t: Totals)
    requires Dag(g, anc) && Covered(g) && Gone(picks) <= g.Keys
    requires ValidPicks(g, anc, unit, initial, picks) && ValidPick(g, anc, unit, initial, picks, p)
    requires Accounted(g, picks, b) && Within(limits, b)
    requires t == FreshTotals(g, anc, unit, Root(p), Gone(picks)) && Fits(limits, b.weight, b.sigops, t)
    requires Elements(p.cluster) <= g.Keys && AfterPops(g, b, b', p, |p.cluster|)
    ensures Gone(picks + [p]) == Gone(picks) + Elements(p.cluster) && Gone(picks + [p]) <= g.Keys
    ensures Accounted(g, picks + [p], b') && Within(limits, b')
  {
    var s := Elements(p.cluster);
    Extended(g, anc, unit, initial, picks, p);
    assert p.cluster[0..] == p.cluster;
    assert (picks + [p])[..|picks|] == picks;
    assert s !! Gone(picks);
    TotalUnion(Weights(g), Gone(picks), s);
    TotalUnion(Sigops(g), Gone(picks), s);
    WeightCovered(g, s);
  }

  lemma WaitingForFewer(g: Graph, totals: map<Id, Totals>, gone: set<Id>, gone': set<Id>, modified: set<Id>, arr: seq<Id>, queue: seq<Id>, aside: set<Id>)
    requires InOrder(g, totals, gone, modified, arr, queue, aside) && gone <= gone'
    ensures InOrder(g, totals, gone', modified, arr, queue, aside)
  {
    hide Once, Descending;
  }

  /** The package of "next" enters the block. */
  method EnterBlock(pool: AuditPool, next: Id, limits: Limits, b: Block, ghost initial: map<Id, real>, ghost trace: seq<Choice>)
    returns (b': Block, used: seq<Id>, p: Pick)
    requires Going(pool, initial, limits, b, trace)
    requires next in pool.totals && Fits(limits, b.weight, b.sigops, pool.totals[next])
    requires GreedyChoice(pool.graph, pool.anc, pool.unit, limits, trace, next, true)
    modifies pool`used
    ensures ValidPick(pool.graph, pool.anc, pool.unit, initial, PicksOf(trace), p)
    ensures next in Elements(p.cluster) && Elements(p.cluster) <= pool.graph.Keys && Elements(p.cluster) !! Gone(PicksOf(trace))
    ensures Distinct(used) && Elements(used) == Elements(p.cluster)
    ensures pool.used == Gone(PicksOf(trace) + [p]) == Gone(PicksOf(trace)) + Elements(p.cluster)
    ensures Ledger(pool.graph, pool.anc, pool.unit, limits, trace + [Took(p)], b')
  {
    ghost var g, anc, unit, picks := pool.graph, pool.anc, pool.unit, PicksOf(trace);
    hide *;
    GoingParts(pool, initial, limits, b, trace);
    LedgerParts(g, anc, unit, limits, trace, b);
    ChoiceParts(g, anc, unit, limits, trace, next, true);
    RootTotals(g, anc, unit, initial, picks, pool.View(), next);
    ghost var t := pool.totals[next];
    p := Assemble(pool, next, initial, picks);
    PickInPool(g, anc, unit, initial, picks, p);
    b', used := TakeIntoBlock(pool, p, b);
    PoppedAll(g, b, b', p);
    BlockGrown(g, anc, unit, initial, limits, picks, p, b, b', t);
    TookOneMore(anc, trace, p);
    LedgerWithPick(g, anc, unit, limits, trace, p, b');
  }

  lemma ChoiceParts(g: Graph, anc: Links, unit: nat, limits: Limits, trace: seq<Choice>, root: Id, took: bool)
    requires GreedyChoice(g, anc, unit, limits, trace, root, took)
    ensures root in g && root !in Gone(PicksOf(trace))
  {
  }

  lemma LedgerParts(g: Graph, anc: Links, unit: nat, limits: Limits, trace: seq<Choice>, b: Block)
    requires Ledger(g, anc, unit, limits, trace, b)
    ensures Accounted(g, PicksOf(trace), b) && Within(limits, b) && Greedy(g, anc, unit, limits, trace)
  {
  }

  lemma LedgerWithPick(g: Graph, anc: Links, unit: nat, limits: Limits, trace: seq<Choice>, p: Pick, b: Block)
    requires Greedy(g, anc, unit, limits, trace) && p.cluster != [] && GreedyChoice(g, anc, unit, limits, trace, Root(p), true)
    requires PicksOf(trace + [Took(p)]) == PicksOf(trace) + [p]
    requires Accounted(g, PicksOf(trace) + [p], b) && Within(limits, b)
    ensures Ledger(g, anc, unit, limits, trace + [Took(p)], b)
  {
    hide Greedy, GreedyChoice, Accounted, Within, PicksOf;
    GreedyExtended(g, anc, unit, limits, trace, Took(p));
  }

  /** The package just taken leaves the pool; refused transactions that depend on it are queued again. */
  method LeavePool(pool: AuditPool, p: Pick, used: seq<Id>, queue: seq<Id>, ghost arr: seq<Id>,
                   ghost initial: map<Id, real>, ghost trace: seq<Choice>)
    returns (queue': seq<Id>)
    requires Dag(pool.graph, pool.anc) && FullyLinked(pool.anc, pool.children)
    requires Settled(pool.graph, pool.anc, pool.unit, initial, PicksOf(trace), pool.View())
    requires ValidPick(pool.graph, pool.anc, pool.unit, initial, PicksOf(trace), p)
    requires Distinct(used) && Elements(used) == Elements(p.cluster) <= pool.graph.Keys && Elements(p.cluster) !! Gone(PicksOf(trace))
    requires pool.modified == Flagged(pool.anc, PicksOf(trace))
    requires InOrder(pool.graph, pool.totals, Gone(PicksOf(trace) + [p]), pool.modified, arr, queue, Aside(pool.anc, trace))
    modifies pool`ancestorMap, pool`totals, pool`dependencyRate, pool`modified, pool`queued
    ensures Settled(pool.graph, pool.anc, pool.unit, initial, PicksOf(trace) + [p], pool.View())
    ensures pool.modified == Flagged(pool.anc, PicksOf(trace) + [p])
    ensures InOrder(pool.graph, pool.totals, Gone(PicksOf(trace) + [p]), pool.modified, arr, queue', Aside(pool.anc, trace + [Took(p)]))
  {
    ghost var g, anc, unit, picks, c0 := pool.graph, pool.anc, pool.unit, PicksOf(trace), pool.View();
    hide *;
    SettledCaches(g, anc, unit, initial, picks, c0);
    queue' := Retire(pool, used, p.rate, queue, Gone(picks), Gone(picks + [p]), arr, Aside(anc, trace));
    PackageRetired(g, anc, unit, initial, picks, p, c0, pool.View());
    FlaggedByPick(anc, picks, p);
    TookOneMore(anc, trace, p);
  }

  lemma FlaggedByPick(anc: Links, picks: seq<Pick>, p: Pick)
    ensures Flagged(anc, picks + [p]) == Flagged(anc, picks) + DependentsOfAny(anc, Elements(p.cluster))
  {
    assert (picks + [p])[..|picks|] == picks;
    var gone, s := Gone(picks), Elements(p.cluster);
    assert Gone(picks + [p]) == gone + s;
    hide Gone, Elements;
    assert forall x :: x in anc ==> (gone + s !! anc[x] <==> gone !! anc[x] && s !! anc[x]);
  }

  lemma Resumed(pool: AuditPool, initial: map<Id, real>, limits: Limits, b: Block, trace: seq<Choice>, picks: seq<Pick>)
    requires Dag(pool.graph, pool.anc) && FullyLinked(pool.anc, pool.children) && Covered(pool.graph)
    requires picks == PicksOf(trace) && Settled(pool.graph, pool.anc, pool.unit, initial, picks, pool.View())
    requires pool.used == Gone(picks) && Gone(picks) <= pool.graph.Keys && pool.modified == Flagged(pool.anc, picks)
    requires Ledger(pool.graph, pool.anc, pool.unit, limits, trace, b)
    ensures Going(pool, initial, limits, b, trace)
  {
  }

  /** Everything the main loop keeps. */
  ghost predicate Running(pool: AuditPool, initial: map<Id, real>, limits: Limits, arr: seq<Id>, queue: seq<Id>, b: Block, trace: seq<Choice>)
    reads pool
  {
    && Going(pool, initial, limits, b, trace)
    && InOrder(pool.graph, pool.totals, Gone(PicksOf(trace)), pool.modified, arr, queue, Aside(pool.anc, trace))
  }

  /** The package fits: it is taken. */
  method Accept(pool: AuditPool, next: Id, limits: Limits, queue: seq<Id>, b: Block, ghost arr: seq<Id>,
                ghost initial: map<Id, real>, ghost trace: seq<Choice>)
    returns (b': Block, queue': seq<Id>, ghost trace': seq<Choice>)
    requires Going(pool, initial, limits, b, trace)
    requires next in pool.totals && Fits(limits, b.weight, b.sigops, pool.totals[next])
    requires GreedyChoice(pool.graph, pool.anc, pool.unit, limits, trace, next, true)
    requires InOrder(pool.graph, pool.totals, Gone(PicksOf(trace)) + {next}, pool.modified, arr, queue, Aside(pool.anc, trace))
    modifies pool`ancestorMap, pool`totals, pool`dependencyRate, pool`modified, pool`queued, pool`used
    ensures Running(pool, initial, limits, arr, queue', b', trace') && Failures(trace') == 0
    ensures Gone(PicksOf(trace)) < Gone(PicksOf(trace')) <= pool.graph.Keys
  {
    hide *;
    ghost var picks := PicksOf(trace);
    GoingParts(pool, initial, limits, b, trace);
    ChoiceParts(pool.graph, pool.anc, pool.unit, limits, trace, next, true);
    var used, p;
    b', used, p := EnterBlock(pool, next, limits, b, initial, trace);
    trace' := trace + [Took(p)];
    WaitingForFewer(pool.graph, pool.totals, Gone(picks) + {next}, Gone(picks + [p]), pool.modified, arr, queue, Aside(pool.anc, trace));
    queue' := LeavePool(pool, p, used, queue, arr, initial, trace);
    TookOneMore(pool.anc, trace, p);
    Resumed(pool, initial, limits, b', trace', picks + [p]);
    RunningAgain(pool, initial, limits, arr, queue', b', trace');
  }

  lemma GoingParts(pool: AuditPool, initial: map<Id, real>, limits: Limits, b: Block, trace: seq<Choice>)
    requires Going(pool, initial, limits, b, trace)
    ensures Dag(pool.graph, pool.anc) && FullyLinked(pool.anc, pool.children) && Covered(pool.graph)
    ensures Settled(pool.graph, pool.anc, pool.unit, initial, PicksOf(trace), pool.View())
    ensures pool.used == Gone(PicksOf(trace)) && Gone(PicksOf(trace)) <= pool.graph.Keys && pool.totals.Keys == pool.graph.Keys
    ensures pool.modified == Flagged(pool.anc, PicksOf(trace))
    ensures Ledger(pool.graph, pool.anc, pool.unit, limits, trace, b)
  {
    hide Gone, Flagged, PicksOf, Ledger, ValidPicks;
  }

  lemma RunningAgain(pool: AuditPool, initial: map<Id, real>, limits: Limits, arr: seq<Id>, queue: seq<Id>, b: Block, trace: seq<Choice>)
    requires Going(pool, initial, limits, b, trace)
    requires InOrder(pool.graph, pool.totals, Gone(PicksOf(trace)), pool.modified, arr, queue, Aside(pool.anc, trace))
    ensures Running(pool, initial, limits, arr, queue, b, trace)
  {
  }

  lemma WaitsAside(g: Graph, totals: map<Id, Totals>, gone: set<Id>, modified: set<Id>, arr: seq<Id>, queue: seq<Id>, aside: set<Id>, next: Id)
    requires InOrder(g, totals, gone + {next}, modified, arr, queue, aside) && TakenOff(next, modified, arr, queue, aside)
    ensures InOrder(g, totals, gone, modified, arr, queue, aside + {next})
  {
    hide Descending, Distinct;
  }

  /** The package does not fit: its root is held in the overflow list. */
  lemma HeldBack(pool: AuditPool, next: Id, limits: Limits, arr: seq<Id>, queue: seq<Id>, b: Block, initial: map<Id, real>, trace: seq<Choice>)
    requires Going(pool, initial, limits, b, trace)
    requires GreedyChoice(pool.graph, pool.anc, pool.unit, limits, trace, next, false)
    requires InOrder(pool.graph, pool.totals, Gone(PicksOf(trace)) + {next}, pool.modified, arr, queue, Aside(pool.anc, trace))
    requires TakenOff(next, pool.modified, arr, queue, Aside(pool.anc, trace))
    ensures Running(pool, initial, limits, arr, queue, b, trace + [Refused(next)])
    ensures Failures(trace + [Refused(next)]) == Failures(trace) + 1 && PicksOf(trace + [Refused(next)]) == PicksOf(trace)
  {
    hide *;
    GoingParts(pool, initial, limits, b, trace);
    RefusedOneMore(pool.anc, trace, next);
    LedgerRefused(pool.graph, pool.anc, pool.unit, limits, trace, next, b);
    Resumed(pool, initial, limits, b, trace + [Refused(next)], PicksOf(trace));
    WaitsAside(pool.graph, pool.totals, Gone(PicksOf(trace)), pool.modified, arr, queue, Aside(pool.anc, trace), next);
    RunningAgain(pool, initial, limits, arr, queue, b, trace + [Refused(next)]);
  }

  lemma LedgerRefused(g: Graph, anc: Links, unit: nat, limits: Limits, trace: seq<Choice>, next: Id, b: Block)
    requires Ledger(g, anc, unit, limits, trace, b) && GreedyChoice(g, anc, unit, limits, trace, next, false)
    requires PicksOf(trace + [Refused(next)]) == PicksOf(trace)
    ensures Ledger(g, anc, unit, limits, trace + [Refused(next)], b)
  {
    hide Greedy, GreedyChoice, Accounted, Within, PicksOf;
    GreedyExtended(g, anc, unit, limits, trace, Refused(next));
  }

  lemma RunningParts(pool: AuditPool, initial: map<Id, real>, limits: Limits, arr: seq<Id>, queue: seq<Id>, b: Block, trace: seq<Choice>)
    requires Running(pool, initial, limits, arr, queue, b, trace)
    ensures Going(pool, initial, limits, b, trace)
    ensures InOrder(pool.graph, pool.totals, Gone(PicksOf(trace)), pool.modified, arr, queue, Aside(pool.anc, trace))
  {
  }

  lemma ChoiceIsGreedy(pool: AuditPool, initial: map<Id, real>, limits: Limits, b: Block, trace: seq<Choice>, next: Id)
    requires Going(pool, initial, limits, b, trace) && next in pool.graph && next in pool.totals
    requires Best(pool.graph, pool.totals, Gone(PicksOf(trace)), Aside(pool.anc, trace), next)
    requires next !in Gone(PicksOf(trace)) && next !in Aside(pool.anc, trace) && !Exceeded(pool.graph, limits, trace)
    ensures GreedyChoice(pool.graph, pool.anc, pool.unit, limits, trace, next, Fits(limits, b.weight, b.sigops, pool.totals[next]))
  {
    var g, anc, unit, picks := pool.graph, pool.anc, pool.unit, PicksOf(trace);
    hide Going, Best, Gone, Aside, Exceeded, PicksOf, Emitted, BestOf, Fits, FreshTotals, Settled, Ledger, ValidPicks;
    GoingParts(pool, initial, limits, b, trace);
    LedgerParts(g, anc, unit, limits, trace, b);
    RootTotals(g, anc, unit, initial, picks, pool.View(), next);
    BestByTotals(g, anc, unit, pool.ancestorMap, pool.totals, Gone(picks), Aside(anc, trace), next);
  }

  lemma AlreadyTaken(g: Graph, totals: map<Id, Totals>, gone: set<Id>, modified: set<Id>, arr: seq<Id>, queue: seq<Id>, aside: set<Id>, next: Id)
    requires InOrder(g, totals, gone + {next}, modified, arr, queue, aside) && next in gone
    ensures InOrder(g, totals, gone, modified, arr, queue, aside)
  {
    assert gone + {next} == gone;
  }

  /** Takes the package of the selected transaction, or holds it back. */
  method Consider(pool: AuditPool, next: Id, limits: Limits, queue: seq<Id>, b: Block, failures: nat, ghost arr: seq<Id>,
                  ghost initial: map<Id, real>, ghost trace: seq<Choice>)
    returns (b': Block, queue': seq<Id>, failures': nat, ghost trace': seq<Choice>)
    requires Going(pool, initial, limits, b, trace) && next in pool.graph
    requires Best(pool.graph, pool.totals, Gone(PicksOf(trace)), Aside(pool.anc, trace), next)
    requires InOrder(pool.graph, pool.totals, Gone(PicksOf(trace)) + {next}, pool.modified, arr, queue, Aside(pool.anc, trace))
    requires TakenOff(next, pool.modified, arr, queue, Aside(pool.anc, trace))
    requires failures == Failures(trace) && !Exceeded(pool.graph, limits, trace)
    modifies pool`ancestorMap, pool`totals, pool`dependencyRate, pool`modified, pool`queued, pool`used
    ensures Running(pool, initial, limits, arr, queue', b', trace') && failures' == Failures(trace')
    ensures (PicksOf(trace') == PicksOf(trace) && queue' == queue) || Gone(PicksOf(trace)) < Gone(PicksOf(trace')) <= pool.graph.Keys
  {
    hide *;
    GoingParts(pool, initial, limits, b, trace);
    OffIsNotAside(next, pool.modified, arr, queue, Aside(pool.anc, trace));
    b', queue', failures', trace' := b, queue, failures, trace;
    if next !in pool.used {
      ChoiceIsGreedy(pool, initial, limits, b, trace, next);
      if Fits(limits, b.weight, b.sigops, pool.totals[next]) {
        b', queue', trace' := Accept(pool, next, limits, queue, b, arr, initial, trace);
        failures' := 0;
      } else {
        HeldBack(pool, next, limits, arr, queue, b, initial, trace);
        failures', trace' := failures + 1, trace + [Refused(next)];
      }
    } else {
      AlreadyTaken(pool.graph, pool.totals, Gone(PicksOf(trace)), pool.modified, arr, queue, Aside(pool.anc, trace), next);
      RunningAgain(pool, initial, limits, arr, queue, b, trace);
    }
  }

  lemma OffIsNotAside(next: Id, modified: set<Id>, pool: seq<Id>, queue: seq<Id>, aside: set<Id>)
    requires TakenOff(next, modified, pool, queue, aside)
    ensures next !in aside
  {
  }

  /** One round of the main loop, up to the test for a full block. */
  method Step(pool: AuditPool, limits: Limits, arr: seq<Id>, queue: seq<Id>, b: Block, failures: nat,
              ghost initial: map<Id, real>, ghost trace: seq<Choice>)
    returns (arr': seq<Id>, queue': seq<Id>, b': Block, failures': nat, ghost trace': seq<Choice>)
    requires Running(pool, initial, limits, arr, queue, b, trace) && (arr != [] || queue != [])
    requires failures == Failures(trace) && !Exceeded(pool.graph, limits, trace)
    modifies pool`ancestorMap, pool`totals, pool`dependencyRate, pool`modified, pool`queued, pool`used
    ensures Running(pool, initial, limits, arr', queue', b', trace') && failures' == Failures(trace')
    ensures (PicksOf(trace') == PicksOf(trace) && |arr'| + |queue'| < |arr| + |queue|)
         || Gone(PicksOf(trace)) < Gone(PicksOf(trace')) <= pool.graph.Keys
  {
    hide *;
    ghost var gone, aside := Gone(PicksOf(trace)), Aside(pool.anc, trace);
    RunningParts(pool, initial, limits, arr, queue, b, trace);
    GoingParts(pool, initial, limits, b, trace);
    b', failures', trace' := b, failures, trace;
    var rest := SkipInvalid(arr, pool.used, pool.modified);
    SuffixInOrder(pool.graph, pool.totals, gone, pool.modified, arr, queue, aside, rest);
    var next;
    next, arr', queue' := SelectNext(pool.totals, rest, queue, pool.graph, gone, pool.modified, aside);
    if next.Some? {
      b', queue', failures', trace' := Consider(pool, next.value, limits, queue', b, failures, arr', initial, trace);
    } else {
      RunningAgain(pool, initial, limits, arr', queue', b, trace);
    }
  }

  // ---------- the whole template ----------

  /** Every package is a family at its price, whatever the limits; without limits, and for fees that are not negative,
      the price is always the least of the three. */
  ghost predicate TemplatePriced(candidates: seq<Candidate>, accelerations: seq<Acceleration>, limits: Limits, picks: seq<Pick>)
    requires Distinct(Txids(candidates))
  {
    var inputs, fees, vsizes, rates := InputsOf(candidates), FeesOf(candidates, accelerations), VsizesOf(candidates), RatesOf(candidates, accelerations);
    forall k :: 0 <= k < |picks| ==>
      && IsFamily(inputs, picks, k) && IsPriced(inputs, fees, vsizes, 1, rates, picks, k)
      && (limits.maxBlocks <= 1 && (forall x :: x in fees ==> fees[x] >= 0) ==> LeastPrice(inputs, fees, vsizes, 1, rates, picks, k))
  }

  /** Unless there is one block only, the template's weight is below a positive limit, and its sigops are within theirs. */
  ghost predicate TemplateWithin(candidates: seq<Candidate>, limits: Limits, transactions: seq<Taken>)
    requires Distinct(Txids(candidates))
  {
    var s := Elements(TxidsOf(transactions));
    limits.maxBlocks > 1 ==>
      && (limits.weight.Some? && limits.weight.value > 0 ==> Total(WeightsOf(candidates), s) < limits.weight.value)
      && (limits.sigops.Some? && limits.sigops.value >= 0 ==> Total(SigopsOf(candidates), s) <= limits.sigops.value)
  }

  lemma AllPriced(g: Graph, anc: Links, candidates: seq<Candidate>, accelerations: seq<Acceleration>, limits: Limits, trace: seq<Choice>)
    requires IsPool(g, candidates, accelerations) && Distinct(Txids(candidates)) && Dag(g, anc) && Generated(g, anc)
    requires ValidPicks(g, anc, 1, OwnRates(g), PicksOf(trace)) && Greedy(g, anc, 1, limits, trace)
    ensures TemplatePriced(candidates, accelerations, limits, PicksOf(trace))
  {
    hide *;
    SameFields(g, candidates, accelerations);
    SameRates(g, candidates, accelerations);
    OwnRatesAre(g);
    var picks := PicksOf(trace);
    forall k: nat | k < |picks|
      ensures IsFamily(InputsIn(g), picks, k) && IsPriced(InputsIn(g), Fees(g), Sizes(g), 1, OwnRates(g), picks, k)
    {
      FamilyPriced(g, anc, 1, OwnRates(g), picks, k);
    }
    forall k: nat | k < |picks| && limits.maxBlocks <= 1 && forall x :: x in Fees(g) ==> Fees(g)[x] >= 0
      ensures picks[k].cluster != [] && LeastPrice(InputsIn(g), Fees(g), Sizes(g), 1, OwnRates(g), picks, k)
    {
      FeesNonNegative(g);
      OwnRatesSign(g);
      UnboundedTakesBest(g, anc, 1, limits, trace);
      LeastWithoutLimits(g, anc, 1, OwnRates(g), picks, k);
    }
    IsTemplatePriced(candidates, accelerations, limits, picks);
  }

  lemma IsTemplatePriced(candidates: seq<Candidate>, accelerations: seq<Acceleration>, limits: Limits, picks: seq<Pick>)
    requires Distinct(Txids(candidates))
    requires forall k: nat :: k < |picks| ==>
      && IsFamily(InputsOf(candidates), picks, k)
      && IsPriced(InputsOf(candidates), FeesOf(candidates, accelerations), VsizesOf(candidates), 1, RatesOf(candidates, accelerations), picks, k)
    requires limits.maxBlocks <= 1 && (forall x :: x in FeesOf(candidates, accelerations) ==> FeesOf(candidates, accelerations)[x] >= 0) ==>
      forall k: nat :: k < |picks| ==>
        && picks[k].cluster != []
        && LeastPrice(InputsOf(candidates), FeesOf(candidates, accelerations), VsizesOf(candidates), 1, RatesOf(candidates, accelerations), picks, k)
    ensures TemplatePriced(candidates, accelerations, limits, picks)
  {
    hide IsFamily, IsPriced, LeastPrice, InputsOf, FeesOf, VsizesOf, RatesOf, Distinct;
  }

  lemma FeesNonNegative(g: Graph)
    requires forall x :: x in Fees(g) ==> Fees(g)[x] >= 0
    ensures NonNegativeFees(g, 1)
  {
    forall x | x in g ensures g[x].fee >= 0 { assert x in Fees(g); }
  }

  lemma OwnRatesAre(g: Graph)
    ensures OwnRates(g) == map x | x in g :: Rate(1, g[x].fee, g[x].size)
  {
    hide Rate;
  }

  lemma AllWithin(g: Graph, anc: Links, candidates: seq<Candidate>, accelerations: seq<Acceleration>, limits: Limits, picks: seq<Pick>,
                  transactions: seq<Taken>)
    requires IsPool(g, candidates, accelerations) && Distinct(Txids(candidates)) && Dag(g, anc) && ValidPicks(g, anc, 1, OwnRates(g), picks)
    requires Within(limits, Block([], Total(Weights(g), Gone(picks)), Total(Sigops(g), Gone(picks)))) && transactions == Emitted(picks)
    ensures TemplateWithin(candidates, limits, transactions)
  {
    hide *;
    SameFields(g, candidates, accelerations);
    EmittedTxids(picks);
    TakenAncestors(g, anc, 1, OwnRates(g), picks);
    EmittedOnce(g, anc, 1, OwnRates(g), picks);
    IsTemplateWithin(g, candidates, limits, picks, transactions);
  }

  lemma IsTemplateWithin(g: Graph, candidates: seq<Candidate>, limits: Limits, picks: seq<Pick>, transactions: seq<Taken>)
    requires Distinct(Txids(candidates)) && WeightsOf(candidates) == Weights(g) && SigopsOf(candidates) == Sigops(g)
    requires Within(limits, Block([], Total(Weights(g), Gone(picks)), Total(Sigops(g), Gone(picks)))) && Elements(TxidsOf(transactions)) == Gone(picks)
    ensures TemplateWithin(candidates, limits, transactions)
  {
    hide WeightsOf, SigopsOf, Total, Gone, Distinct, TxidsOf;
  }

  /** Before any package is taken, a transaction's dependency rate is its own fee rate. */
  function OwnRates(g: Graph): map<Id, real> {
    map x | x in g :: Rate(1, g[x].fee, g[x].size)
  }

  lemma OwnKeys(g: Graph)
    ensures OwnRates(g).Keys == g.Keys
  {
  }

  ghost function TxidsOf(transactions: seq<Taken>): seq<Id> {
    seq(|transactions|, i requires 0 <= i < |transactions| => transactions[i].txid)
  }

  lemma {:induction false} EmittedPickIds(p: Pick, n: nat)
    requires n <= |p.cluster|
    ensures TxidsOf(EmittedPick(p, n)) == Popping(p, n)
  {
    if n > 0 {
      EmittedPickIds(p, n - 1);
      assert TxidsOf(EmittedPick(p, n)) == TxidsOf(EmittedPick(p, n - 1)) + [p.cluster[|p.cluster| - n]];
    }
  }

  lemma TxidsAppend(s: seq<Taken>, t: seq<Taken>)
    ensures TxidsOf(s + t) == TxidsOf(s) + TxidsOf(t)
  {
  }

  lemma {:induction false} EmittedTxids(picks: seq<Pick>)
    ensures TxidsOf(Emitted(picks)) == EmittedIds(picks)
  {
    if picks != [] {
      var n := |picks| - 1;
      var p := picks[n];
      EmittedTxids(picks[..n]);
      EmittedPickIds(p, |p.cluster|);
      TxidsAppend(Emitted(picks[..n]), EmittedPick(p, |p.cluster|));
    }
  }

  lemma Started(pool: AuditPool, limits: Limits, initial: map<Id, real>, arr: seq<Id>)
    requires Dag(pool.graph, pool.anc) && FullyLinked(pool.anc, pool.children) && Covered(pool.graph)
    requires Consistent(pool.graph, pool.anc, pool.unit, pool.ancestorMap, pool.totals, {})
    requires pool.dependencyRate == initial && initial.Keys == pool.graph.Keys && pool.used == pool.modified == {}
    requires Distinct(arr) && Elements(arr) == pool.graph.Keys && Descending(pool.totals, arr, {})
    ensures Running(pool, initial, limits, arr, [], Block([], 0, 0), [])
    ensures Failures([]) == 0 && !Exceeded(pool.graph, limits, []) && Gone(PicksOf([])) == {}
  {
    assert Flagged(pool.anc, []) == {};
  }

  lemma ExceededNow(pool: AuditPool, initial: map<Id, real>, limits: Limits, b: Block, trace: seq<Choice>, failures: nat)
    requires Going(pool, initial, limits, b, trace) && failures == Failures(trace)
    ensures Exceeded(pool.graph, limits, trace) <==> failures > 1000 && limits.weight.Some? && b.weight > limits.weight.value - 4000
  {
    hide Greedy, Within, Settled, Flagged, PicksOf, Dag, FullyLinked, Covered;
  }

  lemma Finished(pool: AuditPool, initial: map<Id, real>, limits: Limits, b: Block, trace: seq<Choice>, arr: seq<Id>, queue: seq<Id>)
    requires Running(pool, initial, limits, arr, queue, b, trace)
    requires (arr == [] && queue == []) || Exceeded(pool.graph, limits, trace)
    ensures ValidPicks(pool.graph, pool.anc, pool.unit, initial, PicksOf(trace))
    ensures b.transactions == Emitted(PicksOf(trace))
    ensures Greedy(pool.graph, pool.anc, pool.unit, limits, trace)
    ensures Exhausted(pool.graph, pool.anc, limits, trace)
    ensures Within(limits, Block([], Total(Weights(pool.graph), Gone(PicksOf(trace))), Total(Sigops(pool.graph), Gone(PicksOf(trace)))))
  {
    hide FullyLinked, Consistent, ValidPicks, Total, Emitted, Greedy, Aside, PicksOf, Gone, Exceeded, Flagged, Dag, Covered;
  }

  /** Builds one block template by greedily choosing the package with the best ancestor score. */
  method MakeBlockTemplate(candidates: seq<Candidate>, accelerations: seq<Acceleration>, limits: Limits)
    returns (transactions: seq<Taken>, ghost g: Graph, ghost trace: seq<Choice>)
    requires Distinct(Txids(candidates)) && AcyclicCandidates(candidates)
    ensures IsPool(g, candidates, accelerations) && Dag(g, Ancestry(g))
    ensures transactions == Emitted(PicksOf(trace)) && ValidPicks(g, Ancestry(g), 1, OwnRates(g), PicksOf(trace))
    ensures Greedy(g, Ancestry(g), 1, limits, trace) && Exhausted(g, Ancestry(g), limits, trace)
    ensures Within(limits, Block([], Total(Weights(g), Gone(PicksOf(trace))), Total(Sigops(g), Gone(PicksOf(trace)))))
    ensures limits.maxBlocks <= 1 ==> multiset(TxidsOf(transactions)) == multiset(Txids(candidates))
    ensures TemplatePriced(candidates, accelerations, limits, PicksOf(trace)) && TemplateWithin(candidates, limits, transactions)
  {
    hide *;
    var graph := CandidatePool(candidates, accelerations);
    g := graph;
    PoolAcyclic(g, candidates, accelerations);
    IsCovered(g);
    PoolKeys(g, candidates, accelerations);
    OwnKeys(g);
    var initial := OwnRates(graph);
    var pool := new AuditPool(graph, 1, initial);
    pool.SetAll(Txids(candidates));
    var mempoolArray := SortedPool(pool, Txids(candidates));
    var modified: seq<Id>, b, failures := [], Block([], 0, 0), 0;
    trace := [];
    Started(pool, limits, initial, mempoolArray);
    var full := false;
    while (mempoolArray != [] || modified != []) && !full
      invariant Running(pool, initial, limits, mempoolArray, modified, b, trace) && failures == Failures(trace)
      invariant Gone(PicksOf(trace)) <= g.Keys
      invariant !full ==> !Exceeded(g, limits, trace)
      invariant full ==> (mempoolArray == [] && modified == []) || Exceeded(g, limits, trace)
      decreases g.Keys - Gone(PicksOf(trace)), |mempoolArray| + |modified|, !full
    {
      mempoolArray, modified, b, failures, trace := Step(pool, limits, mempoolArray, modified, b, failures, initial, trace);
      RunningParts(pool, initial, limits, mempoolArray, modified, b, trace);
      ExceededNow(pool, initial, limits, b, trace, failures);
      var exceededPackageTries := failures > 1000 && limits.weight.Some? && b.weight > limits.weight.value - 4000;
      var queueEmpty := mempoolArray == [] && modified == [];
      full := exceededPackageTries || queueEmpty;
    }
    Finished(pool, initial, limits, b, trace, mempoolArray, modified);
    transactions := b.transactions;
    if limits.maxBlocks <= 1 {
      TemplateIsPermutation(g, pool.anc, initial, limits, trace, candidates);
    }
    AncestryIsDag(g);
    AllPriced(g, Ancestry(g), candidates, accelerations, limits, trace);
    AllWithin(g, Ancestry(g), candidates, accelerations, limits, PicksOf(trace), transactions);
  }

  lemma TemplateIsPermutation(g: Graph, anc: Links, initial: map<Id, real>, limits: Limits, trace: seq<Choice>, candidates: seq<Candidate>)
    requires Dag(g, anc) && ValidPicks(g, anc, 1, initial, PicksOf(trace)) && limits.maxBlocks <= 1
    requires Greedy(g, anc, 1, limits, trace) && Exhausted(g, anc, limits, trace)
    requires Distinct(Txids(candidates)) && Elements(Txids(candidates)) == g.Keys
    ensures multiset(TxidsOf(Emitted(PicksOf(trace)))) == multiset(Txids(candidates))
  {
    hide *;
    UnboundedTakesBest(g, anc, 1, limits, trace);
    TakenAncestors(g, anc, 1, initial, PicksOf(trace));
    EmittedOnce(g, anc, 1, initial, PicksOf(trace));
    EmittedTxids(PicksOf(trace));
    SamePermutation(TxidsOf(Emitted(PicksOf(trace))), Txids(candidates));
  }

  /** A template without limits respects all rate caps, zero rates or not. */
  lemma UnboundedCapped(g: Graph, anc: Links, limits: Limits, trace: seq<Choice>)
    requires limits.maxBlocks <= 1 && NonNegativeFees(g, 1) && Dag(g, anc)
    requires ValidPicks(g, anc, 1, OwnRates(g), PicksOf(trace)) && Greedy(g, anc, 1, limits, trace)
    ensures CapsHold(anc, PicksOf(trace))
  {
    OwnRatesSign(g);
    hide *;
    UnboundedTakesBest(g, anc, 1, limits, trace);
    BestFirstCapped(g, anc, 1, OwnRates(g), PicksOf(trace));
  }

  lemma OwnRatesSign(g: Graph)
    requires NonNegativeFees(g, 1)
    ensures NonNegative(OwnRates(g))
  {
    forall x | x in g ensures OwnRates(g)[x] >= 0.0 {
      RateSign(1, g[x].fee, g[x].size);
    }
  }
}
