/** The selection worker's makeBlockTemplates: up to eight projected blocks out of a mempool. */
module TxSelection {
  import opened Collections
  import opened PackageGraph
  import opened Relatives
  import opened Selection
  import opened Sorting
  import opened Packaging
  import opened TxLists
  import opened TxEvents
  import opened LeftOvers
  import opened Families
  import opened Mempools

  // ---------- emission ----------

  /** The block under construction. */
  datatype Block = Block(transactions: seq<Id>, weight: int)

  /** What the worker notes on the mempool's own transactions, and the clusters it reports. */
  datatype Notes = Notes(effective: map<Id, real>, dirty: set<Id>, clusters: map<Id, seq<Id>>)

  /** Notes the effective rate on the mempool's transaction, marking it dirty if the rate changes. */
  function Note(n: Notes, x: Id, rate: real): Notes {
    if x in n.effective && n.effective[x] != rate then n.(effective := n.effective[x := rate], dirty := n.dirty + {x}) else n
  }

  /** The rate a transaction was taken at. */
  ghost function RateOf(picks: seq<Pick>, x: Id): real {
    if picks == [] then 0.0 else
    var p := picks[|picks| - 1];
    if x in p.cluster then p.rate else RateOf(picks[..|picks| - 1], x)
  }

  ghost function ClustersOf(picks: seq<Pick>): map<Id, seq<Id>> {
    if picks == [] then map[] else
    var p, before := picks[|picks| - 1], ClustersOf(picks[..|picks| - 1]);
    if |p.cluster| > 1 then before[Root(p) := p.cluster] else before
  }

  /** Taken transactions carry the rate of their package; those whose rate that changed are dirty. */
  ghost predicate Noted(effective: map<Id, real>, picks: seq<Pick>, n: Notes) {
    && n.effective.Keys == effective.Keys
    && (forall x :: x in effective ==> n.effective[x] == if x in Gone(picks) then RateOf(picks, x) else effective[x])
    && n.dirty == (set x | x in effective && x in Gone(picks) && RateOf(picks, x) != effective[x])
    && n.clusters == ClustersOf(picks)
  }

  /** The block and the notes after popping "k" transactions of the package. */
  ghost predicate AfterPops(g: Graph, b0: Block, n0: Notes, b: Block, n: Notes, p: Pick, k: nat)
    requires k <= |p.cluster|
  {
    var s := Elements(Popping(p, k));
    && s <= g.Keys && Distinct(Popping(p, k)) && s == Elements(p.cluster[|p.cluster| - k..])
    && b.transactions == b0.transactions + Popping(p, k)
    && b.weight == b0.weight + Total(Weights(g), s)
    && NotedAll(n0, n, s, p.rate)
  }

  ghost predicate NotedAll(n0: Notes, n: Notes, s: set<Id>, rate: real) {
    && n.clusters == n0.clusters && n.effective.Keys == n0.effective.Keys
    && (forall x :: x in n0.effective ==> n.effective[x] == if x in s then rate else n0.effective[x])
    && n.dirty == n0.dirty + (set x | x in s && x in n0.effective && n0.effective[x] != rate)
  }

  lemma PoppedNone(g: Graph, b0: Block, n0: Notes, p: Pick)
    ensures AfterPops(g, b0, n0, b0, n0, p, 0) && Popping(p, 0) == []
  {
    assert p.cluster[|p.cluster|..] == [];
  }

  lemma NotedOneMore(n0: Notes, n: Notes, s: set<Id>, rate: real, x: Id)
    requires NotedAll(n0, n, s, rate) && x !in s
    ensures NotedAll(n0, Note(n, x, rate), s + {x}, rate)
  {
  }

  lemma PoppedOneMore(g: Graph, b0: Block, n0: Notes, b: Block, n: Notes, p: Pick, k: nat)
    requires k < |p.cluster| && Distinct(p.cluster) && Elements(p.cluster) <= g.Keys
    requires AfterPops(g, b0, n0, b, n, p, k)
    ensures var x := p.cluster[|p.cluster| - k - 1];
      && x in g && Popping(p, k + 1) == Popping(p, k) + [x]
      && Elements(Popping(p, k)) <= Elements(Popping(p, k + 1)) && Elements(Popping(p, k + 1)) - Elements(Popping(p, k)) == {x}
      && AfterPops(g, b0, n0, Block(b.transactions + [x], b.weight + g[x].weight), Note(n, x, p.rate), p, k + 1)
  {
    var i := |p.cluster| - k - 1;
    var x, popped := p.cluster[i], Popping(p, k);
    var s := Elements(popped);
    assert x in Elements(p.cluster);
    NextPopped(p.cluster, i, popped);
    NotedOneMore(n0, n, s, p.rate, x);
    hide NotedAll, Note;
    assert s + {x} - {x} == s;
    TotalSplit(Weights(g), s + {x}, x);
  }

  lemma PoppedAll(g: Graph, b0: Block, n0: Notes, b: Block, n: Notes, p: Pick)
    requires AfterPops(g, b0, n0, b, n, p, |p.cluster|)
    ensures Distinct(Popping(p, |p.cluster|)) && Elements(Popping(p, |p.cluster|)) == Elements(p.cluster)
  {
    assert p.cluster[0..] == p.cluster;
  }

  /** Takes the package into the block, popping it off its sorted list. */
  method TakeIntoBlock(pool: AuditPool, p: Pick, b0: Block, n0: Notes) returns (b: Block, n: Notes, used: seq<Id>)
    requires Distinct(p.cluster) && Elements(p.cluster) <= pool.graph.Keys
    modifies pool`used
    ensures AfterPops(pool.graph, b0, n0, b, n, p, |p.cluster|)
    ensures used == Popping(p, |p.cluster|)
    ensures pool.used == old(pool.used) + Elements(p.cluster)
  {
    b, n, used := b0, n0, [];
    var sortedTxSet := p.cluster;
    PoppedNone(pool.graph, b0, n0, p);
    assert pool.used == old(pool.used) + Elements(used);
    while sortedTxSet != []
      invariant sortedTxSet <= p.cluster
      invariant used == Popping(p, |p.cluster| - |sortedTxSet|)
      invariant AfterPops(pool.graph, b0, n0, b, n, p, |p.cluster| - |sortedTxSet|)
      invariant pool.used == old(pool.used) + Elements(used)
      decreases |sortedTxSet|
    {
      b, n, used := PopOne(pool, p, sortedTxSet, b, n, used, b0, n0);
      sortedTxSet := sortedTxSet[..|sortedTxSet| - 1];
    }
    PoppedAll(pool.graph, b0, n0, b, n, p);
  }

  method PopOne(pool: AuditPool, p: Pick, sortedTxSet: seq<Id>, b: Block, n: Notes, used: seq<Id>, ghost b0: Block, ghost n0: Notes)
    returns (b': Block, n': Notes, used': seq<Id>)
    requires Distinct(p.cluster) && Elements(p.cluster) <= pool.graph.Keys
    requires sortedTxSet != [] && sortedTxSet <= p.cluster
    requires used == Popping(p, |p.cluster| - |sortedTxSet|)
    requires AfterPops(pool.graph, b0, n0, b, n, p, |p.cluster| - |sortedTxSet|)
    modifies pool`used
    ensures used' == Popping(p, |p.cluster| - |sortedTxSet| + 1)
    ensures AfterPops(pool.graph, b0, n0, b', n', p, |p.cluster| - |sortedTxSet| + 1)
    ensures pool.used == old(pool.used) + (Elements(used') - Elements(used)) && Elements(used) <= Elements(used')
  {
    hide *;
    var ancestor := sortedTxSet[|sortedTxSet| - 1];
    PoppedOneMore(pool.graph, b0, n0, b, n, p, |p.cluster| - |sortedTxSet|);
    pool.used := pool.used + {ancestor};
    n' := Note(n, ancestor, p.rate);
    b' := Block(b.transactions + [ancestor], b.weight + pool.graph[ancestor].weight);
    used' := used + [ancestor];
  }

  lemma PickedOneMore(picks: seq<Pick>, p: Pick)
    requires p.cluster != []
    ensures Gone(picks + [p]) == Gone(picks) + Elements(p.cluster)
    ensures forall x :: RateOf(picks + [p], x) == if x in Elements(p.cluster) then p.rate else RateOf(picks, x)
    ensures ClustersOf(picks + [p]) == if |p.cluster| > 1 then ClustersOf(picks)[Root(p) := p.cluster] else ClustersOf(picks)
  {
    assert (picks + [p])[..|picks|] == picks;
  }

  lemma NotedPackage(effective: map<Id, real>, picks: seq<Pick>, p: Pick, n0: Notes, n: Notes)
    requires p.cluster != [] && Elements(p.cluster) !! Gone(picks) && Noted(effective, picks, n0)
    requires NotedAll(WithCluster(n0, p), n, Elements(p.cluster), p.rate)
    ensures Noted(effective, picks + [p], n)
  {
    PickedOneMore(picks, p);
    hide Gone, RateOf, ClustersOf, Elements, Noted, NotedAll, Root;
    NotedParts(effective, picks, n0);
    forall x | x in effective
      ensures x in n.effective && n.effective[x] == if x in Gone(picks + [p]) then RateOf(picks + [p], x) else effective[x]
      ensures x in n.dirty <==> x in Gone(picks + [p]) && RateOf(picks + [p], x) != effective[x]
    {
      NotedAt(effective, picks, p, n0, n, x);
    }
    NotedWhole(effective, picks + [p], p, n0, n);
  }

  lemma NotedParts(effective: map<Id, real>, picks: seq<Pick>, n: Notes)
    requires Noted(effective, picks, n)
    ensures n.effective.Keys == effective.Keys && n.dirty <= effective.Keys && n.clusters == ClustersOf(picks)
  {
    hide Gone, RateOf, ClustersOf;
  }

  lemma NotedAt(effective: map<Id, real>, picks: seq<Pick>, p: Pick, n0: Notes, n: Notes, x: Id)
    requires p.cluster != [] && Elements(p.cluster) !! Gone(picks) && Noted(effective, picks, n0) && x in effective
    requires NotedAll(WithCluster(n0, p), n, Elements(p.cluster), p.rate)
    ensures x in n.effective && (x in Elements(p.cluster) ==> n.effective[x] == p.rate && (x in n.dirty <==> p.rate != effective[x]))
    ensures x !in Elements(p.cluster) ==> n.effective[x] == (if x in Gone(picks) then RateOf(picks, x) else effective[x])
    ensures x !in Elements(p.cluster) ==> (x in n.dirty <==> x in Gone(picks) && RateOf(picks, x) != effective[x])
  {
    hide Gone, RateOf, ClustersOf, Elements;
  }

  lemma NotedWhole(effective: map<Id, real>, picks: seq<Pick>, p: Pick, n0: Notes, n: Notes)
    requires p.cluster != [] && NotedAll(WithCluster(n0, p), n, Elements(p.cluster), p.rate)
    requires n0.effective.Keys == effective.Keys && n0.dirty <= effective.Keys && WithCluster(n0, p).clusters == ClustersOf(picks)
    requires forall x :: x in effective ==>
      x in n.effective && n.effective[x] == (if x in Gone(picks) then RateOf(picks, x) else effective[x])
      && (x in n.dirty <==> x in Gone(picks) && RateOf(picks, x) != effective[x])
    ensures Noted(effective, picks, n)
  {
    hide Gone, RateOf, ClustersOf, Elements, Root;
    var dirty := set x | x in effective && x in Gone(picks) && RateOf(picks, x) != effective[x];
    forall x ensures x in n.dirty <==> x in dirty {
      assert x in n.dirty ==> x in effective;
    }
    assert n.dirty == dirty;
  }

  /** Only packages of two or more transactions are reported as clusters. */
  function WithCluster(n: Notes, p: Pick): Notes
    requires p.cluster != []
  {
    if |p.cluster| > 1 then n.(clusters := n.clusters[Root(p) := p.cluster]) else n
  }

  // ---------- retiring a package ----------

  method RetireOne(pool: AuditPool, used: seq<Id>, i: nat, rate: real, l: Lists, ghost gone: set<Id>, ghost taken: set<Id>, ghost c0: Caches,
                   ghost h: Held)
    returns (l': Lists)
    requires Dag(pool.graph, pool.anc) && FullyLinked(pool.anc, pool.children)
    requires i < |used| && Distinct(used) && Elements(used) <= pool.graph.Keys && Elements(used) !! gone
    requires Retiring(pool.graph, pool.anc, pool.unit, gone, rate, c0, pool.View(), Elements(used[..i]))
    requires pool.dependencyRate.Keys == pool.graph.Keys
    requires Waiting(pool.graph, pool.totals, taken, pool.modified, pool.queued, l, h)
    modifies pool`ancestorMap, pool`totals, pool`dependencyRate, pool`modified, pool`queued
    ensures Retiring(pool.graph, pool.anc, pool.unit, gone, rate, c0, pool.View(), Elements(used[..i + 1]))
    ensures pool.dependencyRate.Keys == pool.graph.Keys
    ensures l' == l.(heap := l'.heap)
    ensures Waiting(pool.graph, pool.totals, taken, pool.modified, pool.queued, l', PushedFrom(h, Dependents(pool.anc, used[i])))
  {
    ghost var g, anc, unit, c := pool.graph, pool.anc, pool.unit, pool.View();
    ghost var retired := Elements(used[..i]);
    hide *;
    ElementsAt(used, i);
    RetiringParts(g, anc, unit, gone, rate, c0, c, retired);
    var pushed := pool.UpdateDescendants(used[i], rate, true, gone + retired);
    l' := l.(heap := l.heap + pushed);
    Pushed(g, anc, unit, c, pool.View(), gone + retired, used[i], taken, l, h, pushed);
    RetiredOneMore(g, anc, unit, gone, rate, c0, c, pool.View(), retired, used[i]);
  }

  lemma RetiringParts(g: Graph, anc: Links, unit: nat, gone: set<Id>, rate: real, c0: Caches, c: Caches, retired: set<Id>)
    requires Retiring(g, anc, unit, gone, rate, c0, c, retired)
    ensures Consistent(g, anc, unit, c.ancestorMap, c.totals, gone + retired)
  {
  }

  method Retire(pool: AuditPool, used: seq<Id>, rate: real, l: Lists, ghost gone: set<Id>, ghost taken: set<Id>, ghost h: Held)
    returns (l': Lists)
    requires Dag(pool.graph, pool.anc) && FullyLinked(pool.anc, pool.children)
    requires Consistent(pool.graph, pool.anc, pool.unit, pool.ancestorMap, pool.totals, gone)
    requires pool.dependencyRate.Keys == pool.graph.Keys
    requires Distinct(used) && Elements(used) <= pool.graph.Keys && Elements(used) !! gone
    requires Waiting(pool.graph, pool.totals, taken, pool.modified, pool.queued, l, h)
    modifies pool`ancestorMap, pool`totals, pool`dependencyRate, pool`modified, pool`queued
    ensures Retiring(pool.graph, pool.anc, pool.unit, gone, rate, old(pool.View()), pool.View(), Elements(used))
    ensures l' == l.(heap := l'.heap)
    ensures Waiting(pool.graph, pool.totals, taken, pool.modified, pool.queued, l', PushedFrom(h, DependentsOfAny(pool.anc, Elements(used))))
  {
    hide *;
    ghost var g, anc, unit, c0 := pool.graph, pool.anc, pool.unit, pool.View();
    l' := l;
    RetiringStarts(g, anc, unit, gone, rate, c0);
    NonePushed(g, pool.totals, taken, pool.modified, pool.queued, l, h, anc, used);
    for i := 0 to |used|
      invariant Retiring(g, anc, unit, gone, rate, c0, pool.View(), Elements(used[..i]))
      invariant pool.dependencyRate.Keys == g.Keys
      invariant l' == l.(heap := l'.heap)
      invariant Waiting(g, pool.totals, taken, pool.modified, pool.queued, l', PushedFrom(h, DependentsOfAny(anc, Elements(used[..i]))))
    {
      l' := RetireOne(pool, used, i, rate, l', gone, taken, c0, PushedFrom(h, DependentsOfAny(anc, Elements(used[..i]))));
      MorePushed(anc, used, i, h);
    }
    assert used[..|used|] == used;
  }

  lemma NonePushed(g: Graph, totals: map<Id, Totals>, taken: set<Id>, modified: set<Id>, queued: set<Id>, l: Lists, h: Held, anc: Links, used: seq<Id>)
    requires Waiting(g, totals, taken, modified, queued, l, h)
    ensures Elements(used[..0]) == {} && Waiting(g, totals, taken, modified, queued, l, PushedFrom(h, DependentsOfAny(anc, {})))
  {
    assert DependentsOfAny(anc, {}) == {};
    assert h.aside - {} == h.aside && h.aside * {} == {} && h.doubled + {} == h.doubled && h.twins !! {};
    hide Sound, Prompt, Descending, Tidy, Single, AboveHeap, Rest;
  }

  lemma MorePushed(anc: Links, used: seq<Id>, i: nat, h: Held)
    requires i < |used| && Distinct(used)
    ensures PushedFrom(PushedFrom(h, DependentsOfAny(anc, Elements(used[..i]))), Dependents(anc, used[i]))
         == PushedFrom(h, DependentsOfAny(anc, Elements(used[..i + 1])))
  {
    ElementsAt(used, i);
    DependentsOneMore(anc, Elements(used[..i]), used[i]);
    hide DependentsOfAny, Dependents, Elements;
    PushedTwice(h, DependentsOfAny(anc, Elements(used[..i])), Dependents(anc, used[i]));
  }

  lemma PushedTwice(h: Held, d: set<Id>, e: set<Id>)
    ensures PushedFrom(PushedFrom(h, d), e) == PushedFrom(h, d + e)
  {
    assert h.aside - d - e == h.aside - (d + e);
    assert h.doubled + h.aside * d + (h.aside - d) * e == h.doubled + h.aside * (d + e);
    assert (h.twins !! d && h.twins !! e) <==> h.twins !! (d + e);
  }

  // ---------- the blocks ----------

  /** The picks of all closed blocks, in order. */
  ghost function Flat(closed: seq<seq<Pick>>): seq<Pick> {
    if closed == [] then [] else Flat(closed[..|closed| - 1]) + closed[|closed| - 1]
  }

  ghost predicate SigopsBounded(g: Graph, picks: seq<Pick>) {
    forall k :: 0 <= k < |picks| ==> Total(Sigops(g), Elements(picks[k].cluster)) <= SIGOP_LIMIT
  }

  /** A closed block stays strictly below the weight limit, and each of its packages within the sigop limit. */
  ghost predicate ClosedBlock(g: Graph, limit: int, block: seq<Id>, picks: seq<Pick>) {
    && picks != [] && block == EmittedIds(picks)
    && BASE_WEIGHT + Total(Weights(g), Gone(picks)) < limit && SigopsBounded(g, picks)
  }

  ghost predicate BlocksKept(g: Graph, limit: int, blocks: seq<seq<Id>>, closed: seq<seq<Pick>>) {
    && |blocks| == |closed| <= BOUNDED_BLOCKS
    && forall i :: 0 <= i < |closed| ==> ClosedBlock(g, limit, blocks[i], closed[i])
  }

  ghost predicate OpenBlock(g: Graph, limit: int, bounded: bool, b: Block, current: seq<Pick>) {
    && b.transactions == EmittedIds(current) && b.weight == BASE_WEIGHT + Total(Weights(g), Gone(current))
    && (bounded && current != [] ==> b.weight < limit && SigopsBounded(g, current))
  }

  lemma {:induction false} GoneAppend(picks: seq<Pick>, more: seq<Pick>)
    ensures Gone(picks + more) == Gone(picks) + Gone(more)
    ensures EmittedIds(picks + more) == EmittedIds(picks) + EmittedIds(more)
  {
    if more == [] {
      assert picks + more == picks;
    } else {
      var n := |more| - 1;
      GoneAppend(picks, more[..n]);
      assert (picks + more)[..|picks| + n] == picks + more[..n];
      assert EmittedIds(picks) + (EmittedIds(more[..n]) + Popping(more[n], |more[n].cluster|))
          == EmittedIds(picks) + EmittedIds(more[..n]) + Popping(more[n], |more[n].cluster|);
    }
  }

  // ---------- taking or holding back a package ----------

  /** The worker's results so far: closed blocks, the open block, the notes. */
  datatype Results = Results(blocks: seq<seq<Id>>, open: Block, notes: Notes)

  /** The same results as picks, those of the closed blocks and those of the open one, and the events that led
      to them. */
  datatype Trace = Trace(closed: seq<seq<Pick>>, current: seq<Pick>, events: seq<Event>)

  ghost function All(t: Trace): seq<Pick> {
    Flat(t.closed) + t.current
  }

  ghost function Take(t: Trace, p: Pick): (t': Trace)
    ensures t'.closed == t.closed
  {
    t.(current := t.current + [p], events := t.events + [Took(p)])
  }

  ghost function Refuse(t: Trace, x: Id): (t': Trace)
    ensures t'.closed == t.closed && t'.current == t.current && All(t') == All(t)
  {
    t.(events := t.events + [Refused(x)])
  }

  ghost function Close(t: Trace): Trace {
    Trace(t.closed + [t.current], [], t.events + [Shut])
  }

  ghost predicate Recorded(t: Trace) {
    PicksOf(t.events) == All(t) && CurrentOf(t.events) == t.current && Shuts(t.events) == |t.closed|
  }

  ghost predicate Log(g: Graph, anc: Links, unit: nat, limit: int, t: Trace) {
    Recorded(t) && Fair(g, anc, unit, limit, t.events)
  }

  lemma LogTook(g: Graph, anc: Links, unit: nat, limit: int, t: Trace, p: Pick)
    requires Log(g, anc, unit, limit, t) && p.cluster != [] && Looked(g, anc, unit, limit, t.events, Root(p), true)
    ensures Log(g, anc, unit, limit, Take(t, p))
  {
    hide Fair, Looked, PicksOf, CurrentOf, Shuts, Flat;
    TookOneMore(anc, t.events, p);
    AllTaken(t, p);
    FairExtended(g, anc, unit, limit, t.events, Took(p));
  }

  lemma LogRefused(g: Graph, anc: Links, unit: nat, limit: int, t: Trace, x: Id)
    requires Log(g, anc, unit, limit, t) && Looked(g, anc, unit, limit, t.events, x, false)
    ensures Log(g, anc, unit, limit, Refuse(t, x))
  {
    hide Fair, Looked, PicksOf, CurrentOf, Shuts, Flat;
    RefusedOneMore(anc, t.events, x);
    FairExtended(g, anc, unit, limit, t.events, Refused(x));
  }

  lemma LogShut(g: Graph, anc: Links, unit: nat, limit: int, t: Trace)
    requires Log(g, anc, unit, limit, t) && All(Close(t)) == All(t) && t.current != [] && Bounded(t)
    requires Exceeded(g, limit, t.events) || NobodyWaits(g, anc, t.events)
    ensures Log(g, anc, unit, limit, Close(t))
  {
    hide Fair, PicksOf, CurrentOf, Shuts, Flat, Exceeded, NobodyWaits;
    ShutOneMore(anc, t.events);
    FairExtended(g, anc, unit, limit, t.events, Shut);
  }

  ghost predicate Bounded(t: Trace) {
    |t.closed| < BOUNDED_BLOCKS
  }

  lemma TraceEvents(t: Trace, p: Pick, x: Id)
    ensures Take(t, p).events == t.events + [Took(p)] && Refuse(t, x).events == t.events + [Refused(x)] && Close(t).events == t.events + [Shut]
  {
  }

  ghost function HeldBy(anc: Links, events: seq<Event>): Held {
    Held(Aside(anc, events), OverflowOf(events), Lead(events), Calm(anc, events), Doubled(anc, events), Twins(anc, events))
  }

  lemma HeldNext(anc: Links, events: seq<Event>, p: Pick, x: Id)
    ensures HeldBy(anc, events + [Took(p)]) == PushedFrom(HeldBy(anc, events), DependentsOfAny(anc, Elements(p.cluster)))
    ensures HeldBy(anc, events + [Refused(x)]) == SetBy(HeldBy(anc, events), x)
    ensures HeldBy(anc, events + [Shut]) == Reopened(HeldBy(anc, events))
  {
    hide Aside, Lead, Calm, Doubled, Twins, OverflowOf;
    TookOneMore(anc, events, p);
    RefusedOneMore(anc, events, x);
    ShutOneMore(anc, events);
  }

  lemma HeldParts(anc: Links, events: seq<Event>)
    ensures var h := HeldBy(anc, events);
      && h.aside == Aside(anc, events) && h.lead == Lead(events) && h.calm == Calm(anc, events) && h.back == OverflowOf(events)
      && h.twins == Twins(anc, events)
  {
  }

  /** The lists of a pool out of which "gone" has been taken, after the events of "t". */
  ghost predicate Lined(pool: AuditPool, gone: set<Id>, t: Trace, l: Lists)
    reads pool
  {
    Waiting(pool.graph, pool.totals, gone, pool.modified, pool.queued, l, HeldBy(pool.anc, t.events))
  }

  lemma IsLined(pool: AuditPool, gone: set<Id>, t: Trace, l: Lists)
    ensures Lined(pool, gone, t, l) <==>
      Waiting(pool.graph, pool.totals, gone, pool.modified, pool.queued, l, HeldBy(pool.anc, t.events))
  {
  }

  ghost predicate Ledger(g: Graph, limit: int, effective: map<Id, real>, r: Results, t: Trace, overflow: seq<Id>) {
    && BlocksKept(g, limit, r.blocks, t.closed)
    && OpenBlock(g, limit, Bounded(t), r.open, t.current)
    && Noted(effective, All(t), r.notes)
    && (!Bounded(t) ==> overflow == [])
  }

  /** What the main loop keeps, apart from its waiting lists. */
  ghost predicate Going(pool: AuditPool, limit: int, effective: map<Id, real>, r: Results, t: Trace, overflow: seq<Id>)
    reads pool
  {
    var g, anc := pool.graph, pool.anc;
    && Dag(g, anc) && FullyLinked(anc, pool.children) && WeighsItsSize(g)
    && Settled(g, anc, pool.unit, map[], All(t), pool.View())
    && pool.used == Gone(All(t)) && Gone(All(t)) <= g.Keys
    && Ledger(g, limit, effective, r, t, overflow) && Log(g, anc, pool.unit, limit, t)
  }

  lemma GoingParts(pool: AuditPool, limit: int, effective: map<Id, real>, r: Results, t: Trace, overflow: seq<Id>)
    requires Going(pool, limit, effective, r, t, overflow)
    ensures Dag(pool.graph, pool.anc) && FullyLinked(pool.anc, pool.children) && WeighsItsSize(pool.graph)
    ensures Settled(pool.graph, pool.anc, pool.unit, map[], All(t), pool.View())
    ensures pool.used == Gone(All(t)) && Gone(All(t)) <= pool.graph.Keys && pool.totals.Keys == pool.graph.Keys
    ensures Ledger(pool.graph, limit, effective, r, t, overflow)
    ensures |r.blocks| == |t.closed| <= BOUNDED_BLOCKS && Log(pool.graph, pool.anc, pool.unit, limit, t)
    ensures pool.dependencyRate.Keys == pool.graph.Keys
  {
    hide Log, All, Gone, ValidPicks, OpenBlock, Noted;
  }

  lemma Resumed(pool: AuditPool, limit: int, effective: map<Id, real>, r: Results, t: Trace, overflow: seq<Id>)
    requires Dag(pool.graph, pool.anc) && FullyLinked(pool.anc, pool.children) && WeighsItsSize(pool.graph)
    requires Settled(pool.graph, pool.anc, pool.unit, map[], All(t), pool.View())
    requires pool.used == Gone(All(t)) && Gone(All(t)) <= pool.graph.Keys
    requires Ledger(pool.graph, limit, effective, r, t, overflow)
    requires Log(pool.graph, pool.anc, pool.unit, limit, t)
    ensures Going(pool, limit, effective, r, t, overflow)
  {
  }

  lemma AllTaken(t: Trace, p: Pick)
    ensures All(Take(t, p)) == All(t) + [p]
    ensures Gone(All(t)) == Gone(Flat(t.closed)) + Gone(t.current)
  {
    GoneAppend(Flat(t.closed), t.current);
  }

  lemma {:induction false} OpenBlockGrown(g: Graph, anc: Links, unit: nat, limit: int, r: Results, t: Trace, p: Pick, root: Id, tot: Totals, b: Block)
    requires Dag(g, anc) && WeighsItsSize(g) && OpenBlock(g, limit, Bounded(t), r.open, t.current) && |r.blocks| == |t.closed|
    requires Elements(p.cluster) == Package(anc, root, Gone(All(t))) && Elements(p.cluster) !! Gone(All(t))
    requires tot == FreshTotals(g, anc, unit, root, Gone(All(t))) && Fits(limit, |r.blocks|, r.open.weight, tot)
    requires b.transactions == r.open.transactions + Popping(p, |p.cluster|)
    requires b.weight == r.open.weight + Total(Weights(g), Elements(p.cluster))
    ensures OpenBlock(g, limit, Bounded(t), b, t.current + [p])
  {
    hide Total, Dag, WeighsItsSize, Popping, Gone, EmittedIds, Elements, All, Flat, SigopsBounded, Package;
    AllTaken(t, p);
    var s := Elements(p.cluster);
    SizeIsWeight(g, s);
    TotalUnion(Weights(g), Gone(t.current), s);
    OneMorePick(t.current, p);
    if Bounded(t) { SigopsGrown(g, t.current, p); }
  }

  lemma OneMorePick(current: seq<Pick>, p: Pick)
    ensures Gone(current + [p]) == Gone(current) + Elements(p.cluster)
    ensures EmittedIds(current + [p]) == EmittedIds(current) + Popping(p, |p.cluster|)
  {
    assert (current + [p])[..|current|] == current;
    hide Popping, Elements;
  }

  lemma SigopsGrown(g: Graph, current: seq<Pick>, p: Pick)
    requires current == [] || SigopsBounded(g, current)
    ensures Total(Sigops(g), Elements(p.cluster)) <= SIGOP_LIMIT ==> SigopsBounded(g, current + [p])
  {
    hide Total, Elements;
  }

  /** The bookkeeping of a package taken. */
  lemma Booked(g: Graph, anc: Links, unit: nat, limit: int, effective: map<Id, real>, r: Results, t: Trace, overflow: seq<Id>,
               p: Pick, tot: Totals, b: Block, n: Notes)
    requires Dag(g, anc) && WeighsItsSize(g) && Ledger(g, limit, effective, r, t, overflow)
    requires ValidPick(g, anc, unit, map[], All(t), p) && ValidPicks(g, anc, unit, map[], All(t))
    requires tot == FreshTotals(g, anc, unit, Root(p), Gone(All(t))) && Fits(limit, |r.blocks|, r.open.weight, tot)
    requires AfterPops(g, r.open, WithCluster(r.notes, p), b, n, p, |p.cluster|)
    ensures Ledger(g, limit, effective, Results(r.blocks, b, n), Take(t, p), overflow)
    ensures Gone(All(Take(t, p))) == Gone(All(t)) + Elements(p.cluster)
  {
    AllTaken(t, p);
    PickInPool(g, anc, unit, map[], All(t), p);
    PoppedAll(g, r.open, WithCluster(r.notes, p), b, n, p);
    PickedOneMore(All(t), p);
    OpenBlockGrown(g, anc, unit, limit, r, t, p, Root(p), tot, b);
    NotedPackage(effective, All(t), p, r.notes, n);
  }

  /** The package of "next" enters the open block. */
  method EnterBlock(pool: AuditPool, next: Id, limit: int, r: Results, ghost effective: map<Id, real>, ghost t: Trace, ghost overflow: seq<Id>)
    returns (r': Results, used: seq<Id>, p: Pick)
    requires Going(pool, limit, effective, r, t, overflow)
    requires next in pool.totals && next !in Gone(All(t)) && Fits(limit, |r.blocks|, r.open.weight, pool.totals[next])
    modifies pool`used
    ensures ValidPick(pool.graph, pool.anc, pool.unit, map[], All(t), p)
    ensures p.cluster != [] && Root(p) == next
    ensures next in Elements(p.cluster) && Elements(p.cluster) <= pool.graph.Keys && Elements(p.cluster) !! Gone(All(t))
    ensures Distinct(used) && Elements(used) == Elements(p.cluster)
    ensures pool.used == Gone(All(Take(t, p))) == Gone(All(t)) + Elements(p.cluster)
    ensures Ledger(pool.graph, limit, effective, r', Take(t, p), overflow)
    ensures r'.blocks == r.blocks
  {
    hide *;
    ghost var g, anc, unit := pool.graph, pool.anc, pool.unit;
    GoingParts(pool, limit, effective, r, t, overflow);
    RootTotals(g, anc, unit, map[], All(t), pool.View(), next);
    ghost var tot := pool.totals[next];
    p := Assemble(pool, next, map[], All(t));
    PickInPool(g, anc, unit, map[], All(t), p);
    var b, n;
    b, n, used := TakeIntoBlock(pool, p, r.open, WithCluster(r.notes, p));
    PoppedAll(g, r.open, WithCluster(r.notes, p), b, n, p);
    Booked(g, anc, unit, limit, effective, r, t, overflow, p, tot, b, n);
    r' := Results(r.blocks, b, n);
  }

  /** The package just taken leaves the pool. */
  method LeavePool(pool: AuditPool, p: Pick, used: seq<Id>, l: Lists, ghost t: Trace)
    returns (l': Lists)
    requires Dag(pool.graph, pool.anc) && FullyLinked(pool.anc, pool.children)
    requires Settled(pool.graph, pool.anc, pool.unit, map[], All(t), pool.View())
    requires ValidPick(pool.graph, pool.anc, pool.unit, map[], All(t), p)
    requires Distinct(used) && Elements(used) == Elements(p.cluster) <= pool.graph.Keys && Elements(p.cluster) !! Gone(All(t))
    requires Lined(pool, Gone(All(Take(t, p))), t, l)
    modifies pool`ancestorMap, pool`totals, pool`dependencyRate, pool`modified, pool`queued
    ensures Settled(pool.graph, pool.anc, pool.unit, map[], All(Take(t, p)), pool.View())
    ensures Lined(pool, Gone(All(Take(t, p))), Take(t, p), l') && l' == l.(heap := l'.heap)
  {
    hide *;
    ghost var g, anc, unit, gone, c0 := pool.graph, pool.anc, pool.unit, Gone(All(t)), pool.View();
    IsLined(pool, Gone(All(Take(t, p))), t, l);
    SettledCaches(g, anc, unit, map[], All(t), c0);
    l' := Retire(pool, used, p.rate, l, gone, Gone(All(Take(t, p))), HeldBy(anc, t.events));
    PackageRetired(g, anc, unit, map[], All(t), p, c0, pool.View());
    AllTaken(t, p);
    HeldNext(anc, t.events, p, 0);
    TraceEvents(t, p, 0);
    IsLined(pool, Gone(All(Take(t, p))), Take(t, p), l');
  }

  method Accept(pool: AuditPool, next: Id, limit: int, l: Lists, r: Results, ghost effective: map<Id, real>, ghost t: Trace)
    returns (l': Lists, r': Results, ghost t': Trace)
    requires Going(pool, limit, effective, r, t, l.overflow)
    requires next in pool.totals && next !in Gone(All(t)) && Fits(limit, |r.blocks|, r.open.weight, pool.totals[next])
    requires Looked(pool.graph, pool.anc, pool.unit, limit, t.events, next, true)
    requires Lined(pool, Gone(All(t)) + {next}, t, l)
    modifies pool`ancestorMap, pool`totals, pool`dependencyRate, pool`modified, pool`queued, pool`used
    ensures Going(pool, limit, effective, r', t', l'.overflow)
    ensures Lined(pool, Gone(All(t')), t', l') && l' == l.(heap := l'.heap)
    ensures Gone(All(t)) < Gone(All(t')) <= pool.graph.Keys && r'.blocks == r.blocks && t'.closed == t.closed && Failures(t'.events) == 0
    ensures !JustShut(t'.events)
  {
    hide *;
    GoingParts(pool, limit, effective, r, t, l.overflow);
    IsLined(pool, Gone(All(t)) + {next}, t, l);
    var used, p;
    r', used, p := EnterBlock(pool, next, limit, r, effective, t, l.overflow);
    t' := Take(t, p);
    LogTook(pool.graph, pool.anc, pool.unit, limit, t, p);
    WaitingForFewer(pool.graph, pool.totals, Gone(All(t)) + {next}, pool.modified, pool.queued, l, HeldBy(pool.anc, t.events),
                    Gone(All(t')));
    IsLined(pool, Gone(All(t')), t, l);
    l' := LeavePool(pool, p, used, l, t);
    TookOneMore(pool.anc, t.events, p);
    NotJustShut(t.events, Took(p));
    TraceEvents(t, p, 0);
    Resumed(pool, limit, effective, r', t', l'.overflow);
  }

  lemma OverflowGrown(g: Graph, limit: int, effective: map<Id, real>, r: Results, t: Trace, overflow: seq<Id>, next: Id, tot: Totals)
    requires Ledger(g, limit, effective, r, t, overflow) && !Fits(limit, |r.blocks|, r.open.weight, tot)
    ensures Ledger(g, limit, effective, r, Refuse(t, next), overflow + [next])
  {
    hide Noted, ClosedBlock, SigopsBounded, All, EmittedIds;
  }

  /** The package does not fit: its root is held in the overflow list. */
  lemma HeldBack(pool: AuditPool, next: Id, limit: int, l: Lists, r: Results, effective: map<Id, real>, t: Trace)
    requires Going(pool, limit, effective, r, t, l.overflow)
    requires next in pool.totals && next !in Gone(All(t)) && !Fits(limit, |r.blocks|, r.open.weight, pool.totals[next])
    requires Looked(pool.graph, pool.anc, pool.unit, limit, t.events, next, false)
    requires Lined(pool, Gone(All(t)) + {next}, t, l)
    requires TakenOff(pool.graph, pool.totals, pool.modified, l, next, HeldBy(pool.anc, t.events))
    ensures Going(pool, limit, effective, r, Refuse(t, next), l.overflow + [next])
    ensures Lined(pool, Gone(All(t)), Refuse(t, next), l.(overflow := l.overflow + [next]))
    ensures Failures(Refuse(t, next).events) == Failures(t.events) + 1 && !JustShut(Refuse(t, next).events)
  {
    hide *;
    GoingParts(pool, limit, effective, r, t, l.overflow);
    RootTotals(pool.graph, pool.anc, pool.unit, map[], All(t), pool.View(), next);
    OverflowGrown(pool.graph, limit, effective, r, t, l.overflow, next, pool.totals[next]);
    LogRefused(pool.graph, pool.anc, pool.unit, limit, t, next);
    Resumed(pool, limit, effective, r, Refuse(t, next), l.overflow + [next]);
    IsLined(pool, Gone(All(t)) + {next}, t, l);
    SetAside(pool.graph, pool.totals, Gone(All(t)), pool.modified, pool.queued, l, HeldBy(pool.anc, t.events), next);
    RefusedOneMore(pool.anc, t.events, next);
    HeldNext(pool.anc, t.events, Pick([], 0.0), next);
    NotJustShut(t.events, Refused(next));
    TraceEvents(t, Pick([], 0.0), next);
    IsLined(pool, Gone(All(t)), Refuse(t, next), l.(overflow := l.overflow + [next]));
  }

  /** The choice is a fair one: the root had not been taken, and the test of its package decides. */
  lemma ChoiceIsFair(pool: AuditPool, limit: int, effective: map<Id, real>, r: Results, t: Trace, overflow: seq<Id>, next: Id)
    requires Going(pool, limit, effective, r, t, overflow) && next in pool.graph && next in pool.totals && next !in Gone(All(t))
    requires MayGo(pool.graph, limit, t.events)
    requires var h := HeldBy(pool.anc, t.events);
      h.calm ==> (next !in h.aside || next in h.twins) && Best(pool.graph, pool.totals, Gone(All(t)), h.aside, next)
    ensures Looked(pool.graph, pool.anc, pool.unit, limit, t.events, next, Fits(limit, |r.blocks|, r.open.weight, pool.totals[next]))
  {
    hide *;
    var g, anc, unit := pool.graph, pool.anc, pool.unit;
    GoingParts(pool, limit, effective, r, t, overflow);
    OpenWeight(g, anc, unit, limit, effective, r, t, overflow);
    RecordedParts(g, anc, unit, limit, t);
    RootTotals(g, anc, unit, map[], All(t), pool.View(), next);
    HeldParts(anc, t.events);
    if Calm(anc, t.events) {
      BestByTotals(g, anc, unit, pool.ancestorMap, pool.totals, Gone(All(t)), Aside(anc, t.events), next);
    }
    IsLooked(g, anc, unit, limit, t.events, next, Fits(limit, |r.blocks|, r.open.weight, pool.totals[next]), All(t), t.current, |t.closed|,
             r.open.weight, pool.totals[next]);
  }

  lemma OpenWeight(g: Graph, anc: Links, unit: nat, limit: int, effective: map<Id, real>, r: Results, t: Trace, overflow: seq<Id>)
    requires Ledger(g, limit, effective, r, t, overflow)
    ensures r.open.weight == BASE_WEIGHT + Total(Weights(g), Gone(t.current))
  {
    hide BlocksKept, Noted;
  }

  lemma RecordedParts(g: Graph, anc: Links, unit: nat, limit: int, t: Trace)
    requires Log(g, anc, unit, limit, t)
    ensures PicksOf(t.events) == All(t) && CurrentOf(t.events) == t.current && Shuts(t.events) == |t.closed| && Fair(g, anc, unit, limit, t.events)
  {
    hide Fair, All, PicksOf, CurrentOf, Shuts;
  }

  lemma IsLooked(g: Graph, anc: Links, unit: nat, limit: int, before: seq<Event>, root: Id, took: bool, picks: seq<Pick>, current: seq<Pick>,
                 shuts: nat, weight: int, t: Totals)
    requires picks == PicksOf(before) && current == CurrentOf(before) && shuts == Shuts(before)
    requires weight == BASE_WEIGHT + Total(Weights(g), Gone(current)) && t == FreshTotals(g, anc, unit, root, Gone(picks))
    requires root in g && root !in Gone(picks) && (took <==> Fits(limit, shuts, weight, t)) && MayGo(g, limit, before)
    requires Calm(anc, before) ==> root !in Aside(anc, before) || root in Twins(anc, before)
    requires Calm(anc, before) ==> BestOf(g, anc, unit, Gone(picks), Aside(anc, before), root)
    ensures Looked(g, anc, unit, limit, before, root, took)
  {
    hide PicksOf, CurrentOf, Shuts, Gone, Total, FreshTotals, MayGo, Calm, Aside, Twins, BestOf;
  }

  /** Takes the package of the selected transaction, or holds it back. */
  method Consider(pool: AuditPool, next: Id, limit: int, l: Lists, r: Results, failures: nat, ghost effective: map<Id, real>, ghost t: Trace)
    returns (l': Lists, r': Results, failures': nat, ghost t': Trace)
    requires Going(pool, limit, effective, r, t, l.overflow) && next in pool.graph
    requires failures == Failures(t.events) && MayGo(pool.graph, limit, t.events)
    requires Lined(pool, Gone(All(t)) + {next}, t, l)
    requires TakenOff(pool.graph, pool.totals, pool.modified, l, next, HeldBy(pool.anc, t.events))
    requires var h := HeldBy(pool.anc, t.events); h.calm ==> Best(pool.graph, pool.totals, Gone(All(t)), h.aside, next)
    modifies pool`ancestorMap, pool`totals, pool`dependencyRate, pool`modified, pool`queued, pool`used
    ensures Going(pool, limit, effective, r', t', l'.overflow) && r'.blocks == r.blocks && failures' == Failures(t'.events)
    ensures Lined(pool, Gone(All(t')), t', l')
    ensures t'.closed == t.closed
    ensures (All(t') == All(t) && Unread(l') == Unread(l)) || Gone(All(t)) < Gone(All(t')) <= pool.graph.Keys
    ensures if next in Gone(All(t)) then t' == t else !JustShut(t'.events)
  {
    hide *;
    GoingParts(pool, limit, effective, r, t, l.overflow);
    l', r', failures', t' := l, r, failures, t;
    if next !in pool.used {
      TakenOffParts(pool.graph, pool.totals, pool.modified, l, next, HeldBy(pool.anc, t.events));
      ChoiceIsFair(pool, limit, effective, r, t, l.overflow, next);
      if Fits(limit, |r.blocks|, r.open.weight, pool.totals[next]) {
        l', r', t' := Accept(pool, next, limit, l, r, effective, t);
        failures' := 0;
      } else {
        HeldBack(pool, next, limit, l, r, effective, t);
        l', failures' := l.(overflow := l.overflow + [next]), failures + 1;
        t' := Refuse(t, next);
        UnreadOverflow(l, l.overflow + [next]);
      }
    } else {
      assert Gone(All(t)) + {next} == Gone(All(t));
    }
  }

  method SetQueued(pool: AuditPool, queued: set<Id>, ghost limit: int, ghost r: Results, ghost effective: map<Id, real>, ghost t: Trace,
                   ghost overflow: seq<Id>)
    requires Going(pool, limit, effective, r, t, overflow)
    modifies pool`queued
    ensures Going(pool, limit, effective, r, t, overflow) && pool.queued == queued
  {
    hide Dag, FullyLinked, WeighsItsSize, Ledger, Log, All, Gone, ValidPicks, Consistent;
    assert Settled(pool.graph, pool.anc, pool.unit, map[], All(t), pool.View());
    pool.queued := queued;
    assert Settled(pool.graph, pool.anc, pool.unit, map[], All(t), pool.View());
  }

  /** There was a clean cut, and refusals still count. */
  ghost predicate StillCounting(anc: Links, events: seq<Event>) {
    CleanCut(anc, events) && Failures(events) > 0
  }

  /** Then somebody who was refused before comes first now. */
  ghost predicate LedOnwards(pool: AuditPool, t: Trace, l: Lists)
    reads pool
  {
    StillCounting(pool.anc, t.events) && !QueueEmpty(l) ==> Led(pool.totals, Gone(All(t)), pool.modified, l)
  }

  lemma IsLedOnwards(pool: AuditPool, t: Trace, l: Lists)
    ensures LedOnwards(pool, t, l) <==> (StillCounting(pool.anc, t.events) && !QueueEmpty(l) ==> Led(pool.totals, Gone(All(t)), pool.modified, l))
    ensures StillCounting(pool.anc, t.events) <==> CleanCut(pool.anc, t.events) && Failures(t.events) > 0
    ensures StillCounting(pool.anc, t.events) ==> JustShut(t.events) && Calm(pool.anc, t.events)
  {
  }

  /** One round of the main loop, up to the test for a full block. */
  method Step(pool: AuditPool, limit: int, l: Lists, r: Results, failures: nat, ghost effective: map<Id, real>, ghost t: Trace)
    returns (l': Lists, r': Results, failures': nat, ghost t': Trace)
    requires Going(pool, limit, effective, r, t, l.overflow)
    requires failures == Failures(t.events) && MayGo(pool.graph, limit, t.events)
    requires Lined(pool, Gone(All(t)), t, l) && LedOnwards(pool, t, l)
    requires l.top < |l.arr| || l.heap != []
    modifies pool`ancestorMap, pool`totals, pool`dependencyRate, pool`modified, pool`queued, pool`used
    ensures Going(pool, limit, effective, r', t', l'.overflow) && r'.blocks == r.blocks && failures' == Failures(t'.events)
    ensures Lined(pool, Gone(All(t')), t', l')
    ensures t'.closed == t.closed
    ensures (All(t') == All(t) && Unread(l') < Unread(l)) || Gone(All(t)) < Gone(All(t')) <= pool.graph.Keys
    ensures StillCounting(pool.anc, t'.events) ==> QueueEmpty(l')
  {
    hide *;
    ghost var gone, h := Gone(All(t)), HeldBy(pool.anc, t.events);
    GoingParts(pool, limit, effective, r, t, l.overflow);
    IsLined(pool, gone, t, l);
    var top := SkipInvalid(l, pool.used, pool.modified, pool.graph, pool.totals, pool.queued, h);
    l', r', failures', t' := l.(top := top), r, failures, t;
    UnreadSkipped(l, top);
    IsQueueEmpty(l);
    IsQueueEmpty(l');
    IsLedOnwards(pool, t, l);
    HeldParts(pool.anc, t.events);
    if StillCounting(pool.anc, t.events) { LedSkipped(pool.totals, gone, pool.modified, l, top); }
    var next, queued;
    next, l', queued := SelectNext(l', pool.totals, pool.queued, pool.graph, gone, pool.modified, h);
    if next.Some? {
      SetQueued(pool, queued, limit, r, effective, t, l.overflow);
      IsLined(pool, gone + {next.value}, t, l');
      l', r', failures', t' := Consider(pool, next.value, limit, l', r, failures, effective, t);
      IsLedOnwards(pool, t', l');
    } else {
      IsLined(pool, gone, t, l');
      SkippedToEnd(l, top);
    }
  }

  lemma SkippedToEnd(l: Lists, top: nat)
    requires l.top <= top <= |l.arr| && (l.top < |l.arr| || l.heap != []) && QueueEmpty(l.(top := top))
    ensures Unread(l.(top := top)) < Unread(l)
  {
  }

  // ---------- closing a block ----------

  lemma Closed(g: Graph, limit: int, effective: map<Id, real>, r: Results, t: Trace, overflow: seq<Id>)
    requires Ledger(g, limit, effective, r, t, overflow) && Bounded(t) && t.current != []
    ensures Ledger(g, limit, effective, Results(r.blocks + [r.open.transactions], Block([], BASE_WEIGHT), r.notes), Close(t), [])
    ensures All(Close(t)) == All(t)
  {
    assert (t.closed + [t.current])[..|t.closed|] == t.closed;
    assert All(Close(t)) == All(t);
    hide All, Noted;
    assert ClosedBlock(g, limit, r.open.transactions, t.current);
    hide ClosedBlock;
  }

  /** Constructs the block and starts the next one. */
  method CloseBlock(pool: AuditPool, limit: int, l: Lists, r: Results, ghost effective: map<Id, real>, ghost t: Trace)
    returns (l': Lists, r': Results, ghost t': Trace)
    requires Going(pool, limit, effective, r, t, l.overflow) && Lined(pool, Gone(All(t)), t, l)
    requires Bounded(t) && t.current != [] && (Exceeded(pool.graph, limit, t.events) || NobodyWaits(pool.graph, pool.anc, t.events))
    modifies pool`queued
    ensures Going(pool, limit, effective, r', t', l'.overflow)
    ensures Lined(pool, Gone(All(t')), t', l') && LedOnwards(pool, t', l')
    ensures t' == Close(t) && All(t') == All(t) && l'.overflow == []
    ensures |r'.blocks| == |r.blocks| + 1
  {
    hide *;
    GoingParts(pool, limit, effective, r, t, l.overflow);
    Closed(pool.graph, limit, effective, r, t, l.overflow);
    LogShut(pool.graph, pool.anc, pool.unit, limit, t);
    IsLined(pool, Gone(All(t)), t, l);
    var queued;
    l', queued := Requeue(l, pool.modified, pool.queued, pool.graph, pool.totals, Gone(All(t)), HeldBy(pool.anc, t.events));
    r' := Results(r.blocks + [r.open.transactions], Block([], BASE_WEIGHT), r.notes);
    t' := Close(t);
    HeldNext(pool.anc, t.events, Pick([], 0.0), 0);
    TraceEvents(t, Pick([], 0.0), 0);
    LedByClosing(pool, limit, effective, r, t, l, l');
    Resumed(pool, limit, effective, r', t', l'.overflow);
    SetQueued(pool, queued, limit, r', effective, t', l'.overflow);
    IsLined(pool, Gone(All(t')), t', l');
    IsLedOnwards(pool, t', l');
  }

  lemma LedByClosing(pool: AuditPool, limit: int, effective: map<Id, real>, r: Results, t: Trace, l: Lists, l': Lists)
    requires Going(pool, limit, effective, r, t, l.overflow) && Lined(pool, Gone(All(t)), t, l)
    requires t.current != [] && PutBack(l, pool.modified, l')
    ensures StillCounting(pool.anc, Close(t).events) ==> Led(pool.totals, Gone(All(t)), pool.modified, l')
  {
    var g, anc := pool.graph, pool.anc;
    hide *;
    GoingParts(pool, limit, effective, r, t, l.overflow);
    RecordedParts(g, anc, pool.unit, limit, t);
    TraceEvents(t, Pick([], 0.0), 0);
    ShutOneMore(anc, t.events);
    IsLedOnwards(pool, Close(t), l');
    if StillCounting(anc, Close(t).events) {
      CutParts(anc, t.events);
      LeadInOverflow(t.events);
      HeldParts(anc, t.events);
      IsLined(pool, Gone(All(t)), t, l);
      WaitingParts(g, pool.totals, Gone(All(t)), pool.modified, pool.queued, l, HeldBy(anc, t.events));
      SomeMember(Lead(t.events));
      var c :| c in Lead(t.events);
      Leads(pool.totals, Gone(All(t)), pool.modified, pool.queued, l, HeldBy(anc, t.events), l', c);
    }
  }

  lemma CutParts(anc: Links, before: seq<Event>)
    requires CleanCut(anc, before + [Shut])
    ensures OverflowOf(before) !! Gone(PicksOf(before + [Shut]))
  {
    assert (before + [Shut])[..|before|] == before;
  }

  lemma SomeMember(s: set<Id>)
    requires s != {}
    ensures exists x :: x in s
  {
    NonEmpty(s);
  }

  /** The open block holds transactions exactly when it holds picks. */
  lemma OpenIsEmpty(pool: AuditPool, limit: int, effective: map<Id, real>, r: Results, t: Trace, overflow: seq<Id>)
    requires Going(pool, limit, effective, r, t, overflow)
    ensures r.open.transactions == [] <==> t.current == []
    ensures t.current == [] ==> r.open.weight == BASE_WEIGHT
  {
    assert r.open.transactions == EmittedIds(t.current);
    if t.current != [] {
      var all, n := All(t), |All(t)| - 1;
      assert ValidPick(pool.graph, pool.anc, pool.unit, map[], all[..n], all[n]);
      assert all[n] == t.current[|t.current| - 1];
      EmittedStep(t.current);
      hide *;
      PopsSomething(t.current[|t.current| - 1]);
    }
  }

  lemma PopsSomething(p: Pick)
    requires p.cluster != []
    ensures Popping(p, |p.cluster|) != []
  {
  }

  // ---------- the whole selection ----------

  /** What a run returns: at most eight blocks, each a sequence of packages in emission order, the first
      seven within the limits, with the rates and clusters that the packages were taken at. */
  ghost predicate Selected(g: Graph, anc: Links, limit: int, effective: map<Id, real>, blocks: seq<seq<Id>>, notes: Notes, blockPicks: seq<seq<Pick>>) {
    && |blocks| == |blockPicks| <= BOUNDED_BLOCKS + 1
    && (forall i :: 0 <= i < |blocks| ==> blockPicks[i] != [] && blocks[i] == EmittedIds(blockPicks[i]))
    && (forall i :: 0 <= i < |blocks| && i < BOUNDED_BLOCKS ==> ClosedBlock(g, limit, blocks[i], blockPicks[i]))
    && ValidPicks(g, anc, 4, map[], Flat(blockPicks))
    && Noted(effective, Flat(blockPicks), notes)
  }

  ghost function Concatenated(blocks: seq<seq<Id>>): seq<Id> {
    if blocks == [] then [] else Concatenated(blocks[..|blocks| - 1]) + blocks[|blocks| - 1]
  }

  lemma {:induction false} ConcatenatedIds(blocks: seq<seq<Id>>, blockPicks: seq<seq<Pick>>)
    requires |blocks| == |blockPicks| && forall i :: 0 <= i < |blocks| ==> blocks[i] == EmittedIds(blockPicks[i])
    ensures Concatenated(blocks) == EmittedIds(Flat(blockPicks))
  {
    if blocks != [] {
      var n := |blocks| - 1;
      ConcatenatedIds(blocks[..n], blockPicks[..n]);
      GoneAppend(Flat(blockPicks[..n]), blockPicks[n]);
    }
  }

  lemma SelectedParts(g: Graph, anc: Links, limit: int, effective: map<Id, real>, blocks: seq<seq<Id>>, notes: Notes, blockPicks: seq<seq<Pick>>)
    requires Dag(g, anc) && Selected(g, anc, limit, effective, blocks, notes, blockPicks)
    ensures ValidPicks(g, anc, 4, map[], Flat(blockPicks))
    ensures Concatenated(blocks) == EmittedIds(Flat(blockPicks))
  {
    ConcatenatedIds(blocks, blockPicks);
  }

  /** The blocks never repeat a transaction. If all full packages fit, they partition the mempool under limits up to
      4003 and from 8000 on, and under any limit if no child pays for its parents or the run is calm. */
  lemma Partition(g: Graph, anc: Links, limit: int, effective: map<Id, real>, mempool: seq<CompactTx>, blocks: seq<seq<Id>>, notes: Notes,
                  blockPicks: seq<seq<Pick>>, events: seq<Event>)
    requires g.Keys == Elements(Uids(mempool)) && Distinct(Uids(mempool)) && Run(g, anc, limit, events)
    requires Selected(g, anc, limit, effective, blocks, notes, blockPicks) && PicksOf(events) == Flat(blockPicks)
    ensures Distinct(Concatenated(blocks)) && Elements(Concatenated(blocks)) <= g.Keys
    ensures AllFit(g, anc, limit) && Thorough(g, anc, limit, events) ==> multiset(Concatenated(blocks)) == multiset(Uids(mempool))
  {
    hide *;
    RunParts(g, anc, limit, events);
    SelectedParts(g, anc, limit, effective, blocks, notes, blockPicks);
    EmittedOnce(g, anc, 4, map[], Flat(blockPicks));
    TakenAncestors(g, anc, 4, map[], Flat(blockPicks));
    if AllFit(g, anc, limit) && Thorough(g, anc, limit, events) {
      NobodyLeft(g, anc, limit, events);
      SamePermutation(Concatenated(blocks), Uids(mempool));
    }
  }

  lemma {:induction false} FlatAt(blockPicks: seq<seq<Pick>>, k: nat) returns (i: nat)
    requires k < |Flat(blockPicks)|
    ensures i < |blockPicks| && Flat(blockPicks)[k] in blockPicks[i]
    ensures |Flat(blockPicks[..i])| <= k < |Flat(blockPicks[..i + 1])|
  {
    var n := |blockPicks| - 1;
    if k < |Flat(blockPicks[..n])| {
      i := FlatAt(blockPicks[..n], k);
      assert blockPicks[..n][..i] == blockPicks[..i] && blockPicks[..n][..i + 1] == blockPicks[..i + 1];
    } else {
      i := n;
      assert blockPicks[..n + 1] == blockPicks;
    }
  }

  /** An in-pool ancestor of a transaction in block "i" is in that block or an earlier one. */
  lemma AncestorsNotLater(g: Graph, anc: Links, blockPicks: seq<seq<Pick>>, k: nat, x: Id, a: Id) returns (i: nat, j: nat, ka: nat)
    requires Dag(g, anc) && ValidPicks(g, anc, 4, map[], Flat(blockPicks))
    requires k < |Flat(blockPicks)| && x in Flat(blockPicks)[k].cluster && x in anc && a in anc[x]
    ensures j <= i < |blockPicks| && Flat(blockPicks)[k] in blockPicks[i]
    ensures ka <= k && a in Flat(blockPicks)[ka].cluster && Flat(blockPicks)[ka] in blockPicks[j]
  {
    ka := AncestorsComeFirst(g, anc, 4, map[], Flat(blockPicks), k, x, a);
    hide *;
    i := FlatAt(blockPicks, k);
    j := FlatAt(blockPicks, ka);
    if i < j {
      FlatLength(blockPicks, i + 1, j);
    }
  }

  lemma {:induction false} FlatLength(blockPicks: seq<seq<Pick>>, i: nat, j: nat)
    requires i <= j <= |blockPicks|
    ensures |Flat(blockPicks[..i])| <= |Flat(blockPicks[..j])|
    decreases j
  {
    if i < j {
      assert blockPicks[..j][..j - 1] == blockPicks[..j - 1];
      FlatLength(blockPicks, i, j - 1);
    }
  }

  // ---------- the main loop ----------

  /** With nothing left to read, nothing is held back, and only an unbounded block can still be open. */
  ghost predicate Drained(l: Lists, t: Trace) {
    QueueEmpty(l) ==> l.overflow == [] && (t.current == [] || !Bounded(t))
  }

  /** No transaction has a dependency rate before the first package is taken. */
  function UnsetRates(g: Graph): (r: map<Id, real>)
    ensures r.Keys == g.Keys
  {
    map x | x in g :: 0.0
  }

  lemma Started(pool: AuditPool, limit: int, effective: map<Id, real>, arr: seq<Id>)
    requires Dag(pool.graph, pool.anc) && FullyLinked(pool.anc, pool.children) && WeighsItsSize(pool.graph)
    requires Consistent(pool.graph, pool.anc, pool.unit, pool.ancestorMap, pool.totals, {})
    requires pool.dependencyRate == UnsetRates(pool.graph)
    requires pool.used == pool.modified == pool.queued == {}
    requires Distinct(arr) && Elements(arr) == pool.graph.Keys && Descending(pool.totals, arr, {})
    ensures Going(pool, limit, effective, Results([], Block([], BASE_WEIGHT), Notes(effective, {}, map[])), Trace([], [], []), [])
    ensures Lined(pool, Gone(All(Trace([], [], []))), Trace([], [], []), Lists(arr, 0, [], []))
    ensures Drained(Lists(arr, 0, [], []), Trace([], [], []))
  {
    hide *;
    NothingTaken();
    SettledAtStart(pool.graph, pool.anc, pool.unit, pool.View());
    LedgerAtStart(pool.graph, limit, effective);
    LogAtStart(pool.graph, pool.anc, pool.unit, limit);
    Resumed(pool, limit, effective, Results([], Block([], BASE_WEIGHT), Notes(effective, {}, map[])), Trace([], [], []), []);
    WaitingAtStart(pool.graph, pool.totals, arr);
    IsLined(pool, {}, Trace([], [], []), Lists(arr, 0, [], []));
  }

  lemma LogAtStart(g: Graph, anc: Links, unit: nat, limit: int)
    ensures Log(g, anc, unit, limit, Trace([], [], [])) && HeldBy(anc, []) == Held({}, {}, {}, true, {}, {})
    ensures Failures([]) == 0 && MayGo(g, limit, []) && !StillCounting(anc, [])
  {
  }

  lemma NothingTaken()
    ensures All(Trace([], [], [])) == [] && Gone([]) == {}
    ensures Drained(Lists([], 0, [], []), Trace([], [], [])) && forall arr :: Drained(Lists(arr, 0, [], []), Trace([], [], []))
  {
  }

  lemma SettledAtStart(g: Graph, anc: Links, unit: nat, c: Caches)
    requires Consistent(g, anc, unit, c.ancestorMap, c.totals, {}) && c.dependencyRate == UnsetRates(g)
    ensures Settled(g, anc, unit, map[], [], c)
  {
    hide Consistent;
  }

  lemma LedgerAtStart(g: Graph, limit: int, effective: map<Id, real>)
    ensures Ledger(g, limit, effective, Results([], Block([], BASE_WEIGHT), Notes(effective, {}, map[])), Trace([], [], []), [])
  {
    assert Total(Weights(g), {}) == 0;
    hide Total;
  }

  lemma OverflowDrained(g: Graph, limit: int, effective: map<Id, real>, r: Results, t: Trace, l: Lists)
    requires Ledger(g, limit, effective, r, t, l.overflow) && !Bounded(t)
    ensures Drained(l, t)
  {
    hide BlocksKept, OpenBlock, Noted;
  }

  /** The picks of the returned blocks: those of the closed blocks and, if it is not empty, of the open one. */
  ghost function BlockPicks(t: Trace): seq<seq<Pick>> {
    if t.current == [] then t.closed else t.closed + [t.current]
  }

  lemma FlatBlockPicks(t: Trace)
    ensures Flat(BlockPicks(t)) == All(t)
  {
    assert (t.closed + [t.current])[..|t.closed|] == t.closed;
    assert Flat(t.closed) + [] == Flat(t.closed);
  }

  lemma Finished(pool: AuditPool, limit: int, effective: map<Id, real>, r: Results, t: Trace, overflow: seq<Id>)
    requires Going(pool, limit, effective, r, t, overflow) && pool.unit == 4 && (t.current == [] || !Bounded(t))
    ensures Flat(BlockPicks(t)) == All(t)
    ensures var blocks := if t.current == [] then r.blocks else r.blocks + [r.open.transactions];
      Selected(pool.graph, pool.anc, limit, effective, blocks, r.notes, BlockPicks(t))
  {
    hide *;
    FlatBlockPicks(t);
    GoingParts(pool, limit, effective, r, t, overflow);
    ValidSettled(pool.graph, pool.anc, All(t), pool.View());
    SelectedByLedger(pool.graph, pool.anc, limit, effective, r, t, overflow);
  }

  lemma ValidSettled(g: Graph, anc: Links, picks: seq<Pick>, c: Caches)
    requires Settled(g, anc, 4, map[], picks, c)
    ensures ValidPicks(g, anc, 4, map[], picks)
  {
  }

  lemma SelectedByLedger(g: Graph, anc: Links, limit: int, effective: map<Id, real>, r: Results, t: Trace, overflow: seq<Id>)
    requires Ledger(g, limit, effective, r, t, overflow) && (t.current == [] || !Bounded(t))
    requires ValidPicks(g, anc, 4, map[], All(t)) && Flat(BlockPicks(t)) == All(t)
    ensures var blocks := if t.current == [] then r.blocks else r.blocks + [r.open.transactions];
      Selected(g, anc, limit, effective, blocks, r.notes, BlockPicks(t))
  {
    hide ValidPicks, Gone, Noted, EmittedIds, Flat, All, SigopsBounded, Total;
  }

  ghost predicate Progress(pool: AuditPool, l: Lists, t: Trace, l': Lists, t': Trace) {
    || |t.closed| < |t'.closed| <= BOUNDED_BLOCKS
    || (t'.closed == t.closed && Gone(All(t)) < Gone(All(t')) <= pool.graph.Keys)
    || (t'.closed == t.closed && All(t') == All(t) && Unread(l') < Unread(l))
  }

  lemma ProgressMade(pool: AuditPool, l: Lists, t: Trace, l': Lists, t': Trace)
    requires t'.closed == t.closed
    requires (All(t') == All(t) && Unread(l') < Unread(l)) || Gone(All(t)) < Gone(All(t')) <= pool.graph.Keys
    ensures Progress(pool, l, t, l', t')
  {
  }

  lemma ProgressByClosing(pool: AuditPool, l: Lists, t: Trace, l': Lists, t1: Trace)
    requires t1.closed == t.closed && Bounded(t1)
    ensures Progress(pool, l, t, l', Close(t1))
  {
  }

  lemma DrainedByClosing(l: Lists, t: Trace)
    requires l.overflow == []
    ensures Drained(l, Close(t))
  {
  }

  lemma DrainedWhileFull(l: Lists, t: Trace)
    requires !QueueEmpty(l)
    ensures Drained(l, t)
  {
  }

  /** Does the open block count as full? Either the refusals have gone on for too long with little room left, or
      there is nothing to read. */
  predicate Full(limit: int, l: Lists, openWeight: int, failures: int) {
    (failures > 1000 && openWeight > limit - BASE_WEIGHT) || (l.top >= |l.arr| && l.heap == [])
  }

  /** The test for a full block after each round: a full block is closed, an empty one ends the loop. */
  method CloseIfFull(pool: AuditPool, limit: int, l: Lists, r: Results, failures: nat, ghost effective: map<Id, real>, ghost t: Trace)
    returns (l': Lists, r': Results, ghost t': Trace, done: bool)
    requires Going(pool, limit, effective, r, t, l.overflow) && failures == Failures(t.events)
    requires Lined(pool, Gone(All(t)), t, l) && (StillCounting(pool.anc, t.events) ==> QueueEmpty(l))
    modifies pool`queued
    ensures Going(pool, limit, effective, r', t', l'.overflow) && failures == Failures(t'.events)
    ensures Lined(pool, Gone(All(t')), t', l')
    ensures done <==> Bounded(t) && Full(limit, l, r.open.weight, failures) && r.open.transactions == []
    ensures done ==> t.current == [] && r.open.weight == BASE_WEIGHT
    ensures if !done && Bounded(t) && Full(limit, l, r.open.weight, failures) then t' == Close(t) && l'.overflow == [] else t' == t && l' == l && r' == r
    ensures !done ==> Drained(l', t') && MayGo(pool.graph, limit, t'.events) && LedOnwards(pool, t', l')
  {
    hide *;
    GoingParts(pool, limit, effective, r, t, l.overflow);
    IsQueueEmpty(l);
    IsBounded(t);
    IsLedOnwards(pool, t, l);
    OpenIsEmpty(pool, limit, effective, r, t, l.overflow);
    ExceededNow(pool, limit, effective, r, t, l, failures);
    l', r', t', done := l, r, t, false;
    if |r.blocks| < BOUNDED_BLOCKS {
      if Full(limit, l, r.open.weight, failures) {
        if r.open.transactions != [] {
          l', r', t' := CloseBlock(pool, limit, l, r, effective, t);
          DrainedByClosing(l', t);
          ShutOneMore(pool.anc, t.events);
          TraceEvents(t, Pick([], 0.0), 0);
          GoesAfterShut(pool.graph, limit, t.events);
        } else {
          done := true;
        }
      } else {
        DrainedWhileFull(l, t);
      }
    } else {
      OverflowDrained(pool.graph, limit, effective, r, t, l);
    }
  }

  lemma GoesAfterShut(g: Graph, limit: int, events: seq<Event>)
    ensures MayGo(g, limit, events + [Shut])
  {
  }

  /** What the test finds: "exceeded" for the events so far, and nobody waits when there is nothing to read. */
  lemma ExceededNow(pool: AuditPool, limit: int, effective: map<Id, real>, r: Results, t: Trace, l: Lists, failures: nat)
    requires Going(pool, limit, effective, r, t, l.overflow) && failures == Failures(t.events)
    requires Lined(pool, Gone(All(t)), t, l)
    ensures var exceeded := failures > 1000 && r.open.weight > limit - BASE_WEIGHT;
      && (Exceeded(pool.graph, limit, t.events) <==> exceeded)
      && (Full(limit, l, r.open.weight, failures) <==> exceeded || QueueEmpty(l))
      && (QueueEmpty(l) ==> NobodyWaits(pool.graph, pool.anc, t.events))
      && (!Bounded(t) || !exceeded ==> MayGo(pool.graph, limit, t.events))
  {
    var g, anc := pool.graph, pool.anc;
    hide *;
    GoingParts(pool, limit, effective, r, t, l.overflow);
    OpenWeight(g, anc, pool.unit, limit, effective, r, t, l.overflow);
    RecordedParts(g, anc, pool.unit, limit, t);
    IsLined(pool, Gone(All(t)), t, l);
    WaitingParts(g, pool.totals, Gone(All(t)), pool.modified, pool.queued, l, HeldBy(anc, t.events));
    ExceededIs(g, anc, limit, t, l, r.open.weight, failures, pool.modified);
  }

  lemma ExceededIs(g: Graph, anc: Links, limit: int, t: Trace, l: Lists, weight: int, failures: nat, modified: set<Id>)
    requires weight == BASE_WEIGHT + Total(Weights(g), Gone(t.current)) && failures == Failures(t.events)
    requires PicksOf(t.events) == All(t) && CurrentOf(t.events) == t.current && Shuts(t.events) == |t.closed|
    requires Prompt(g, Gone(All(t)), modified, l, Aside(anc, t.events))
    ensures var exceeded := failures > 1000 && weight > limit - BASE_WEIGHT;
      && (Exceeded(g, limit, t.events) <==> exceeded) && (Full(limit, l, weight, failures) <==> exceeded || QueueEmpty(l))
      && (QueueEmpty(l) ==> NobodyWaits(g, anc, t.events))
      && (!Bounded(t) || !exceeded ==> MayGo(g, limit, t.events))
  {
    hide Total, Gone, PicksOf, CurrentOf, Shuts, Failures, Aside, All;
    if QueueEmpty(l) {
      NobodyReady(g, Gone(All(t)), modified, l, Aside(anc, t.events));
    }
  }

  /** The loop was left: on an empty block that counts as full, and not straight after a clean cut unless there was nothing
      to read. */
  ghost predicate Stopped(anc: Links, limit: int, l: Lists, failures: int, t: Trace) {
    && Bounded(t) && t.current == [] && Full(limit, l, BASE_WEIGHT, failures)
    && (StillCounting(anc, t.events) ==> QueueEmpty(l))
  }

  lemma IsStopped(anc: Links, limit: int, l: Lists, failures: int, t: Trace)
    ensures Stopped(anc, limit, l, failures, t) <==>
      && Bounded(t) && t.current == [] && Full(limit, l, BASE_WEIGHT, failures)
      && (StillCounting(anc, t.events) ==> QueueEmpty(l))
  {
  }

  /** One round of the main loop: a package is considered, and a full block is closed. */
  method Round(pool: AuditPool, limit: int, l: Lists, r: Results, failures: nat, ghost effective: map<Id, real>, ghost t: Trace)
    returns (l': Lists, r': Results, failures': nat, ghost t': Trace, done: bool)
    requires Going(pool, limit, effective, r, t, l.overflow)
    requires failures == Failures(t.events) && MayGo(pool.graph, limit, t.events)
    requires Lined(pool, Gone(All(t)), t, l) && LedOnwards(pool, t, l)
    requires l.top < |l.arr| || l.heap != []
    modifies pool`ancestorMap, pool`totals, pool`dependencyRate, pool`modified, pool`queued, pool`used
    ensures Going(pool, limit, effective, r', t', l'.overflow) && failures' == Failures(t'.events)
    ensures Lined(pool, Gone(All(t')), t', l')
    ensures !done ==> Drained(l', t') && MayGo(pool.graph, limit, t'.events) && LedOnwards(pool, t', l')
    ensures done ==> Stopped(pool.anc, limit, l', failures', t')
    ensures Progress(pool, l, t, l', t')
  {
    hide *;
    l', r', failures', t' := Step(pool, limit, l, r, failures, effective, t);
    ProgressMade(pool, l, t, l', t');
    ghost var t1, full := t', Bounded(t') && Full(limit, l', r'.open.weight, failures');
    IsStopped(pool.anc, limit, l', failures', t');
    l', r', t', done := CloseIfFull(pool, limit, l', r', failures', effective, t1);
    if full && !done {
      ProgressByClosing(pool, l, t, l', t1);
    }
  }

  lemma IsBounded(t: Trace)
    ensures Bounded(t) <==> |t.closed| < BOUNDED_BLOCKS
  {
  }

  lemma EndOfRun(pool: AuditPool, limit: int, effective: map<Id, real>, r: Results, t: Trace, l: Lists, failures: nat, done: bool)
    requires Going(pool, limit, effective, r, t, l.overflow) && pool.unit == 4
    requires Lined(pool, Gone(All(t)), t, l)
    requires failures == Failures(t.events)
    requires !done ==> QueueEmpty(l) && Drained(l, t)
    requires done ==> Stopped(pool.anc, limit, l, failures, t)
    ensures Flat(BlockPicks(t)) == All(t)
    ensures var blocks := if t.current == [] then r.blocks else r.blocks + [r.open.transactions];
      Selected(pool.graph, pool.anc, limit, effective, blocks, r.notes, BlockPicks(t))
    ensures Run(pool.graph, pool.anc, limit, t.events) && PicksOf(t.events) == All(t)
  {
    hide *;
    IsStopped(pool.anc, limit, l, failures, t);
    AtEnd(l, t, done);
    GoingParts(pool, limit, effective, r, t, l.overflow);
    OpenIsEmpty(pool, limit, effective, r, t, l.overflow);
    RecordedParts(pool.graph, pool.anc, pool.unit, limit, t);
    ValidSettled(pool.graph, pool.anc, All(t), pool.View());
    ExceededNow(pool, limit, effective, r, t, l, failures);
    IsLined(pool, Gone(All(t)), t, l);
    HeldParts(pool.anc, t.events);
    WaitingParts(pool.graph, pool.totals, Gone(All(t)), pool.modified, pool.queued, l, HeldBy(pool.anc, t.events));
    if !done {
      NobodyReady(pool.graph, Gone(All(t)), pool.modified, l, Aside(pool.anc, t.events));
      EveryoneTaken(pool.graph, Gone(All(t)), l);
    }
    IsLedOnwards(pool, t, l);
    EndsRun(pool.graph, pool.anc, limit, t, l, r.open.weight, failures, done);
    IsRun(pool.graph, pool.anc, limit, t.events);
    Finished(pool, limit, effective, r, t, l.overflow);
  }

  lemma IsRun(g: Graph, anc: Links, limit: int, events: seq<Event>)
    requires Dag(g, anc) && WeighsItsSize(g) && ValidPicks(g, anc, 4, map[], PicksOf(events))
    requires Fair(g, anc, 4, limit, events) && Exhausted(g, anc, limit, events)
    ensures Run(g, anc, limit, events)
  {
  }

  lemma EveryoneTaken(g: Graph, gone: set<Id>, l: Lists)
    requires l.overflow == [] && forall x :: x in g && x !in gone ==> x in l.overflow
    ensures g.Keys <= gone
  {
    forall x | x in g ensures x in gone {
      assert x !in l.overflow;
    }
  }

  lemma AtEnd(l: Lists, t: Trace, done: bool)
    requires !done ==> QueueEmpty(l) && Drained(l, t)
    requires done ==> t.current == []
    ensures (t.current == [] || !Bounded(t)) && (!done ==> l.overflow == [])
  {
  }

  lemma EndsRun(g: Graph, anc: Links, limit: int, t: Trace, l: Lists, weight: int, failures: nat, done: bool)
    requires CurrentOf(t.events) == t.current && Shuts(t.events) == |t.closed| && failures == Failures(t.events)
    requires Full(limit, l, weight, failures) <==> (failures > 1000 && weight > limit - BASE_WEIGHT) || QueueEmpty(l)
    requires Exceeded(g, limit, t.events) <==> failures > 1000 && weight > limit - BASE_WEIGHT
    requires QueueEmpty(l) ==> NobodyWaits(g, anc, t.events)
    requires t.current == [] ==> weight == BASE_WEIGHT
    requires !done ==> g.Keys <= Gone(PicksOf(t.events)) && (t.current == [] || !Bounded(t))
    requires done ==> Stopped(anc, limit, l, failures, t)
    ensures Exhausted(g, anc, limit, t.events)
  {
    hide CurrentOf, Shuts, Failures, Exceeded, NobodyWaits, Full, Gone, PicksOf, CleanCut;
  }

  /** Builds the projected blocks by greedily choosing packages, re-queueing what did not fit. */
  method SelectBlocks(pool: AuditPool, limit: int, effective: map<Id, real>, arr: seq<Id>)
    returns (blocks: seq<seq<Id>>, notes: Notes, ghost blockPicks: seq<seq<Pick>>, ghost events: seq<Event>)
    requires Going(pool, limit, effective, Results([], Block([], BASE_WEIGHT), Notes(effective, {}, map[])), Trace([], [], []), [])
    requires Lined(pool, Gone(All(Trace([], [], []))), Trace([], [], []), Lists(arr, 0, [], []))
    requires Drained(Lists(arr, 0, [], []), Trace([], [], [])) && pool.unit == 4
    modifies pool`ancestorMap, pool`totals, pool`dependencyRate, pool`modified, pool`queued, pool`used
    ensures Selected(pool.graph, pool.anc, limit, effective, blocks, notes, blockPicks)
    ensures Run(pool.graph, pool.anc, limit, events) && PicksOf(events) == Flat(blockPicks)
  {
    hide *;
    LogAtStart(pool.graph, pool.anc, pool.unit, limit);
    var l, r, failures := Lists(arr, 0, [], []), Results([], Block([], BASE_WEIGHT), Notes(effective, {}, map[])), 0;
    ghost var t := Trace([], [], []);
    var done := false;
    IsLedOnwards(pool, t, l);
    while (l.top < |l.arr| || l.heap != []) && !done
      invariant Going(pool, limit, effective, r, t, l.overflow) && failures == Failures(t.events)
      invariant Lined(pool, Gone(All(t)), t, l)
      invariant !done ==> Drained(l, t) && MayGo(pool.graph, limit, t.events) && LedOnwards(pool, t, l)
      invariant done ==> Stopped(pool.anc, limit, l, failures, t)
      decreases BOUNDED_BLOCKS - |t.closed|, pool.graph.Keys - Gone(All(t)), Unread(l)
    {
      ghost var l1, t1 := l, t;
      l, r, failures, t, done := Round(pool, limit, l, r, failures, effective, t);
      ProgressParts(pool, l1, t1, l, t);
    }
    IsQueueEmpty(l);
    EndOfRun(pool, limit, effective, r, t, l, failures, done);
    OpenIsEmpty(pool, limit, effective, r, t, l.overflow);
    FlatBlockPicks(t);
    blocks, notes, blockPicks := if r.open.transactions != [] then r.blocks + [r.open.transactions] else r.blocks, r.notes, BlockPicks(t);
    events := t.events;
  }

  lemma ProgressParts(pool: AuditPool, l: Lists, t: Trace, l': Lists, t': Trace)
    requires Progress(pool, l, t, l', t')
    ensures || |t.closed| < |t'.closed| <= BOUNDED_BLOCKS
            || (t'.closed == t.closed && Gone(All(t)) < Gone(All(t')) <= pool.graph.Keys)
            || (t'.closed == t.closed && All(t') == All(t) && Unread(l') < Unread(l))
  {
  }

  /** Picks the rates to report: those of the transactions whose effective rate changed. */
  function DirtyRates(notes: Notes, own: map<Id, real>): map<Id, real>
    requires notes.dirty <= notes.effective.Keys && own.Keys == notes.effective.Keys
  {
    map x | x in notes.dirty :: if notes.effective[x] != 0.0 then notes.effective[x] else own[x]
  }

  /** A taken transaction is reported exactly when its rate changed, and then at its package's rate, or at its own
      if that is 0. */
  lemma ReportedRates(effective: map<Id, real>, own: map<Id, real>, picks: seq<Pick>, notes: Notes, x: Id)
    requires Noted(effective, picks, notes) && own.Keys == effective.Keys && x in effective
    ensures notes.dirty <= notes.effective.Keys
    ensures x in DirtyRates(notes, own) <==> x in Gone(picks) && RateOf(picks, x) != effective[x]
    ensures x in DirtyRates(notes, own) ==> DirtyRates(notes, own)[x] == if RateOf(picks, x) != 0.0 then RateOf(picks, x) else own[x]
  {
  }

  // ---------- the answer in the mempool's own terms ----------

  lemma EmittedFrom(picks: seq<Pick>, x: Id) returns (n: nat)
    requires x in EmittedIds(picks) && Elements(EmittedIds(picks)) == Gone(picks)
    ensures n < |picks| && x in picks[n].cluster
  {
    assert x in Elements(EmittedIds(picks));
    hide Gone;
    n := PickOf(picks, x);
  }

  /** Where the picks of a block stand among all picks. */
  lemma {:induction false} FlatIndex(blockPicks: seq<seq<Pick>>, k: nat, n: nat) returns (m: nat)
    requires k < |blockPicks| && n < |blockPicks[k]|
    ensures m < |Flat(blockPicks)| && Flat(blockPicks)[m] == blockPicks[k][n]
    ensures |Flat(blockPicks[..k])| <= m < |Flat(blockPicks[..k + 1])|
  {
    var last := |blockPicks| - 1;
    if k == last {
      m := |Flat(blockPicks[..last])| + n;
      assert blockPicks[..k + 1] == blockPicks;
    } else {
      m := FlatIndex(blockPicks[..last], k, n);
      assert blockPicks[..last][..k] == blockPicks[..k] && blockPicks[..last][..k + 1] == blockPicks[..k + 1];
    }
  }

  lemma BlockEmitted(g: Graph, anc: Links, limit: int, effective: map<Id, real>, blocks: seq<seq<Id>>, notes: Notes, blockPicks: seq<seq<Pick>>, k: nat)
    requires Dag(g, anc) && Selected(g, anc, limit, effective, blocks, notes, blockPicks) && k < |blocks|
    ensures |blocks| == |blockPicks| && blocks[k] == EmittedIds(blockPicks[k]) && Elements(blocks[k]) == Gone(blockPicks[k])
  {
    hide ClosedBlock, Noted, ValidPicks, Flat, EmittedIds, Gone;
    EmittedElements(blockPicks[k]);
  }

  lemma {:induction false} EmittedElements(picks: seq<Pick>)
    ensures Elements(EmittedIds(picks)) == Gone(picks)
  {
    if picks != [] {
      var n := |picks| - 1;
      EmittedStep(picks);
      EmittedElements(picks[..n]);
      hide EmittedIds, Gone;
      PoppingElements(picks[n], |picks[n].cluster|);
      var c := picks[n].cluster;
      assert c[|c| - |c|..] == c;
      ElementsOfSum(EmittedIds(picks[..n]), Popping(picks[n], |c|));
    }
  }

  lemma ElementsOfSum(s: seq<Id>, t: seq<Id>)
    ensures Elements(s + t) == Elements(s) + Elements(t)
  {
  }

  lemma {:induction false} PoppingElements(p: Pick, n: nat)
    requires n <= |p.cluster|
    ensures Elements(Popping(p, n)) == Elements(p.cluster[|p.cluster| - n..])
  {
    if n > 0 {
      PoppingElements(p, n - 1);
      var i := |p.cluster| - n;
      assert p.cluster[i..] == [p.cluster[i]] + p.cluster[i + 1..];
      ElementsOfSum([p.cluster[i]], p.cluster[i + 1..]);
      ElementsOfSum(Popping(p, n - 1), [p.cluster[i]]);
    } else {
      assert p.cluster[|p.cluster|..] == [];
    }
  }

  lemma ParentNotLater(g: Graph, anc: Links, mempool: seq<CompactTx>, limit: int, effective: map<Id, real>, blocks: seq<seq<Id>>, notes: Notes,
                       blockPicks: seq<seq<Pick>>, i: nat, j: nat, k: nat)
    requires IsPool(g, mempool) && Dag(g, anc) && Generated(g, anc) && Selected(g, anc, limit, effective, blocks, notes, blockPicks)
    requires i < |mempool| && j < |mempool| && k < |blocks| && mempool[j].uid in mempool[i].inputs && mempool[i].uid in blocks[k]
    ensures InBlockUpTo(blocks, k, mempool[j].uid)
  {
    var x, q := mempool[i].uid, mempool[j].uid;
    ParentInPool(g, anc, mempool, i, j);
    hide *;
    SelectedParts(g, anc, limit, effective, blocks, notes, blockPicks);
    BlockEmitted(g, anc, limit, effective, blocks, notes, blockPicks, k);
    var n := EmittedFrom(blockPicks[k], x);
    var m := FlatIndex(blockPicks, k, n);
    var m' := AncestorsComeFirst(g, anc, 4, map[], Flat(blockPicks), m, x, q);
    var l := FlatAt(blockPicks, m');
    if k < l { FlatLength(blockPicks, k + 1, l); }
    SelectedSizes(g, anc, limit, effective, blocks, notes, blockPicks);
    BlockEmitted(g, anc, limit, effective, blocks, notes, blockPicks, l);
    InGone(blockPicks[l], Flat(blockPicks)[m'], q);
    IsInBlock(blocks, l, k, q);
  }

  lemma SelectedSizes(g: Graph, anc: Links, limit: int, effective: map<Id, real>, blocks: seq<seq<Id>>, notes: Notes, blockPicks: seq<seq<Pick>>)
    requires Selected(g, anc, limit, effective, blocks, notes, blockPicks)
    ensures |blocks| == |blockPicks|
  {
  }

  lemma IsInBlock(blocks: seq<seq<Id>>, l: nat, k: nat, q: Id)
    requires l <= k < |blocks| && q in Elements(blocks[l])
    ensures InBlockUpTo(blocks, k, q)
  {
  }

  lemma InGone(picks: seq<Pick>, p: Pick, x: Id)
    requires p in picks && x in p.cluster
    ensures x in Gone(picks)
  {
    var n :| 0 <= n < |picks| && picks[n] == p;
    assert picks[..|picks|] == picks;
    TakenIsGone(picks, |picks|, n, x);
  }

  lemma ParentInPool(g: Graph, anc: Links, mempool: seq<CompactTx>, i: nat, j: nat)
    requires IsPool(g, mempool) && Generated(g, anc)
    requires i < |mempool| && j < |mempool| && mempool[j].uid in mempool[i].inputs
    ensures mempool[i].uid in anc && mempool[j].uid in anc[mempool[i].uid]
  {
    assert IsParent(g, mempool[j].uid, mempool[i].uid);
  }

  lemma LimitsKept(g: Graph, anc: Links, mempool: seq<CompactTx>, limit: int, effective: map<Id, real>, blocks: seq<seq<Id>>, notes: Notes,
                   blockPicks: seq<seq<Pick>>)
    requires IsPool(g, mempool) && Distinct(Uids(mempool)) && Dag(g, anc) && Selected(g, anc, limit, effective, blocks, notes, blockPicks)
    ensures WithinLimits(mempool, limit, blocks, blockPicks)
  {
    hide *;
    SelectedSizes(g, anc, limit, effective, blocks, notes, blockPicks);
    SameFields(g, mempool);
    forall k | 0 <= k < |blocks| && k < 7 ensures 4000 + Total(WeightsOf(mempool), Elements(blocks[k])) < limit {
      BlockEmitted(g, anc, limit, effective, blocks, notes, blockPicks, k);
      BlockBelow(g, anc, limit, effective, blocks, notes, blockPicks, k);
    }
    forall k, n | 0 <= k < |blockPicks| && k < 7 && 0 <= n < |blockPicks[k]| ensures Total(SigopsOf(mempool), Elements(blockPicks[k][n].cluster)) <= 80000 {
      BlockBelow(g, anc, limit, effective, blocks, notes, blockPicks, k);
    }
    IsWithin(g, anc, mempool, limit, effective, blocks, notes, blockPicks);
  }

  lemma IsWithin(g: Graph, anc: Links, mempool: seq<CompactTx>, limit: int, effective: map<Id, real>, blocks: seq<seq<Id>>, notes: Notes,
                 blockPicks: seq<seq<Pick>>)
    requires Distinct(Uids(mempool)) && Selected(g, anc, limit, effective, blocks, notes, blockPicks)
    requires forall k :: 0 <= k < |blocks| && k < 7 ==> 4000 + Total(WeightsOf(mempool), Elements(blocks[k])) < limit
    requires forall k, n :: 0 <= k < |blockPicks| && k < 7 && 0 <= n < |blockPicks[k]| ==> Total(SigopsOf(mempool), Elements(blockPicks[k][n].cluster)) <= 80000
    ensures WithinLimits(mempool, limit, blocks, blockPicks)
  {
    hide ClosedBlock, Noted, ValidPicks, Flat, EmittedIds, WeightsOf, SigopsOf;
  }

  lemma BlockBelow(g: Graph, anc: Links, limit: int, effective: map<Id, real>, blocks: seq<seq<Id>>, notes: Notes, blockPicks: seq<seq<Pick>>, k: nat)
    requires Selected(g, anc, limit, effective, blocks, notes, blockPicks) && k < |blocks| && k < 7
    ensures |blocks| == |blockPicks| && 4000 + Total(Weights(g), Gone(blockPicks[k])) < limit
    ensures forall n :: 0 <= n < |blockPicks[k]| ==> Total(Sigops(g), Elements(blockPicks[k][n].cluster)) <= 80000
  {
    assert ClosedBlock(g, limit, blocks[k], blockPicks[k]);
    hide Noted, ValidPicks, Flat, EmittedIds, Gone, Total;
  }

  lemma {:induction false} RateOfMember(picks: seq<Pick>, k: nat, x: Id)
    requires k < |picks| && x in picks[k].cluster && forall j :: k < j < |picks| ==> x !in picks[j].cluster
    ensures RateOf(picks, x) == picks[k].rate
  {
    if k < |picks| - 1 { RateOfMember(picks[..|picks| - 1], k, x); }
  }

  /** Package "k" has two members or more, and is the last one with this root. */
  ghost predicate LastUnder(picks: seq<Pick>, k: int, r: Id) {
    && 0 <= k < |picks| && |picks[k].cluster| > 1 && Root(picks[k]) == r
    && forall j :: k < j < |picks| ==> picks[j].cluster != [] && Root(picks[j]) != r
  }

  lemma {:induction false} ClustersAre(picks: seq<Pick>, r: Id)
    requires forall k :: 0 <= k < |picks| ==> picks[k].cluster != []
    ensures r in ClustersOf(picks) ==> FromPick(picks, r, ClustersOf(picks)[r])
    ensures forall k :: LastUnder(picks, k, r) ==> r in ClustersOf(picks) && ClustersOf(picks)[r] == picks[k].cluster
  {
    if picks != [] {
      var n := |picks| - 1;
      var before := picks[..n];
      ClustersAre(before, r);
      if r in ClustersOf(picks) {
        if |picks[n].cluster| > 1 && Root(picks[n]) == r {
          assert FromPick(picks, r, picks[n].cluster);
        } else {
          var k :| 0 <= k < n && before[k].cluster == ClustersOf(before)[r];
          assert picks[k].cluster == ClustersOf(picks)[r];
        }
      }
      forall k | LastUnder(picks, k, r)
        ensures r in ClustersOf(picks) && ClustersOf(picks)[r] == picks[k].cluster
      {
        assert k < n ==> LastUnder(before, k, r);
      }
    }
  }

  lemma AllClustersReported(g: Graph, anc: Links, picks: seq<Pick>)
    requires Dag(g, anc) && ValidPicks(g, anc, 4, map[], picks)
    ensures ClustersReported(picks, ClustersOf(picks))
  {
    hide *;
    forall k: nat | k < |picks| ensures picks[k].cluster != [] { PickIs(g, anc, 4, map[], picks, k); }
    forall k | 0 <= k < |picks| ensures ClusterKept(picks[k].cluster, ClustersOf(picks)) {
      KeptCluster(g, anc, picks, k);
    }
    forall r | r in ClustersOf(picks) ensures FromPick(picks, r, ClustersOf(picks)[r]) {
      ClustersAre(picks, r);
    }
    AreReported(picks, ClustersOf(picks));
  }

  lemma AreReported(picks: seq<Pick>, clusters: map<Id, seq<Id>>)
    requires forall k :: 0 <= k < |picks| ==> ClusterKept(picks[k].cluster, clusters)
    requires forall r :: r in clusters ==> FromPick(picks, r, clusters[r])
    ensures ClustersReported(picks, clusters)
  {
    hide ClusterKept, FromPick;
  }

  lemma KeptCluster(g: Graph, anc: Links, picks: seq<Pick>, k: nat)
    requires Dag(g, anc) && ValidPicks(g, anc, 4, map[], picks) && k < |picks| && forall j: nat :: j < |picks| ==> picks[j].cluster != []
    ensures ClusterKept(picks[k].cluster, ClustersOf(picks))
  {
    hide Dag, ValidPicks, ClustersOf;
    var r := Root(picks[k]);
    forall j | k < j < |picks| ensures Root(picks[j]) != r {
      PicksDisjoint(g, anc, 4, map[], picks, k, j, r);
    }
    ClustersAre(picks, r);
    if |picks[k].cluster| > 1 { assert LastUnder(picks, k, r); }
  }

  lemma AllRatesReported(g: Graph, anc: Links, mempool: seq<CompactTx>, effective: map<Id, real>, own: map<Id, real>, picks: seq<Pick>, notes: Notes)
    requires IsPool(g, mempool) && IsRates(effective, own, mempool) && Dag(g, anc) && ValidPicks(g, anc, 4, map[], picks)
    requires Noted(effective, picks, notes) && notes.dirty <= notes.effective.Keys && own.Keys == notes.effective.Keys
    ensures RatesReported(mempool, picks, DirtyRates(notes, own))
  {
    var rates := DirtyRates(notes, own);
    hide *;
    forall i, k | 0 <= i < |mempool| && 0 <= k < |picks| && mempool[i].uid in picks[k].cluster ensures Reports(rates, mempool[i], picks[k].rate) {
      OneReported(g, anc, mempool, effective, own, picks, notes, i, k);
    }
    forall x | x in rates ensures TakenEarlier(picks, |picks|, x) {
      ReportedInPool(effective, own, picks, notes, x);
      ReportedRates(effective, own, picks, notes, x);
      assert picks[..|picks|] == picks;
      GoneIsTaken(picks, |picks|, x);
    }
    RatesAreReported(mempool, picks, rates);
  }

  lemma ReportedInPool(effective: map<Id, real>, own: map<Id, real>, picks: seq<Pick>, notes: Notes, x: Id)
    requires Noted(effective, picks, notes) && notes.dirty <= notes.effective.Keys && own.Keys == notes.effective.Keys && x in DirtyRates(notes, own)
    ensures x in effective && own.Keys == effective.Keys
  {
    hide Gone, RateOf, ClustersOf;
  }

  lemma RatesAreReported(mempool: seq<CompactTx>, picks: seq<Pick>, rates: map<Id, real>)
    requires forall i, k :: 0 <= i < |mempool| && 0 <= k < |picks| && mempool[i].uid in picks[k].cluster ==> Reports(rates, mempool[i], picks[k].rate)
    requires forall x :: x in rates ==> TakenEarlier(picks, |picks|, x)
    ensures RatesReported(mempool, picks, rates)
  {
    hide Reports, TakenEarlier;
  }

  lemma OneReported(g: Graph, anc: Links, mempool: seq<CompactTx>, effective: map<Id, real>, own: map<Id, real>, picks: seq<Pick>, notes: Notes,
                    i: nat, k: nat)
    requires IsPool(g, mempool) && IsRates(effective, own, mempool) && Dag(g, anc) && ValidPicks(g, anc, 4, map[], picks)
    requires Noted(effective, picks, notes) && notes.dirty <= notes.effective.Keys && own.Keys == notes.effective.Keys
    requires i < |mempool| && k < |picks| && mempool[i].uid in picks[k].cluster
    ensures Reports(DirtyRates(notes, own), mempool[i], picks[k].rate)
  {
    var x := mempool[i].uid;
    RateIn(effective, own, mempool, i);
    hide Dag, ValidPicks, IsPool, IsRates, RateOf, ClustersOf, Gone, DirtyRates, Noted;
    NotedParts(effective, picks, notes);
    ReportedRates(effective, own, picks, notes, x);
    assert picks[..|picks|] == picks;
    TakenIsGone(picks, |picks|, k, x);
    forall j | k < j < |picks| ensures x !in picks[j].cluster {
      PicksDisjoint(g, anc, 4, map[], picks, k, j, x);
    }
    RateOfMember(picks, k, x);
  }

  lemma RateIn(effective: map<Id, real>, own: map<Id, real>, mempool: seq<CompactTx>, i: nat)
    requires IsRates(effective, own, mempool) && i < |mempool|
    ensures var x := mempool[i].uid;
      x in effective && x in own && effective[x] == mempool[i].effectiveFeePerVsize && own[x] == mempool[i].feePerVsize
  {
  }

  /** The answer satisfies what the mempool's own fields ask of it. */
  lemma Answered(g: Graph, anc: Links, mempool: seq<CompactTx>, limit: int, effective: map<Id, real>, own: map<Id, real>, blocks: seq<seq<Id>>,
                 notes: Notes, blockPicks: seq<seq<Pick>>)
    requires IsPool(g, mempool) && IsRates(effective, own, mempool) && Distinct(Uids(mempool)) && Dag(g, anc) && Generated(g, anc)
    requires Selected(g, anc, limit, effective, blocks, notes, blockPicks)
    requires own.Keys == notes.effective.Keys && notes.dirty <= notes.effective.Keys
    ensures ParentsNotLater(mempool, blocks) && WithinLimits(mempool, limit, blocks, blockPicks)
    ensures FamiliesPriced(mempool, Flat(blockPicks)) && RatesReported(mempool, Flat(blockPicks), DirtyRates(notes, own))
    ensures ClustersReported(Flat(blockPicks), notes.clusters)
  {
    hide *;
    SelectedParts(g, anc, limit, effective, blocks, notes, blockPicks);
    SelectedNotes(g, anc, limit, effective, blocks, notes, blockPicks);
    NotedParts(effective, Flat(blockPicks), notes);
    forall i, j, k | 0 <= i < |mempool| && 0 <= j < |mempool| && 0 <= k < |blocks| && mempool[j].uid in mempool[i].inputs && mempool[i].uid in blocks[k]
      ensures InBlockUpTo(blocks, k, mempool[j].uid)
    {
      ParentNotLater(g, anc, mempool, limit, effective, blocks, notes, blockPicks, i, j, k);
    }
    AllNotLater(mempool, blocks);
    LimitsKept(g, anc, mempool, limit, effective, blocks, notes, blockPicks);
    PicksPriced(g, anc, mempool, Flat(blockPicks));
    AllRatesReported(g, anc, mempool, effective, own, Flat(blockPicks), notes);
    AllClustersReported(g, anc, Flat(blockPicks));
  }

  lemma SelectedNotes(g: Graph, anc: Links, limit: int, effective: map<Id, real>, blocks: seq<seq<Id>>, notes: Notes, blockPicks: seq<seq<Pick>>)
    requires Selected(g, anc, limit, effective, blocks, notes, blockPicks)
    ensures Noted(effective, Flat(blockPicks), notes)
  {
  }

  lemma AllNotLater(mempool: seq<CompactTx>, blocks: seq<seq<Id>>)
    requires forall i, j, k :: 0 <= i < |mempool| && 0 <= j < |mempool| && 0 <= k < |blocks| && mempool[j].uid in mempool[i].inputs ==>
      mempool[i].uid in blocks[k] ==> InBlockUpTo(blocks, k, mempool[j].uid)
    ensures ParentsNotLater(mempool, blocks)
  {
    hide InBlockUpTo;
  }

  method MakeBlockTemplates(mempool: seq<CompactTx>, blockWeightUnits: int)
    returns (blocks: seq<seq<Id>>, rates: map<Id, real>, clusters: map<Id, seq<Id>>, ghost g: Graph, ghost blockPicks: seq<seq<Pick>>,
             ghost notes: Notes, ghost effective: map<Id, real>, ghost own: map<Id, real>, ghost events: seq<Event>)
    requires Distinct(Uids(mempool)) && AcyclicMempool(mempool)
    ensures IsPool(g, mempool) && IsRates(effective, own, mempool) && Dag(g, Ancestry(g))
    ensures Selected(g, Ancestry(g), blockWeightUnits, effective, blocks, notes, blockPicks)
    ensures Run(g, Ancestry(g), blockWeightUnits, events) && PicksOf(events) == Flat(blockPicks)
    ensures Distinct(Concatenated(blocks)) && Elements(Concatenated(blocks)) <= g.Keys
    ensures blockWeightUnits <= 4001 || blockWeightUnits >= 8000 ==>
      OnlyOversizedLeft(g, Ancestry(g), blockWeightUnits, Flat(blockPicks))
    ensures AllFit(g, Ancestry(g), blockWeightUnits) && Thorough(g, Ancestry(g), blockWeightUnits, events) ==>
      multiset(Concatenated(blocks)) == multiset(Uids(mempool))
    ensures own.Keys == notes.effective.Keys && notes.dirty <= notes.effective.Keys
    ensures rates == DirtyRates(notes, own) && clusters == notes.clusters
    ensures ParentsNotLater(mempool, blocks) && WithinLimits(mempool, blockWeightUnits, blocks, blockPicks)
    ensures FamiliesPriced(mempool, Flat(blockPicks)) && RatesReported(mempool, Flat(blockPicks), rates) && ClustersReported(Flat(blockPicks), clusters)
  {
    hide *;
    var graph, effective0, own0 := ReadMempool(mempool);
    g, effective, own := graph, effective0, own0;
    PoolAcyclic(g, mempool);
    PoolParts(g, effective, own, mempool);
    var pool := new AuditPool(graph, 4, UnsetRates(graph));
    pool.SetAll(Uids(mempool));
    var mempoolArray := SortedPool(pool, Uids(mempool));
    Started(pool, blockWeightUnits, effective, mempoolArray);
    var n;
    blocks, n, blockPicks, events := SelectBlocks(pool, blockWeightUnits, effective0, mempoolArray);
    notes := n;
    Partition(g, pool.anc, blockWeightUnits, effective, mempool, blocks, notes, blockPicks, events);
    if blockWeightUnits <= 4001 || blockWeightUnits >= 8000 {
      OversizedLeft(g, pool.anc, blockWeightUnits, events);
    }
    NotesInPool(g, pool.anc, blockWeightUnits, effective, blocks, notes, blockPicks);
    rates, clusters := DirtyRates(n, own0), n.clusters;
    AncestryIsDag(g);
    Answered(g, Ancestry(g), mempool, blockWeightUnits, effective, own, blocks, notes, blockPicks);
  }

  lemma PoolParts(g: Graph, effective: map<Id, real>, own: map<Id, real>, mempool: seq<CompactTx>)
    requires IsPool(g, mempool) && IsRates(effective, own, mempool)
    ensures g.Keys == effective.Keys == own.Keys == Elements(Uids(mempool))
  {
  }

  lemma NotesInPool(g: Graph, anc: Links, limit: int, effective: map<Id, real>, blocks: seq<seq<Id>>, notes: Notes, blockPicks: seq<seq<Pick>>)
    requires Selected(g, anc, limit, effective, blocks, notes, blockPicks)
    ensures notes.effective.Keys == effective.Keys && notes.dirty <= effective.Keys
  {
    hide ValidPicks, Gone, RateOf, ClustersOf;
  }
}
