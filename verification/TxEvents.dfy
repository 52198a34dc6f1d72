/** The selection worker's run as a record of what it did, and the rules every such record follows. */
module TxEvents {
  import opened PackageGraph
  import opened Relatives
  import opened Selection
  import opened Packaging

  const BASE_WEIGHT: int := 4000
  const SIGOP_LIMIT: int := 80000
  const BOUNDED_BLOCKS: int := 7

  /** Does the package fit into the open block? From the eighth block on, everything does. */
  predicate Fits(limit: int, blocks: int, blockWeight: int, t: Totals) {
    blocks >= BOUNDED_BLOCKS || (blockWeight + t.size < limit && t.sigops <= SIGOP_LIMIT)
  }

  /** What the main loop did: it took a package, held one back, or closed the block. */
  datatype Event = Took(pick: Pick) | Refused(root: Id) | Shut

  ghost function PicksOf(events: seq<Event>): seq<Pick> {
    if events == [] then [] else
    var last, before := events[|events| - 1], PicksOf(events[..|events| - 1]);
    if last.Took? then before + [last.pick] else before
  }

  /** The packages of the open block. */
  ghost function CurrentOf(events: seq<Event>): seq<Pick> {
    if events == [] then [] else
    var before := events[..|events| - 1];
    match events[|events| - 1]
    case Took(p) => CurrentOf(before) + [p]
    case Refused(_) => CurrentOf(before)
    case Shut => []
  }

  /** The closed blocks. */
  ghost function Shuts(events: seq<Event>): nat {
    if events == [] then 0 else Shuts(events[..|events| - 1]) + if events[|events| - 1] == Shut then 1 else 0
  }

  /** Refusals since a package was last taken: closing a block does not start the count again. */
  ghost function Failures(events: seq<Event>): nat {
    if events == [] || events[|events| - 1].Took? then 0 else
    Failures(events[..|events| - 1]) + if events[|events| - 1].Refused? then 1 else 0
  }

  /** Who was refused for the open block and has not been pushed on the heap since: a refused transaction is
      pushed when a package with an ancestor of it is taken. */
  ghost function Aside(anc: Links, events: seq<Event>): set<Id> {
    if events == [] then {} else
    var before := events[..|events| - 1];
    match events[|events| - 1]
    case Took(p) => Aside(anc, before) - DependentsOfAny(anc, Elements(p.cluster))
    case Refused(x) => Aside(anc, before) + {x}
    case Shut => {}
  }

  /** Who was refused for the open block, pushed since or not: the members of the overflow list. */
  ghost function OverflowOf(events: seq<Event>): set<Id> {
    if events == [] then {} else
    var before := OverflowOf(events[..|events| - 1]);
    match events[|events| - 1]
    case Took(_) => before
    case Refused(x) => before + {x}
    case Shut => {}
  }

  /** Who was pushed on the heap while set aside for the open block: the overflow list has another entry. */
  ghost function Doubled(anc: Links, events: seq<Event>): set<Id> {
    if events == [] then {} else
    var before := events[..|events| - 1];
    match events[|events| - 1]
    case Took(p) => Doubled(anc, before) + Aside(anc, before) * DependentsOfAny(anc, Elements(p.cluster))
    case Refused(_) => Doubled(anc, before)
    case Shut => {}
  }

  /** Who was doubled when a block was closed: closing puts the overflow list back, so these may have two entries
      in the heap, and only the newer one is known. */
  ghost function Twins(anc: Links, events: seq<Event>): set<Id> {
    if events == [] then {} else
    var before := events[..|events| - 1];
    Twins(anc, before) + if events[|events| - 1] == Shut then Doubled(anc, before) else {}
  }

  /** No package was taken on which a transaction with two entries depends: the older one would stay where it is
      while the score changes. */
  ghost predicate Calm(anc: Links, events: seq<Event>) {
    events == [] || (
      var before, last := events[..|events| - 1], events[|events| - 1];
      Calm(anc, before) && (last.Took? ==> Twins(anc, before) !! DependentsOfAny(anc, Elements(last.pick.cluster))))
  }

  /** Who was refused since a package was last taken for the open block. */
  ghost function Lead(events: seq<Event>): set<Id> {
    if events == [] || !events[|events| - 1].Refused? then {} else Lead(events[..|events| - 1]) + {events[|events| - 1].root}
  }

  /** More than a thousand refusals in a row with the open block within 4000 of the limit. */
  ghost predicate Exceeded(g: Graph, limit: int, events: seq<Event>) {
    Failures(events) > 1000 && 4000 + Total(Weights(g), Gone(CurrentOf(events))) > limit - 4000
  }

  /** Everyone is taken or set aside. */
  ghost predicate NobodyWaits(g: Graph, anc: Links, events: seq<Event>) {
    forall x :: x in g && x !in Gone(PicksOf(events)) ==> x in Aside(anc, events)
  }

  /** The loop looks at another transaction: it tests for a full block after every round but not at its start. */
  ghost predicate MayGo(g: Graph, limit: int, events: seq<Event>) {
    events == [] || events[|events| - 1] == Shut || Shuts(events) >= BOUNDED_BLOCKS || !Exceeded(g, limit, events)
  }

  /** With 4000 weight units reserved the open block has room for the package, and the package has at most 80000 sigops;
      or seven blocks are closed. */
  ghost predicate FitsAt(g: Graph, anc: Links, unit: nat, limit: int, before: seq<Event>, x: Id) {
    var t := FreshTotals(g, anc, unit, x, Gone(PicksOf(before)));
    Shuts(before) >= 7 || (4000 + Total(Weights(g), Gone(CurrentOf(before))) + t.size < limit && t.sigops <= 80000)
  }

  /** "root" was looked at. It was taken exactly if its package fits; and as long as the heap has no stale
      entries, it had the best ancestor score of all transactions neither taken nor set aside, and was not set aside
      itself unless it had two entries. */
  ghost predicate Looked(g: Graph, anc: Links, unit: nat, limit: int, before: seq<Event>, root: Id, took: bool) {
    var gone, aside := Gone(PicksOf(before)), Aside(anc, before);
    && root in g && root !in gone && (took <==> FitsAt(g, anc, unit, limit, before, root)) && MayGo(g, limit, before)
    && (Calm(anc, before) ==> (root !in aside || root in Twins(anc, before)) && BestOf(g, anc, unit, gone, aside, root))
  }

  ghost predicate FairEvent(g: Graph, anc: Links, unit: nat, limit: int, before: seq<Event>, e: Event) {
    match e
    case Took(p) => p.cluster != [] && Looked(g, anc, unit, limit, before, Root(p), true)
    case Refused(x) => Looked(g, anc, unit, limit, before, x, false)
    case Shut => CurrentOf(before) != [] && Shuts(before) < BOUNDED_BLOCKS && (Exceeded(g, limit, before) || NobodyWaits(g, anc, before))
  }

  ghost predicate Fair(g: Graph, anc: Links, unit: nat, limit: int, events: seq<Event>) {
    forall k :: 0 <= k < |events| ==> FairEvent(g, anc, unit, limit, events[..k], events[k])
  }

  ghost predicate AfterRefusal(events: seq<Event>) {
    events != [] && events[|events| - 1].Refused?
  }

  ghost predicate JustShut(events: seq<Event>) {
    events != [] && events[|events| - 1] == Shut
  }

  /** A block was just closed, with no stale entries, and nobody who was held back for it has been taken. */
  ghost predicate CleanCut(anc: Links, events: seq<Event>) {
    JustShut(events) && Calm(anc, events) && OverflowOf(events[..|events| - 1]) !! Gone(PicksOf(events))
  }

  /** The loop ends when everyone is taken, or on an empty block: because everyone left has been refused for it, or
      early, after too many refusals. After a clean cut somebody is looked at first. */
  ghost predicate Exhausted(g: Graph, anc: Links, limit: int, events: seq<Event>) {
    || (g.Keys <= Gone(PicksOf(events)) && (CurrentOf(events) == [] || Shuts(events) >= BOUNDED_BLOCKS))
    || (CurrentOf(events) == [] && Shuts(events) < BOUNDED_BLOCKS
        && (NobodyWaits(g, anc, events) || (Exceeded(g, limit, events) && !CleanCut(anc, events))))
  }

  ghost predicate WeighsItsSize(g: Graph) {
    forall x :: x in g ==> g[x].size == g[x].weight
  }

  /** A whole run of the worker, as far as the rules say. */
  ghost predicate Run(g: Graph, anc: Links, limit: int, events: seq<Event>) {
    && Dag(g, anc) && WeighsItsSize(g) && ValidPicks(g, anc, 4, map[], PicksOf(events))
    && Fair(g, anc, 4, limit, events) && Exhausted(g, anc, limit, events)
  }

  lemma FairExtended(g: Graph, anc: Links, unit: nat, limit: int, events: seq<Event>, e: Event)
    requires Fair(g, anc, unit, limit, events) && FairEvent(g, anc, unit, limit, events, e)
    ensures Fair(g, anc, unit, limit, events + [e])
  {
    hide FairEvent;
    var more := events + [e];
    forall k | 0 <= k < |more| ensures FairEvent(g, anc, unit, limit, more[..k], more[k]) {
      assert more[..k] == events[..k];
      assert events[..|events|] == events;
    }
  }

  lemma TookOneMore(anc: Links, events: seq<Event>, p: Pick)
    ensures var more := events + [Took(p)];
      && PicksOf(more) == PicksOf(events) + [p] && CurrentOf(more) == CurrentOf(events) + [p] && Shuts(more) == Shuts(events)
      && Failures(more) == 0 && Aside(anc, more) == Aside(anc, events) - DependentsOfAny(anc, Elements(p.cluster)) && Lead(more) == {}
      && Doubled(anc, more) == Doubled(anc, events) + Aside(anc, events) * DependentsOfAny(anc, Elements(p.cluster))
      && Twins(anc, more) == Twins(anc, events) && OverflowOf(more) == OverflowOf(events)
      && (Calm(anc, more) <==> Calm(anc, events) && Twins(anc, events) !! DependentsOfAny(anc, Elements(p.cluster)))
  {
    assert (events + [Took(p)])[..|events|] == events;
  }

  lemma RefusedOneMore(anc: Links, events: seq<Event>, x: Id)
    ensures var more := events + [Refused(x)];
      && PicksOf(more) == PicksOf(events) && CurrentOf(more) == CurrentOf(events) && Shuts(more) == Shuts(events)
      && Failures(more) == Failures(events) + 1 && Aside(anc, more) == Aside(anc, events) + {x} && Lead(more) == Lead(events) + {x}
      && Doubled(anc, more) == Doubled(anc, events) && Twins(anc, more) == Twins(anc, events) && OverflowOf(more) == OverflowOf(events) + {x}
      && (Calm(anc, more) <==> Calm(anc, events))
  {
    assert (events + [Refused(x)])[..|events|] == events;
  }

  lemma ShutOneMore(anc: Links, events: seq<Event>)
    ensures var more := events + [Shut];
      && PicksOf(more) == PicksOf(events) && CurrentOf(more) == [] && Shuts(more) == Shuts(events) + 1
      && Failures(more) == Failures(events) && Aside(anc, more) == {} && Lead(more) == {} && Doubled(anc, more) == {}
      && Twins(anc, more) == Twins(anc, events) + Doubled(anc, events) && OverflowOf(more) == {}
      && (Calm(anc, more) <==> Calm(anc, events))
  {
    assert (events + [Shut])[..|events|] == events;
  }

  lemma NotJustShut(events: seq<Event>, e: Event)
    requires e != Shut
    ensures !JustShut(events + [e])
  {
  }

  /** Refusals are counted either since a refusal or over the end of a block. */
  lemma CountGoesOn(events: seq<Event>)
    requires CurrentOf(events) == [] && Failures(events) > 0
    ensures JustShut(events) || AfterRefusal(events)
  {
  }

  lemma {:induction false} LeadInOverflow(events: seq<Event>)
    ensures Lead(events) <= OverflowOf(events)
    ensures CurrentOf(events) != [] && Failures(events) > 0 ==> Lead(events) != {}
  {
    if events != [] { LeadInOverflow(events[..|events| - 1]); }
  }

  lemma {:induction false} PicksPrefix(events: seq<Event>, n: nat)
    requires n <= |events|
    ensures PicksOf(events[..n]) <= PicksOf(events)
  {
    if n < |events| {
      PicksPrefix(events[..|events| - 1], n);
      assert events[..|events| - 1][..n] == events[..n];
    } else {
      assert events[..n] == events;
    }
  }

  lemma FairPrefix(g: Graph, anc: Links, unit: nat, limit: int, events: seq<Event>, n: nat)
    requires Fair(g, anc, unit, limit, events) && n <= |events|
    ensures Fair(g, anc, unit, limit, events[..n])
  {
    hide FairEvent;
    forall k | 0 <= k < n ensures FairEvent(g, anc, unit, limit, events[..n][..k], events[..n][k]) {
      assert events[..n][..k] == events[..k];
      assert FairEvent(g, anc, unit, limit, events[..k], events[k]);
    }
  }

  /** Up to the end of the first block the run is calm: whoever is looked at is the best of all transactions
      neither taken nor set aside, and is not set aside itself. */
  lemma FirstBlockGreedy(g: Graph, anc: Links, unit: nat, limit: int, events: seq<Event>, k: nat, root: Id)
    requires Fair(g, anc, unit, limit, events) && k < |events| && LooksAt(events[k], root)
    requires forall j :: 0 <= j < k ==> events[j] != Shut
    ensures Calm(anc, events[..k]) && root !in Aside(anc, events[..k])
    ensures BestOf(g, anc, unit, Gone(PicksOf(events[..k])), Aside(anc, events[..k]), root)
  {
    hide BestOf, Gone, PicksOf, Calm, Aside, Twins, FitsAt, MayGo;
    CalmUntilShut(anc, events[..k]);
    assert FairEvent(g, anc, unit, limit, events[..k], events[k]);
  }

  /** The package of "root" was taken, or refused. */
  ghost predicate LooksAt(e: Event, root: Id) {
    e == Refused(root) || (e.Took? && e.pick.cluster != [] && Root(e.pick) == root)
  }

  lemma {:induction false} CalmUntilShut(anc: Links, events: seq<Event>)
    requires forall j :: 0 <= j < |events| ==> events[j] != Shut
    ensures Calm(anc, events) && Twins(anc, events) == {}
  {
    if events != [] {
      CalmUntilShut(anc, events[..|events| - 1]);
    }
  }

  /** From the eighth block on nothing is refused, so in a calm run each package root is the best of everything left. */
  lemma LastBlockGreedy(g: Graph, anc: Links, unit: nat, limit: int, events: seq<Event>, k: nat)
    requires Fair(g, anc, unit, limit, events) && k < |events| && Shuts(events[..k]) >= BOUNDED_BLOCKS && Calm(anc, events[..k])
    ensures events[k].Took? && events[k].pick.cluster != []
    ensures BestOf(g, anc, unit, Gone(PicksOf(events[..k])), {}, Root(events[k].pick))
  {
    assert FairEvent(g, anc, unit, limit, events[..k], events[k]);
    FairPrefix(g, anc, unit, limit, events, k);
    LastBlockTakes(g, anc, unit, limit, events[..k]);
    hide BestOf, Gone, PicksOf, Calm, FreshTotals, Total;
  }

  lemma {:induction false} LastBlockTakes(g: Graph, anc: Links, unit: nat, limit: int, events: seq<Event>)
    requires Fair(g, anc, unit, limit, events) && Shuts(events) >= BOUNDED_BLOCKS
    ensures Aside(anc, events) == {}
  {
    var n := |events| - 1;
    if events[n] != Shut {
      assert FairEvent(g, anc, unit, limit, events[..n], events[n]);
      FairPrefix(g, anc, unit, limit, events, n);
      LastBlockTakes(g, anc, unit, limit, events[..n]);
      hide BestOf, Gone, PicksOf, Calm, FreshTotals, Total, MayGo;
    }
  }
}
