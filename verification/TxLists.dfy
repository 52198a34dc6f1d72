/** The selection worker's working lists: the sorted pool with a read position, the heap of modified transactions,
    and the overflow list. */
module TxLists {
  import opened Collections
  import opened PackageGraph
  import opened Relatives
  import opened Sorting
  import opened Packaging

  /** The sorted pool with its read position, the modified heap (any order) and the overflow list. */
  datatype Lists = Lists(arr: seq<Id>, top: nat, heap: seq<Id>, overflow: seq<Id>)

  ghost function Unflagged(s: seq<Id>, modified: set<Id>): nat {
    if s == [] then 0 else Unflagged(s[..|s| - 1], modified) + if s[|s| - 1] in modified then 0 else 1
  }

  /** The part of the pool that has not been read. */
  ghost function Rest(l: Lists): seq<Id> {
    if l.top <= |l.arr| then l.arr[l.top..] else []
  }

  /** Everyone in the lists is in the pool, live nodes are in the heap, and the overflow list fits back into the
      part of the pool that has been read. */
  ghost predicate Sound(g: Graph, modified: set<Id>, queued: set<Id>, l: Lists) {
    && l.top <= |l.arr| && Elements(l.arr) <= g.Keys && Elements(l.overflow) <= g.Keys
    && queued <= Elements(l.heap) <= modified <= g.Keys
    && Unflagged(l.overflow, modified) <= l.top
  }

  /** "x" can be read: it is in the heap or, unmodified, in the unread part of the pool. */
  ghost predicate Ready(modified: set<Id>, l: Lists, x: Id) {
    x in l.heap || (x !in modified && x in Rest(l))
  }

  /** Who is neither taken nor set aside can be read; who is set aside is in the overflow list. */
  ghost predicate Prompt(g: Graph, gone: set<Id>, modified: set<Id>, l: Lists, aside: set<Id>) {
    && aside <= Elements(l.overflow)
    && forall x :: x in g && x !in gone && x !in aside ==> Ready(modified, l, x)
  }

  /** Each member of the heap but the twins has one entry, and that is its live node. */
  ghost predicate Singly(heap: seq<Id>, queued: set<Id>, twins: set<Id>) {
    && (forall i, j :: 0 <= i < j < |heap| && heap[i] == heap[j] ==> heap[i] in twins)
    && forall i :: 0 <= i < |heap| ==> heap[i] in queued || heap[i] in twins
  }

  /** Who is set aside waits nowhere, but for the twins. */
  ghost predicate Tidy(modified: set<Id>, queued: set<Id>, l: Lists, aside: set<Id>, twins: set<Id>) {
    && Singly(l.heap, queued, twins) && Distinct(Rest(l)) && aside * Elements(l.heap) <= twins <= modified
    && forall x :: x in aside && x in Rest(l) ==> x in modified
  }

  /** The overflow list has one entry for each transaction set aside, and others for those of "more" only. */
  ghost predicate Single(overflow: seq<Id>, aside: set<Id>, more: set<Id>) {
    && (forall i, j :: 0 <= i < j < |overflow| && overflow[i] == overflow[j] ==> overflow[i] in more)
    && forall i :: 0 <= i < |overflow| ==> overflow[i] in aside || overflow[i] in more
  }

  /** Is "a" of higher priority than "b"? Equal scores are decided by the ids, the higher first. */
  ghost predicate Beats(totals: map<Id, Totals>, a: Id, b: Id) {
    a in totals && b in totals && (totals[a].score > totals[b].score || (totals[a].score == totals[b].score && a > b))
  }

  /** "x" comes before the heap's entry "u": in the heap by its priority, in the pool only with a higher score. */
  ghost predicate Above(totals: map<Id, Totals>, modified: set<Id>, x: Id, u: Id) {
    Beats(totals, x, u) && (x in modified || totals[x].score > totals[u].score)
  }

  ghost predicate AboveHeap(totals: map<Id, Totals>, modified: set<Id>, heap: seq<Id>, x: Id) {
    forall i :: 0 <= i < |heap| ==> heap[i] == x || Above(totals, modified, x, heap[i])
  }

  /** What the events so far say about the lists: who is set aside, who was refused for the open block at all, and
      since a package was last taken; whether no entry of the heap is stale; who has been doubled, and who may have
      two entries in the heap. */
  datatype Held = Held(aside: set<Id>, back: set<Id>, lead: set<Id>, calm: bool, doubled: set<Id>, twins: set<Id>)

  /** "x" is set aside. */
  ghost function SetBy(h: Held, x: Id): Held {
    Held(h.aside + {x}, h.back + {x}, h.lead + {x}, h.calm, h.doubled, h.twins)
  }

  /** A package was taken, and what depends on it, "d", was pushed. */
  ghost function PushedFrom(h: Held, d: set<Id>): Held {
    Held(h.aside - d, h.back, {}, h.calm && h.twins !! d, h.doubled + h.aside * d, h.twins)
  }

  /** The block was closed. */
  ghost function Reopened(h: Held): Held {
    Held({}, {}, {}, h.calm, {}, h.twins + h.doubled)
  }

  /** What the main loop keeps of its lists. Nobody is lost; the unread pool is in order of score, and what was
      held back fits in front of it; and while calm, the heap has no stale entries, and whoever was refused since
      a package was last taken comes before all of them. */
  ghost predicate Waiting(g: Graph, totals: map<Id, Totals>, gone: set<Id>, modified: set<Id>, queued: set<Id>, l: Lists, h: Held) {
    && Sound(g, modified, queued, l) && Prompt(g, gone, modified, l, h.aside) && Elements(l.overflow) == h.back
    && Descending(totals, l.overflow + Rest(l), modified) && Orderly(totals, modified, queued, l, h)
  }

  ghost predicate Orderly(totals: map<Id, Totals>, modified: set<Id>, queued: set<Id>, l: Lists, h: Held) {
    h.calm ==>
      && Tidy(modified, queued, l, h.aside, h.twins) && Single(l.overflow, h.aside, h.doubled + h.twins) && h.doubled <= modified
      && forall r :: r in h.lead ==> AboveHeap(totals, modified, l.heap, r)
  }

  lemma WaitingParts(g: Graph, totals: map<Id, Totals>, gone: set<Id>, modified: set<Id>, queued: set<Id>, l: Lists, h: Held)
    requires Waiting(g, totals, gone, modified, queued, l, h)
    ensures Sound(g, modified, queued, l) && Prompt(g, gone, modified, l, h.aside) && Descending(totals, l.overflow + Rest(l), modified)
    ensures Orderly(totals, modified, queued, l, h) && (h.calm ==> Tidy(modified, queued, l, h.aside, h.twins)) && Elements(l.overflow) == h.back
  {
  }

  lemma IsWaiting(g: Graph, totals: map<Id, Totals>, gone: set<Id>, modified: set<Id>, queued: set<Id>, l: Lists, h: Held)
    requires Sound(g, modified, queued, l) && Prompt(g, gone, modified, l, h.aside) && Descending(totals, l.overflow + Rest(l), modified)
    requires Orderly(totals, modified, queued, l, h) && Elements(l.overflow) == h.back
    ensures Waiting(g, totals, gone, modified, queued, l, h)
  {
  }

  lemma SoundParts(g: Graph, modified: set<Id>, queued: set<Id>, l: Lists)
    requires Sound(g, modified, queued, l)
    ensures l.top <= |l.arr| && queued <= Elements(l.heap) <= modified <= g.Keys && Elements(l.arr) <= g.Keys && Elements(l.overflow) <= g.Keys
    ensures (forall i :: 0 <= i < |l.arr| ==> l.arr[i] in g) && (forall i :: 0 <= i < |l.heap| ==> l.heap[i] in g && l.heap[i] in modified)
    ensures Elements(l.overflow + Rest(l)) <= g.Keys && Unflagged(l.overflow, modified) <= l.top
  {
    hide Unflagged;
    assert forall i :: 0 <= i < |l.arr| ==> l.arr[i] in Elements(l.arr);
    assert forall i :: 0 <= i < |l.heap| ==> l.heap[i] in Elements(l.heap);
    forall x | x in Elements(l.overflow + Rest(l)) ensures x in g {
      assert x in l.overflow || x in Rest(l);
      assert x in l.overflow ==> x in Elements(l.overflow);
      assert x in Rest(l) ==> x in Elements(l.arr);
    }
  }

  lemma WaitingForFewer(g: Graph, totals: map<Id, Totals>, gone: set<Id>, modified: set<Id>, queued: set<Id>, l: Lists, h: Held, gone': set<Id>)
    requires Waiting(g, totals, gone, modified, queued, l, h) && gone <= gone'
    ensures Waiting(g, totals, gone', modified, queued, l, h)
  {
    hide Sound, Descending, Orderly, Ready, Elements;
  }

  // ---------- order ----------

  lemma DescendingSkip(totals: map<Id, Totals>, a: seq<Id>, b: seq<Id>, n: nat, skip: set<Id>)
    requires Descending(totals, a + b, skip) && n <= |b|
    ensures Descending(totals, a + b[n..], skip)
  {
    var s, s' := a + b, a + b[n..];
    forall i, j | 0 <= i < j < |s'| && s'[i] in totals && s'[j] in totals && s'[i] !in skip && s'[j] !in skip
      ensures totals[s'[i]].score >= totals[s'[j]].score
    {
      var i', j' := if i < |a| then i else i + n, if j < |a| then j else j + n;
      assert s[i'] == s'[i] && s[j'] == s'[j];
    }
  }

  lemma DescendingInsert(totals: map<Id, Totals>, a: seq<Id>, x: Id, b: seq<Id>, skip: set<Id>)
    requires Descending(totals, a + b, skip) && x in skip
    ensures Descending(totals, a + [x] + b, skip)
  {
    var s, s' := a + b, a + [x] + b;
    forall i, j | 0 <= i < j < |s'| && s'[i] in totals && s'[j] in totals && s'[i] !in skip && s'[j] !in skip
      ensures totals[s'[i]].score >= totals[s'[j]].score
    {
      var i', j' := if i < |a| then i else i - 1, if j < |a| then j else j - 1;
      assert s[i'] == s'[i] && s[j'] == s'[j];
    }
  }

  lemma FirstIsBest(totals: map<Id, Totals>, a: seq<Id>, b: seq<Id>, skip: set<Id>, k: nat)
    requires Descending(totals, a + b, skip) && k < |b| && b[0] in totals && b[k] in totals && b[0] !in skip && b[k] !in skip
    ensures totals[b[k]].score <= totals[b[0]].score
  {
    assert (a + b)[|a|] == b[0] && (a + b)[|a| + k] == b[k];
  }

  // ---------- reading on ----------

  lemma OrderlySkip(totals: map<Id, Totals>, modified: set<Id>, queued: set<Id>, l: Lists, h: Held, top: nat)
    requires Orderly(totals, modified, queued, l, h) && l.top <= top <= |l.arr|
    ensures Orderly(totals, modified, queued, l.(top := top), h)
  {
    var rest, rest' := Rest(l), Rest(l.(top := top));
    assert forall i :: 0 <= i < |rest'| ==> rest'[i] == rest[i + (top - l.top)];
    hide Singly, Single, AboveHeap, Elements;
  }

  lemma Skipped(g: Graph, totals: map<Id, Totals>, gone: set<Id>, modified: set<Id>, queued: set<Id>, l: Lists, h: Held, top: nat)
    requires Waiting(g, totals, gone, modified, queued, l, h) && l.top <= top <= |l.arr|
    requires forall i :: l.top <= i < top ==> l.arr[i] in gone || l.arr[i] in modified
    ensures Waiting(g, totals, gone, modified, queued, l.(top := top), h)
  {
    hide *;
    WaitingParts(g, totals, gone, modified, queued, l, h);
    SkippedRest(g, modified, queued, l, top);
    DescendingSkip(totals, l.overflow, Rest(l), top - l.top, modified);
    SkippedPrompt(g, gone, modified, l, h.aside, top);
    OrderlySkip(totals, modified, queued, l, h, top);
    IsWaiting(g, totals, gone, modified, queued, l.(top := top), h);
  }

  lemma SkippedRest(g: Graph, modified: set<Id>, queued: set<Id>, l: Lists, top: nat)
    requires Sound(g, modified, queued, l) && l.top <= top <= |l.arr|
    ensures Sound(g, modified, queued, l.(top := top))
    ensures |Rest(l)| == |l.arr| - l.top && Rest(l.(top := top)) == Rest(l)[top - l.top..]
  {
    hide Unflagged, Elements;
  }

  lemma SkippedPrompt(g: Graph, gone: set<Id>, modified: set<Id>, l: Lists, aside: set<Id>, top: nat)
    requires Prompt(g, gone, modified, l, aside) && l.top <= top <= |l.arr|
    requires forall i :: l.top <= i < top ==> l.arr[i] in gone || l.arr[i] in modified
    ensures Prompt(g, gone, modified, l.(top := top), aside)
  {
    var l' := l.(top := top);
    hide Elements;
    forall x | x in g && x !in gone && x !in aside ensures Ready(modified, l', x) {
      assert Ready(modified, l, x);
      if x !in l.heap {
        var i :| 0 <= i < |Rest(l)| && Rest(l)[i] == x;
        assert Rest(l)[i] == l.arr[l.top + i];
        assert Rest(l')[i - (top - l.top)] == x;
      }
    }
  }

  /** Skips pool entries that are used or modified. */
  method SkipInvalid(l: Lists, used: set<Id>, modified: set<Id>,
                     ghost g: Graph, ghost totals: map<Id, Totals>, ghost queued: set<Id>, ghost h: Held)
    returns (top: nat)
    requires Waiting(g, totals, used, modified, queued, l, h)
    ensures l.top <= top <= |l.arr| && Waiting(g, totals, used, modified, queued, l.(top := top), h)
    ensures top < |l.arr| ==> l.arr[top] !in used && l.arr[top] !in modified
    ensures forall i :: l.top <= i < top ==> l.arr[i] in used || l.arr[i] in modified
  {
    hide *;
    WaitingParts(g, totals, used, modified, queued, l, h);
    SoundParts(g, modified, queued, l);
    top := l.top;
    while top < |l.arr| && (l.arr[top] in used || l.arr[top] in modified)
      invariant l.top <= top <= |l.arr|
      invariant forall i :: l.top <= i < top ==> l.arr[i] in used || l.arr[i] in modified
    {
      top := top + 1;
    }
    Skipped(g, totals, used, modified, queued, l, h, top);
  }

  // ---------- the next transaction ----------

  /** "next" has just been taken off the lists "l", and may still be set aside. */
  ghost predicate TakenOff(g: Graph, totals: map<Id, Totals>, modified: set<Id>, l: Lists, next: Id, h: Held) {
    && next in g && Unflagged(l.overflow + [next], modified) <= l.top
    && Descending(totals, l.overflow + [next] + Rest(l), modified)
    && (h.calm ==> Apart(totals, modified, l, next, h))
  }

  /** "next" waits nowhere and is not set aside, but for the twins, and comes before everything in the heap. */
  ghost predicate Apart(totals: map<Id, Totals>, modified: set<Id>, l: Lists, next: Id, h: Held) {
    && (next in l.heap || next in h.aside ==> next in h.twins) && (next in l.overflow ==> next in h.doubled + h.twins)
    && (next in Rest(l) ==> next in modified) && AboveHeap(totals, modified, l.heap, next)
  }

  lemma OneMoreUnflagged(s: seq<Id>, x: Id, modified: set<Id>)
    ensures Unflagged(s + [x], modified) == Unflagged(s, modified) + if x in modified then 0 else 1
  {
    assert (s + [x])[..|s|] == s;
  }

  lemma OffPool(g: Graph, totals: map<Id, Totals>, gone: set<Id>, modified: set<Id>, queued: set<Id>, l: Lists, h: Held)
    requires Waiting(g, totals, gone, modified, queued, l, h) && l.top < |l.arr| && l.arr[l.top] !in modified
    requires h.calm ==> AboveHeap(totals, modified, l.heap, l.arr[l.top])
    ensures Waiting(g, totals, gone + {l.arr[l.top]}, modified, queued, l.(top := l.top + 1), h)
    ensures TakenOff(g, totals, modified, l.(top := l.top + 1), l.arr[l.top], h)
  {
    hide *;
    var next, l' := l.arr[l.top], l.(top := l.top + 1);
    WaitingParts(g, totals, gone, modified, queued, l, h);
    SoundParts(g, modified, queued, l);
    WaitingForFewer(g, totals, gone, modified, queued, l, h, gone + {next});
    Skipped(g, totals, gone + {next}, modified, queued, l, h, l.top + 1);
    OneMoreUnflagged(l.overflow, next, modified);
    HeadOfRest(l);
    HeadApart(g, totals, modified, queued, l, l', h, next);
    IsTakenOff(g, totals, modified, l', next, h);
  }

  lemma HeadOfRest(l: Lists)
    requires l.top < |l.arr|
    ensures var next, l' := l.arr[l.top], l.(top := l.top + 1);
      Rest(l) == [next] + Rest(l') && l.overflow + Rest(l) == l.overflow + [next] + Rest(l')
  {
  }

  lemma HeadApart(g: Graph, totals: map<Id, Totals>, modified: set<Id>, queued: set<Id>, l: Lists, l': Lists, h: Held, next: Id)
    requires Orderly(totals, modified, queued, l, h) && Sound(g, modified, queued, l) && next !in modified
    requires Rest(l) == [next] + Rest(l') && l'.heap == l.heap && l'.overflow == l.overflow
    requires h.calm ==> AboveHeap(totals, modified, l.heap, next)
    ensures h.calm ==> Apart(totals, modified, l', next, h)
  {
    hide Singly, Unflagged, Rest, AboveHeap;
    assert next in Rest(l) && Rest(l)[0] == next;
    assert next in l.heap ==> next in Elements(l.heap);
    assert forall i :: 0 <= i < |Rest(l')| ==> Rest(l')[i] == Rest(l)[i + 1];
  }

  lemma OrderlyOffHeap(totals: map<Id, Totals>, modified: set<Id>, queued: set<Id>, l: Lists, h: Held, i: nat)
    requires Orderly(totals, modified, queued, l, h) && i < |l.heap|
    ensures var next := l.heap[i]; var rest := l.heap[..i] + l.heap[i + 1..];
      Orderly(totals, modified, queued - {next}, l.(heap := rest), h)
  {
    var next, rest := l.heap[i], l.heap[..i] + l.heap[i + 1..];
    assert Rest(l.(heap := rest)) == Rest(l);
    forall k | 0 <= k < |rest| ensures rest[k] in Elements(l.heap) && rest[k] == l.heap[if k < i then k else k + 1] {
    }
    if h.calm {
      forall k | 0 <= k < |rest| ensures rest[k] in queued - {next} || rest[k] in h.twins {
        var k' := if k < i then k else k + 1;
        assert rest[k] == l.heap[k'];
        assert rest[k] == next ==> next in h.twins;
      }
      forall j, k | 0 <= j < k < |rest| && rest[j] == rest[k] ensures rest[j] in h.twins {
        assert rest[j] == l.heap[if j < i then j else j + 1] && rest[k] == l.heap[if k < i then k else k + 1];
      }
      assert Elements(rest) <= Elements(l.heap);
      hide Distinct, Above, Rest, Single;
      forall r | r in h.lead ensures AboveHeap(totals, modified, rest, r) {
        assert AboveHeap(totals, modified, l.heap, r);
      }
    }
  }

  lemma HeapApart(g: Graph, totals: map<Id, Totals>, modified: set<Id>, queued: set<Id>, l: Lists, h: Held, i: nat)
    requires Orderly(totals, modified, queued, l, h) && Sound(g, modified, queued, l) && i < |l.heap|
    requires h.calm ==> AboveHeap(totals, modified, l.heap[..i] + l.heap[i + 1..], l.heap[i])
    ensures h.calm ==> Apart(totals, modified, l.(heap := l.heap[..i] + l.heap[i + 1..]), l.heap[i], h)
  {
    var next, rest := l.heap[i], l.heap[..i] + l.heap[i + 1..];
    hide AboveHeap, Unflagged;
    assert next in Elements(l.heap);
    if h.calm && next in rest {
      var k :| 0 <= k < |rest| && rest[k] == next;
      assert rest[k] == l.heap[if k < i then k else k + 1];
    }
  }

  lemma OffHeap(g: Graph, totals: map<Id, Totals>, gone: set<Id>, modified: set<Id>, queued: set<Id>, l: Lists, h: Held, i: nat)
    requires Waiting(g, totals, gone, modified, queued, l, h) && i < |l.heap|
    requires h.calm ==> AboveHeap(totals, modified, l.heap[..i] + l.heap[i + 1..], l.heap[i])
    ensures var next := l.heap[i]; var l' := l.(heap := l.heap[..i] + l.heap[i + 1..]);
      && Waiting(g, totals, gone + {next}, modified, queued - {next}, l', h)
      && TakenOff(g, totals, modified, l', next, h)
  {
    hide *;
    var next, l' := l.heap[i], l.(heap := l.heap[..i] + l.heap[i + 1..]);
    WaitingParts(g, totals, gone, modified, queued, l, h);
    SoundParts(g, modified, queued, l);
    SameRest(l, l');
    SoundOffHeap(g, modified, queued, l, i);
    PromptOffHeap(g, gone, modified, l, h.aside, i);
    DescendingInsert(totals, l.overflow, next, Rest(l), modified);
    OneMoreUnflagged(l.overflow, next, modified);
    OrderlyOffHeap(totals, modified, queued, l, h, i);
    HeapApart(g, totals, modified, queued, l, h, i);
    IsWaiting(g, totals, gone + {next}, modified, queued - {next}, l', h);
    IsTakenOff(g, totals, modified, l', next, h);
  }

  lemma SoundOffHeap(g: Graph, modified: set<Id>, queued: set<Id>, l: Lists, i: nat)
    requires Sound(g, modified, queued, l) && i < |l.heap|
    ensures Sound(g, modified, queued - {l.heap[i]}, l.(heap := l.heap[..i] + l.heap[i + 1..]))
  {
    var next, rest := l.heap[i], l.heap[..i] + l.heap[i + 1..];
    assert l.heap == l.heap[..i] + [next] + l.heap[i + 1..];
    assert forall x :: x in l.heap <==> x == next || x in rest;
    assert forall x :: x in Elements(rest) ==> x in Elements(l.heap);
    assert forall x :: x in Elements(l.heap) && x != next ==> x in Elements(rest);
    hide Unflagged;
  }

  lemma PromptOffHeap(g: Graph, gone: set<Id>, modified: set<Id>, l: Lists, aside: set<Id>, i: nat)
    requires Prompt(g, gone, modified, l, aside) && i < |l.heap|
    ensures Prompt(g, gone + {l.heap[i]}, modified, l.(heap := l.heap[..i] + l.heap[i + 1..]), aside)
  {
    var next, rest := l.heap[i], l.heap[..i] + l.heap[i + 1..];
    assert l.heap == l.heap[..i] + [next] + l.heap[i + 1..];
    forall x | x in g && x !in gone + {next} && x !in aside ensures Ready(modified, l.(heap := rest), x) {
      assert Ready(modified, l, x);
      assert x in l.heap ==> x in rest;
    }
  }

  lemma IsTakenOff(g: Graph, totals: map<Id, Totals>, modified: set<Id>, l: Lists, next: Id, h: Held)
    requires next in g && Unflagged(l.overflow + [next], modified) <= l.top
    requires Descending(totals, l.overflow + [next] + Rest(l), modified)
    requires h.calm ==> Apart(totals, modified, l, next, h)
    ensures TakenOff(g, totals, modified, l, next, h)
  {
    hide Descending, Unflagged, Rest, Apart;
  }

  lemma TakenOffParts(g: Graph, totals: map<Id, Totals>, modified: set<Id>, l: Lists, next: Id, h: Held)
    requires TakenOff(g, totals, modified, l, next, h)
    ensures next in g && Unflagged(l.overflow + [next], modified) <= l.top && Descending(totals, l.overflow + [next] + Rest(l), modified)
    ensures h.calm ==> Apart(totals, modified, l, next, h) && (next !in h.aside || next in h.twins)
  {
  }

  lemma SameRest(l: Lists, l': Lists)
    requires l' == l.(heap := l'.heap)
    ensures Rest(l') == Rest(l)
  {
  }

  ghost predicate BestEntry(heap: seq<Id>, totals: map<Id, Totals>, i: int) {
    0 <= i < |heap| && forall k :: 0 <= k < |heap| ==> !Beats(totals, heap[k], heap[i])
  }

  /** Stands for the root of the heap, and promises what is known of that: it is the best entry as long as no
      transaction with several nodes was given a new score. */
  method Peek(heap: seq<Id>, totals: map<Id, Totals>, ghost steady: bool) returns (i: nat)
    requires heap != [] && forall k :: 0 <= k < |heap| ==> heap[k] in totals
    ensures i < |heap| && (steady ==> BestEntry(heap, totals, i))
  {
    i := 0;
    for k := 1 to |heap|
      invariant i < k && forall j :: 0 <= j < k ==> !Beats(totals, heap[j], heap[i])
    {
      var a, b := heap[k], heap[i];
      if totals[a].score > totals[b].score || (totals[a].score == totals[b].score && a > b) {
        i := k;
      }
    }
  }

  lemma PoolAbove(totals: map<Id, Totals>, modified: set<Id>, heap: seq<Id>, head: nat, next: Id)
    requires next in totals && forall k :: 0 <= k < |heap| ==> heap[k] in totals
    requires heap != [] ==> BestEntry(heap, totals, head) && totals[next].score > totals[heap[head]].score
    ensures AboveHeap(totals, modified, heap, next)
  {
  }

  lemma HeapAbove(totals: map<Id, Totals>, modified: set<Id>, heap: seq<Id>, head: nat)
    requires BestEntry(heap, totals, head) && heap[head] in modified && forall k :: 0 <= k < |heap| ==> heap[k] in totals
    ensures AboveHeap(totals, modified, heap[..head] + heap[head + 1..], heap[head])
  {
    var rest := heap[..head] + heap[head + 1..];
    forall k | 0 <= k < |rest| ensures rest[k] == heap[head] || Above(totals, modified, heap[head], rest[k]) {
      var j := if k < head then k else k + 1;
      assert rest[k] == heap[j];
      assert !Beats(totals, heap[j], heap[head]);
    }
  }

  lemma BetterHeadIsBest(g: Graph, totals: map<Id, Totals>, gone: set<Id>, modified: set<Id>, l: Lists, aside: set<Id>, head: nat, next: Id)
    requires totals.Keys == g.Keys && Prompt(g, gone, modified, l, aside) && Descending(totals, l.overflow + Rest(l), modified) && next in g
    requires l.top < |l.arr| ==> l.arr[l.top] in g && l.arr[l.top] !in modified && totals[l.arr[l.top]].score <= totals[next].score
    requires l.heap != [] ==> BestEntry(l.heap, totals, head) && l.heap[head] in g && totals[l.heap[head]].score <= totals[next].score
    ensures Best(g, totals, gone, aside, next)
  {
    forall x | x in g && x !in gone && x !in aside ensures totals[x].score <= totals[next].score {
      assert Ready(modified, l, x);
      if x in l.heap {
        var k :| 0 <= k < |l.heap| && l.heap[k] == x;
        assert !Beats(totals, l.heap[k], l.heap[head]);
      } else {
        var k :| 0 <= k < |Rest(l)| && Rest(l)[k] == x;
        FirstIsBest(totals, l.overflow, Rest(l), modified, k);
        assert Rest(l)[0] == l.arr[l.top];
      }
    }
  }

  /** "r" has not been taken, waits, and comes before every taken transaction that is still in the heap. */
  ghost predicate Leader(totals: map<Id, Totals>, gone: set<Id>, modified: set<Id>, l: Lists, r: Id) {
    && r !in gone && (if r in modified then r in l.heap else r in Rest(l))
    && forall i :: 0 <= i < |l.heap| && l.heap[i] in gone ==> Above(totals, modified, r, l.heap[i])
  }

  ghost predicate Led(totals: map<Id, Totals>, gone: set<Id>, modified: set<Id>, l: Lists) {
    exists r :: Leader(totals, gone, modified, l, r)
  }

  lemma LedSkipped(totals: map<Id, Totals>, gone: set<Id>, modified: set<Id>, l: Lists, top: nat)
    requires Led(totals, gone, modified, l) && l.top <= top <= |l.arr|
    requires forall i :: l.top <= i < top ==> l.arr[i] in gone || l.arr[i] in modified
    ensures Led(totals, gone, modified, l.(top := top))
  {
    var r, l' :| Leader(totals, gone, modified, l, r) && l' == l.(top := top);
    if r !in modified {
      var i :| 0 <= i < |Rest(l)| && Rest(l)[i] == r;
      assert Rest(l)[i] == l.arr[l.top + i];
      assert Rest(l')[i - (top - l.top)] == r;
    }
    assert Leader(totals, gone, modified, l', r);
  }

  /** With a leader in the lists, what is chosen has not been taken. */
  lemma LedChoice(totals: map<Id, Totals>, gone: set<Id>, modified: set<Id>, l: Lists, head: nat)
    requires Led(totals, gone, modified, l) && Descending(totals, l.overflow + Rest(l), modified)
    requires l.top < |l.arr| ==> l.arr[l.top] !in gone && l.arr[l.top] !in modified && l.arr[l.top] in totals
    requires l.heap != [] ==> BestEntry(l.heap, totals, head)
    ensures l.top < |l.arr| || l.heap != []
    ensures l.heap != [] && l.heap[head] in gone ==>
      l.top < |l.arr| && l.heap[head] in totals && totals[l.arr[l.top]].score > totals[l.heap[head]].score
  {
    var r :| Leader(totals, gone, modified, l, r);
    if r in modified {
      var k :| 0 <= k < |l.heap| && l.heap[k] == r;
      assert !Beats(totals, l.heap[k], l.heap[head]);
    } else {
      var k :| 0 <= k < |Rest(l)| && Rest(l)[k] == r;
      assert Rest(l)[0] == l.arr[l.top];
      if r in totals { FirstIsBest(totals, l.overflow, Rest(l), modified, k); }
    }
  }

  /** The pool's next entry if it beats the heap's, else the heap's. A popped entry has no live node any more. */
  method SelectNext(l: Lists, totals: map<Id, Totals>, queued: set<Id>, ghost g: Graph, ghost gone: set<Id>, ghost modified: set<Id>,
                    ghost h: Held)
    returns (next: Option<Id>, l': Lists, queued': set<Id>)
    requires Waiting(g, totals, gone, modified, queued, l, h) && totals.Keys == g.Keys
    requires l.top < |l.arr| ==> l.arr[l.top] !in gone && l.arr[l.top] !in modified
    ensures next.None? ==> l' == l && queued' == queued && QueueEmpty(l)
    ensures next.Some? ==> Waiting(g, totals, gone + {next.value}, modified, queued', l', h)
    ensures next.Some? ==> TakenOff(g, totals, modified, l', next.value, h) && next.value in g
    ensures next.Some? && h.calm ==> Best(g, totals, gone, h.aside, next.value)
    ensures next.Some? ==> l'.overflow == l.overflow && Unread(l') < Unread(l)
    ensures h.calm && Led(totals, gone, modified, l) ==> next.Some? && next.value !in gone
  {
    hide *;
    WaitingParts(g, totals, gone, modified, queued, l, h);
    SoundParts(g, modified, queued, l);
    IsQueueEmpty(l);
    l', queued', next := l, queued, None;
    var head := 0;
    if l.heap != [] {
      head := Peek(l.heap, totals, h.calm);
    }
    if h.calm {
      if Led(totals, gone, modified, l) { LedChoice(totals, gone, modified, l, head); }
    }
    if l.top < |l.arr| && (l.heap == [] || totals[l.arr[l.top]].score > totals[l.heap[head]].score) {
      next, l' := Some(l.arr[l.top]), l.(top := l.top + 1);
      if h.calm { PoolAbove(totals, modified, l.heap, head, l.arr[l.top]); }
      OffPool(g, totals, gone, modified, queued, l, h);
      if h.calm { BetterHeadIsBest(g, totals, gone, modified, l, h.aside, head, l.arr[l.top]); }
    } else if l.heap != [] {
      next, l' := Some(l.heap[head]), l.(heap := l.heap[..head] + l.heap[head + 1..]);
      queued' := queued - {l.heap[head]};
      if h.calm { HeapAbove(totals, modified, l.heap, head); }
      OffHeap(g, totals, gone, modified, queued, l, h, head);
      if h.calm { BetterHeadIsBest(g, totals, gone, modified, l, h.aside, head, l.heap[head]); }
    }
    if next.Some? {
      TakenOffParts(g, totals, modified, l', next.value, h);
      UnreadLess(l, l');
    }
  }

  /** Entries still to be read, in the pool and in the heap. */
  ghost function Unread(l: Lists): nat {
    if l.top <= |l.arr| then |l.arr| - l.top + |l.heap| else 0
  }

  ghost predicate QueueEmpty(l: Lists) {
    l.top >= |l.arr| && l.heap == []
  }

  lemma IsQueueEmpty(l: Lists)
    ensures QueueEmpty(l) <==> l.top >= |l.arr| && l.heap == []
  {
  }

  lemma UnreadLess(l: Lists, l': Lists)
    requires l.top <= |l.arr| && l'.arr == l.arr
    requires (l.top < |l.arr| && l' == l.(top := l.top + 1)) || (|l'.heap| == |l.heap| - 1 && l'.top == l.top)
    ensures Unread(l') < Unread(l)
  {
  }

  lemma UnreadSkipped(l: Lists, top: nat)
    requires l.top <= top <= |l.arr|
    ensures Unread(l.(top := top)) <= Unread(l)
  {
  }

  lemma UnreadOverflow(l: Lists, overflow: seq<Id>)
    ensures Unread(l.(overflow := overflow)) == Unread(l)
  {
  }

  /** With nothing to read, everyone is taken or set aside. */
  lemma NobodyReady(g: Graph, gone: set<Id>, modified: set<Id>, l: Lists, aside: set<Id>)
    requires Prompt(g, gone, modified, l, aside) && QueueEmpty(l)
    ensures forall x :: x in g && x !in gone ==> x in aside && x in l.overflow
  {
    forall x | x in g && x !in gone ensures x in aside && x in l.overflow {
      NothingReady(modified, l, x);
      assert x in aside ==> x in Elements(l.overflow);
    }
  }

  lemma NothingReady(modified: set<Id>, l: Lists, x: Id)
    requires QueueEmpty(l)
    ensures !Ready(modified, l, x)
  {
  }

  // ---------- holding back ----------

  lemma AsideOrderly(totals: map<Id, Totals>, modified: set<Id>, queued: set<Id>, l: Lists, h: Held, next: Id)
    requires Orderly(totals, modified, queued, l, h) && (h.calm ==> Apart(totals, modified, l, next, h))
    ensures Orderly(totals, modified, queued, l.(overflow := l.overflow + [next]), SetBy(h, next))
  {
    hide Singly, AboveHeap;
    assert next in Elements(l.heap) ==> next in l.heap;
    assert Rest(l.(overflow := l.overflow + [next])) == Rest(l);
    hide Elements, Rest;
    if h.calm { SingleWith(l.overflow, h.aside, h.doubled + h.twins, next); }
    hide Single;
  }

  lemma SingleWith(overflow: seq<Id>, aside: set<Id>, more: set<Id>, next: Id)
    requires Single(overflow, aside, more) && (next in overflow ==> next in more)
    ensures Single(overflow + [next], aside + {next}, more)
  {
    var longer := overflow + [next];
    forall i, j | 0 <= i < j < |longer| && longer[i] == longer[j] ensures longer[i] in more {
      assert j == |overflow| ==> longer[i] in overflow;
    }
  }

  lemma SetAside(g: Graph, totals: map<Id, Totals>, gone: set<Id>, modified: set<Id>, queued: set<Id>, l: Lists, h: Held, next: Id)
    requires Waiting(g, totals, gone + {next}, modified, queued, l, h) && TakenOff(g, totals, modified, l, next, h)
    ensures Waiting(g, totals, gone, modified, queued, l.(overflow := l.overflow + [next]), SetBy(h, next))
  {
    hide *;
    var l' := l.(overflow := l.overflow + [next]);
    WaitingParts(g, totals, gone + {next}, modified, queued, l, h);
    TakenOffParts(g, totals, modified, l, next, h);
    AsideSound(g, modified, queued, l, next);
    AsidePrompt(g, gone, modified, l, h.aside, next);
    AsideOrderly(totals, modified, queued, l, h, next);
    SetByParts(h, next);
    OneMoreElement(l.overflow, next);
    IsWaiting(g, totals, gone, modified, queued, l', SetBy(h, next));
  }

  lemma SetByParts(h: Held, x: Id)
    ensures SetBy(h, x).aside == h.aside + {x} && SetBy(h, x).back == h.back + {x}
  {
  }

  lemma AsideSound(g: Graph, modified: set<Id>, queued: set<Id>, l: Lists, next: Id)
    requires Sound(g, modified, queued, l) && next in g && Unflagged(l.overflow + [next], modified) <= l.top
    ensures Sound(g, modified, queued, l.(overflow := l.overflow + [next])) && Rest(l.(overflow := l.overflow + [next])) == Rest(l)
  {
    hide Unflagged;
    OneMoreElement(l.overflow, next);
  }

  lemma AsidePrompt(g: Graph, gone: set<Id>, modified: set<Id>, l: Lists, aside: set<Id>, next: Id)
    requires Prompt(g, gone + {next}, modified, l, aside)
    ensures Prompt(g, gone, modified, l.(overflow := l.overflow + [next]), aside + {next})
  {
    var l' := l.(overflow := l.overflow + [next]);
    OneMoreElement(l.overflow, next);
    hide Elements;
    forall x | x in g && x !in gone && x !in aside + {next} ensures Ready(modified, l', x) {
      assert Ready(modified, l, x);
    }
  }

  // ---------- pushing what depends on a package ----------

  lemma {:induction false} UnflaggedShrinks(s: seq<Id>, modified: set<Id>, modified': set<Id>)
    requires modified <= modified'
    ensures Unflagged(s, modified') <= Unflagged(s, modified)
  {
    if s != [] { UnflaggedShrinks(s[..|s| - 1], modified, modified'); }
  }

  /** The lists once what depends on a retired transaction is in the heap: whoever is pushed is not set aside
      any more, and if anyone set aside was, a stale entry will be left when the block is closed. */
  lemma Pushed(g: Graph, anc: Links, unit: nat, c: Caches, c': Caches, gone: set<Id>, root: Id, taken: set<Id>, l: Lists,
               h: Held, pushed: seq<Id>)
    requires Dag(g, anc) && Consistent(g, anc, unit, c.ancestorMap, c.totals, gone)
    requires Consistent(g, anc, unit, c'.ancestorMap, c'.totals, gone + {root})
    requires Queues(anc, c, c', root, true, g.Keys, pushed)
    requires Waiting(g, c.totals, taken, c.modified, c.queued, l, h)
    ensures Waiting(g, c'.totals, taken, c'.modified, c'.queued, l.(heap := l.heap + pushed), PushedFrom(h, Dependents(anc, root)))
  {
    hide *;
    var d, l' := Dependents(anc, root), l.(heap := l.heap + pushed);
    WaitingParts(g, c.totals, taken, c.modified, c.queued, l, h);
    SoundParts(g, c.modified, c.queued, l);
    PushedParts(g, anc, c, c', root, l, pushed);
    PushedSound(g, c.modified, c.queued, l, pushed);
    PushedPrompt(g, taken, c.modified, c.queued, l, h.aside, d, pushed);
    forall x | x in g && x !in c'.modified ensures x in c.totals && x in c'.totals && c'.totals[x] == c.totals[x] {
      TotalsKept(g, anc, unit, c, c', gone, root, x);
    }
    SameRest(l, l');
    StillDescending(g, c.totals, c'.totals, l.overflow + Rest(l), c.modified, c'.modified);
    PushedOrderly(c.totals, c'.totals, c.modified, c.queued, l, h, d, pushed);
    PushedFromParts(h, d);
    IsWaiting(g, c'.totals, taken, c'.modified, c'.queued, l', PushedFrom(h, d));
  }

  lemma PushedFromParts(h: Held, d: set<Id>)
    ensures PushedFrom(h, d).aside == h.aside - d && PushedFrom(h, d).back == h.back
  {
  }

  lemma PushedParts(g: Graph, anc: Links, c: Caches, c': Caches, root: Id, l: Lists, pushed: seq<Id>)
    requires Dag(g, anc) && Queues(anc, c, c', root, true, g.Keys, pushed) && c.queued <= Elements(l.heap) <= c.modified
    ensures var d := Dependents(anc, root);
      && Distinct(pushed) && Elements(pushed) == d - c.queued && Elements(pushed) <= g.Keys && d <= c'.modified
      && c'.modified == c.modified + Elements(pushed) && c'.queued == c.queued + Elements(pushed)
  {
    hide Distinct;
  }

  lemma PushedSound(g: Graph, modified: set<Id>, queued: set<Id>, l: Lists, pushed: seq<Id>)
    requires Sound(g, modified, queued, l) && Elements(pushed) <= g.Keys
    ensures Sound(g, modified + Elements(pushed), queued + Elements(pushed), l.(heap := l.heap + pushed))
  {
    UnflaggedShrinks(l.overflow, modified, modified + Elements(pushed));
    hide Unflagged;
    assert Elements(l.heap + pushed) == Elements(l.heap) + Elements(pushed);
  }

  lemma PushedPrompt(g: Graph, gone: set<Id>, modified: set<Id>, queued: set<Id>, l: Lists, aside: set<Id>, d: set<Id>, pushed: seq<Id>)
    requires Prompt(g, gone, modified, l, aside) && queued <= Elements(l.heap) && Elements(pushed) == d - queued
    ensures Prompt(g, gone, modified + Elements(pushed), l.(heap := l.heap + pushed), aside - d)
  {
    var l' := l.(heap := l.heap + pushed);
    forall x | x in g && x !in gone && x !in aside - d ensures Ready(modified + Elements(pushed), l', x) {
      if x in Elements(pushed) {
        assert x in pushed;
      } else if x in aside {
        assert x in Elements(l.heap);
      } else {
        assert Ready(modified, l, x);
      }
    }
  }

  lemma PushedOrderly(totals: map<Id, Totals>, totals': map<Id, Totals>, modified: set<Id>, queued: set<Id>, l: Lists, h: Held, d: set<Id>, pushed: seq<Id>)
    requires Orderly(totals, modified, queued, l, h) && Distinct(pushed) && Elements(pushed) == d - queued && d <= modified + Elements(pushed)
    ensures Orderly(totals', modified + Elements(pushed), queued + Elements(pushed), l.(heap := l.heap + pushed), PushedFrom(h, d))
  {
    var heap := l.heap + pushed;
    SameRest(l, l.(heap := heap));
    hide AboveHeap;
    if h.calm && h.twins !! d {
      PushedSingly(l.heap, queued, h.twins, pushed);
      assert Elements(heap) == Elements(l.heap) + Elements(pushed);
      hide Rest, Singly, Elements;
      forall i | 0 <= i < |l.overflow| ensures l.overflow[i] in h.aside - d || l.overflow[i] in h.doubled + h.aside * d + h.twins {
      }
    }
  }

  lemma PushedSingly(heap: seq<Id>, queued: set<Id>, twins: set<Id>, pushed: seq<Id>)
    requires Singly(heap, queued, twins) && Distinct(pushed) && Elements(pushed) !! queued && Elements(pushed) !! twins
    ensures Singly(heap + pushed, queued + Elements(pushed), twins)
  {
    var more := heap + pushed;
    forall i | 0 <= i < |more| ensures more[i] in queued + Elements(pushed) || more[i] in twins {
      assert i >= |heap| ==> more[i] in pushed;
    }
    forall i, j | 0 <= i < j < |more| && more[i] == more[j] ensures more[i] in twins {
      assert j >= |heap| ==> more[j] in Elements(pushed);
    }
  }

  // ---------- putting back ----------

  /** Everything held back is in the heap if it was modified, and else unread, and nothing else is new in the heap. */
  ghost predicate PutBack(l: Lists, modified: set<Id>, l': Lists) {
    && Elements(l'.heap) <= Elements(l.heap) + Elements(l.overflow)
    && forall i :: 0 <= i < |l.overflow| ==>
      (l.overflow[i] in modified ==> l.overflow[i] in l'.heap) && (l.overflow[i] !in modified ==> l.overflow[i] in Rest(l'))
  }

  /** The same on the way, with part of the list still held back. */
  ghost predicate PuttingBack(l: Lists, modified: set<Id>, l': Lists) {
    && l'.overflow <= l.overflow && Elements(l'.heap) <= Elements(l.heap) + Elements(l.overflow)
    && forall i :: |l'.overflow| <= i < |l.overflow| ==>
      (l.overflow[i] in modified ==> l.overflow[i] in l'.heap) && (l.overflow[i] !in modified ==> l.overflow[i] in Rest(l'))
  }

  lemma PutBackOne(l: Lists, modified: set<Id>, l1: Lists, l2: Lists)
    requires PuttingBack(l, modified, l1) && l1.overflow != [] && l2.overflow == l1.overflow[..|l1.overflow| - 1]
    requires var o := l1.overflow[|l1.overflow| - 1];
      if o in modified then l2.heap == l1.heap + [o] && Rest(l2) == Rest(l1) else l2.heap == l1.heap && Rest(l2) == [o] + Rest(l1)
    ensures PuttingBack(l, modified, l2)
  {
    var n := |l2.overflow|;
    var o := l1.overflow[n];
    assert l.overflow[n] == o && o in Elements(l.overflow);
    hide Rest;
    if o in modified {
      OneMoreElement(l1.heap, o);
      assert l2.heap[|l1.heap|] == o;
    } else {
      assert Rest(l2)[0] == o;
    }
    forall i | n < i < |l.overflow|
      ensures (l.overflow[i] in modified ==> l.overflow[i] in l2.heap) && (l.overflow[i] !in modified ==> l.overflow[i] in Rest(l2))
    {
    }
  }

  lemma PutBackAll(l: Lists, modified: set<Id>, l': Lists)
    requires PuttingBack(l, modified, l') && l'.overflow == []
    ensures PutBack(l, modified, l')
  {
  }

  lemma NothingPutBack(l: Lists, modified: set<Id>)
    ensures PuttingBack(l, modified, l)
  {
  }

  /** Who of those set aside is still held back. */
  ghost function StillHeld(h: Held, l: Lists): Held {
    Held(h.aside * Elements(l.overflow), Elements(l.overflow), {}, h.calm, {}, h.twins + h.doubled)
  }

  /** What was held back waits again: modified transactions in the heap, the others in the pool, in front of
      the read position and over entries that have been read. */
  method Requeue(l: Lists, modified: set<Id>, queued: set<Id>, ghost g: Graph, ghost totals: map<Id, Totals>, ghost gone: set<Id>,
                 ghost h: Held)
    returns (l': Lists, queued': set<Id>)
    requires Waiting(g, totals, gone, modified, queued, l, h)
    ensures Waiting(g, totals, gone, modified, queued', l', Reopened(h)) && l'.overflow == []
    ensures PutBack(l, modified, l')
  {
    hide *;
    l', queued' := l, queued;
    HeldAtFirst(g, totals, gone, modified, queued, l, h);
    NothingPutBack(l, modified);
    while l'.overflow != []
      invariant Waiting(g, totals, gone, modified, queued', l', StillHeld(h, l')) && PuttingBack(l, modified, l')
      decreases |l'.overflow|
    {
      var o, rest, l1 := l'.overflow[|l'.overflow| - 1], l'.overflow[..|l'.overflow| - 1], l';
      Requeued(g, totals, gone, modified, queued', l', h);
      if o in modified {
        l', queued' := l'.(heap := l'.heap + [o], overflow := rest), queued' + {o};
      } else {
        var top := l'.top - 1;
        l' := l'.(arr := l'.arr[top := o], top := top, overflow := rest);
      }
      PutBackOne(l, modified, l1, l');
    }
    NobodyHeld(l', h);
    PutBackAll(l, modified, l');
  }

  lemma HeldAtFirst(g: Graph, totals: map<Id, Totals>, gone: set<Id>, modified: set<Id>, queued: set<Id>, l: Lists, h: Held)
    requires Waiting(g, totals, gone, modified, queued, l, h)
    ensures Waiting(g, totals, gone, modified, queued, l, StillHeld(h, l))
  {
    assert h.aside * Elements(l.overflow) == h.aside;
    hide Sound, Ready, Elements, Descending, Distinct, AboveHeap, Rest;
    if h.calm {
      assert Single(l.overflow, h.aside, {} + (h.twins + h.doubled)) by { assert {} + (h.twins + h.doubled) == h.doubled + h.twins; }
    }
    hide Single;
  }

  lemma NobodyHeld(l: Lists, h: Held)
    requires l.overflow == []
    ensures StillHeld(h, l) == Reopened(h)
  {
  }

  lemma Requeued(g: Graph, totals: map<Id, Totals>, gone: set<Id>, modified: set<Id>, queued: set<Id>, l: Lists, h: Held)
    requires l.overflow != [] && Waiting(g, totals, gone, modified, queued, l, StillHeld(h, l))
    ensures var o, rest := l.overflow[|l.overflow| - 1], l.overflow[..|l.overflow| - 1];
      && (o in modified ==>
            var l' := l.(heap := l.heap + [o], overflow := rest);
            Waiting(g, totals, gone, modified, queued + {o}, l', StillHeld(h, l')) && Rest(l') == Rest(l))
      && (o !in modified ==> 0 < l.top <= |l.arr|)
      && (o !in modified ==>
            var l' := l.(arr := l.arr[l.top - 1 := o], top := l.top - 1, overflow := rest);
            Waiting(g, totals, gone, modified, queued, l', StillHeld(h, l')) && Rest(l') == [o] + Rest(l))
  {
    hide *;
    var o, rest := l.overflow[|l.overflow| - 1], l.overflow[..|l.overflow| - 1];
    assert l.overflow == rest + [o];
    WaitingParts(g, totals, gone, modified, queued, l, StillHeld(h, l));
    SoundParts(g, modified, queued, l);
    OneMoreUnflagged(rest, o, modified);
    OneMoreElement(rest, o);
    if o in modified {
      OntoHeap(g, totals, gone, modified, queued, l, h, rest, o);
    } else {
      OntoPool(g, totals, gone, modified, queued, l, h, rest, o);
    }
  }

  lemma OneMoreElement(s: seq<Id>, x: Id)
    ensures Elements(s + [x]) == Elements(s) + {x}
  {
  }

  lemma OntoHeap(g: Graph, totals: map<Id, Totals>, gone: set<Id>, modified: set<Id>, queued: set<Id>, l: Lists, h: Held, rest: seq<Id>, o: Id)
    requires l.overflow == rest + [o] && o in modified && Elements(l.overflow) == Elements(rest) + {o}
    requires Sound(g, modified, queued, l) && Unflagged(rest, modified) <= l.top
    requires Prompt(g, gone, modified, l, StillHeld(h, l).aside) && Descending(totals, l.overflow + Rest(l), modified)
    requires Orderly(totals, modified, queued, l, StillHeld(h, l))
    ensures var l' := l.(heap := l.heap + [o], overflow := rest);
      Waiting(g, totals, gone, modified, queued + {o}, l', StillHeld(h, l')) && Rest(l') == Rest(l)
  {
    hide *;
    var l' := l.(heap := l.heap + [o], overflow := rest);
    assert l.overflow + Rest(l) == rest + ([o] + Rest(l));
    assert ([o] + Rest(l))[1..] == Rest(l);
    DescendingSkip(totals, rest, [o] + Rest(l), 1, modified);
    OntoHeapSound(g, modified, queued, l, rest, o);
    StillHeldParts(h, l);
    StillHeldParts(h, l');
    OntoHeapPrompt(g, gone, modified, l, h.aside, rest, o);
    OntoHeapOrderly(totals, modified, queued, l, h, rest, o);
    IsWaiting(g, totals, gone, modified, queued + {o}, l', StillHeld(h, l'));
  }

  lemma StillHeldParts(h: Held, l: Lists)
    ensures StillHeld(h, l).aside == h.aside * Elements(l.overflow) && StillHeld(h, l).back == Elements(l.overflow)
  {
  }

  lemma OntoHeapSound(g: Graph, modified: set<Id>, queued: set<Id>, l: Lists, rest: seq<Id>, o: Id)
    requires Sound(g, modified, queued, l) && l.overflow == rest + [o] && o in modified && Unflagged(rest, modified) <= l.top
    requires Elements(l.overflow) == Elements(rest) + {o}
    ensures var l' := l.(heap := l.heap + [o], overflow := rest); Sound(g, modified, queued + {o}, l') && Rest(l') == Rest(l)
  {
    OneMoreElement(l.heap, o);
    hide Unflagged, Elements;
  }

  lemma OntoHeapPrompt(g: Graph, gone: set<Id>, modified: set<Id>, l: Lists, aside: set<Id>, rest: seq<Id>, o: Id)
    requires Prompt(g, gone, modified, l, aside * Elements(l.overflow)) && Elements(l.overflow) == Elements(rest) + {o}
    ensures Prompt(g, gone, modified, l.(heap := l.heap + [o], overflow := rest), aside * Elements(rest))
  {
    var l' := l.(heap := l.heap + [o], overflow := rest);
    assert Rest(l') == Rest(l);
    hide Elements, Rest;
    forall x | x in g && x !in gone && x !in aside * Elements(rest) ensures Ready(modified, l', x) {
      if x != o { assert Ready(modified, l, x); }
    }
  }

  lemma OntoHeapOrderly(totals: map<Id, Totals>, modified: set<Id>, queued: set<Id>, l: Lists, h: Held, rest: seq<Id>, o: Id)
    requires Orderly(totals, modified, queued, l, StillHeld(h, l)) && l.overflow == rest + [o] && Elements(l.overflow) == Elements(rest) + {o}
    ensures var l' := l.(heap := l.heap + [o], overflow := rest); Orderly(totals, modified, queued + {o}, l', StillHeld(h, l'))
  {
    var l', twins := l.(heap := l.heap + [o], overflow := rest), h.twins + h.doubled;
    assert Rest(l') == Rest(l);
    hide Rest;
    if h.calm {
      SingleFront(l.overflow, h.aside * Elements(l.overflow), {} + twins, rest, o);
      assert {} + twins == twins;
      OneMoreElement(l.heap, o);
      assert o in l.heap ==> o in Elements(l.heap);
      assert o in Elements(rest) <==> o in rest;
      HeapWith(l.heap, queued, twins, o);
      assert Single(rest, h.aside * Elements(rest), {} + twins);
      hide Elements, Singly, Single;
    }
  }

  lemma SingleFront(s: seq<Id>, aside: set<Id>, more: set<Id>, rest: seq<Id>, o: Id)
    requires Single(s, aside, more) && s == rest + [o] && aside <= Elements(s)
    ensures Single(rest, aside * Elements(rest), more) && (o in rest ==> o in more) && (o in aside || o in more)
  {
    assert s[|rest|] == o;
    forall i | 0 <= i < |rest| ensures s[i] == rest[i] && rest[i] in Elements(rest) {
    }
    if o in rest {
      var i :| 0 <= i < |rest| && rest[i] == o;
      assert s[i] == s[|rest|];
    }
  }

  lemma HeapWith(heap: seq<Id>, queued: set<Id>, twins: set<Id>, o: Id)
    requires Singly(heap, queued, twins) && (o in heap ==> o in twins)
    ensures Singly(heap + [o], queued + {o}, twins)
  {
    var more := heap + [o];
    forall i, j | 0 <= i < j < |more| && more[i] == more[j] ensures more[i] in twins {
      assert j == |heap| ==> more[i] in heap;
    }
  }

  lemma OntoPool(g: Graph, totals: map<Id, Totals>, gone: set<Id>, modified: set<Id>, queued: set<Id>, l: Lists, h: Held, rest: seq<Id>, o: Id)
    requires l.overflow == rest + [o] && o !in modified && Elements(l.overflow) == Elements(rest) + {o}
    requires Sound(g, modified, queued, l) && Unflagged(rest, modified) < l.top <= |l.arr|
    requires Prompt(g, gone, modified, l, StillHeld(h, l).aside) && Descending(totals, l.overflow + Rest(l), modified)
    requires Orderly(totals, modified, queued, l, StillHeld(h, l))
    ensures var l' := l.(arr := l.arr[l.top - 1 := o], top := l.top - 1, overflow := rest);
      Waiting(g, totals, gone, modified, queued, l', StillHeld(h, l')) && Rest(l') == [o] + Rest(l)
  {
    hide *;
    var l' := l.(arr := l.arr[l.top - 1 := o], top := l.top - 1, overflow := rest);
    PutInFront(l, rest, o);
    PutBackSound(g, modified, queued, l, rest, o);
    StillHeldParts(h, l);
    StillHeldParts(h, l');
    OntoPoolOrderly(totals, modified, queued, l, l', h, rest, o);
    PutBackPrompt(g, gone, modified, l, l', h.aside, rest, o);
    IsWaiting(g, totals, gone, modified, queued, l', StillHeld(h, l'));
  }

  lemma PutBackSound(g: Graph, modified: set<Id>, queued: set<Id>, l: Lists, rest: seq<Id>, o: Id)
    requires Sound(g, modified, queued, l) && l.overflow == rest + [o] && Unflagged(rest, modified) < l.top
    requires Elements(l.overflow) == Elements(rest) + {o}
    ensures Sound(g, modified, queued, l.(arr := l.arr[l.top - 1 := o], top := l.top - 1, overflow := rest))
  {
    var arr := l.arr[l.top - 1 := o];
    assert o in Elements(l.overflow);
    assert forall i :: 0 <= i < |arr| ==> arr[i] == o || arr[i] in Elements(l.arr);
    hide Unflagged;
  }

  lemma PutInFront(l: Lists, rest: seq<Id>, o: Id)
    requires l.overflow == rest + [o] && 0 < l.top <= |l.arr|
    ensures var l' := l.(arr := l.arr[l.top - 1 := o], top := l.top - 1, overflow := rest);
      && Rest(l') == [o] + Rest(l) && l'.overflow == rest && l'.heap == l.heap
      && rest + Rest(l') == l.overflow + Rest(l)
    ensures Elements(l.overflow) == Elements(rest) + {o}
  {
    hide Elements;
    OneMoreElement(rest, o);
    SliceInFront(l.arr, l.top, o);
    assert rest + ([o] + l.arr[l.top..]) == rest + [o] + l.arr[l.top..];
  }

  lemma SliceInFront(arr: seq<Id>, top: nat, o: Id)
    requires 0 < top <= |arr|
    ensures arr[top - 1 := o][top - 1..] == [o] + arr[top..]
  {
  }

  lemma PutBackPrompt(g: Graph, gone: set<Id>, modified: set<Id>, l: Lists, l': Lists, aside: set<Id>, rest: seq<Id>, o: Id)
    requires Prompt(g, gone, modified, l, aside * Elements(l.overflow)) && Elements(l.overflow) == Elements(rest) + {o} && o !in modified
    requires Rest(l') == [o] + Rest(l) && l'.heap == l.heap && l'.overflow == rest
    ensures Prompt(g, gone, modified, l', aside * Elements(rest))
  {
    hide Elements, Rest;
    forall x | x in g && x !in gone && x !in aside * Elements(rest) ensures Ready(modified, l', x) {
      if x != o { assert Ready(modified, l, x); }
    }
  }

  lemma OntoPoolOrderly(totals: map<Id, Totals>, modified: set<Id>, queued: set<Id>, l: Lists, l': Lists, h: Held, rest: seq<Id>, o: Id)
    requires Orderly(totals, modified, queued, l, StillHeld(h, l)) && l.overflow == rest + [o] && Elements(l.overflow) == Elements(rest) + {o}
    requires Rest(l') == [o] + Rest(l) && l'.heap == l.heap && l'.overflow == rest && o !in modified
    ensures Orderly(totals, modified, queued, l', StillHeld(h, l'))
  {
    var twins := h.twins + h.doubled;
    hide Rest, Singly;
    if h.calm {
      SingleFront(l.overflow, h.aside * Elements(l.overflow), {} + twins, rest, o);
      assert {} + twins == twins;
      assert o in Elements(rest) <==> o in rest;
      hide Elements, Single;
      assert o !in twins && o !in Rest(l);
      forall x | x in Rest(l') ensures x == o || x in Rest(l) {
      }
    }
  }

  /** If the run is calm, nobody held back has been taken, and somebody was refused since a package was last taken,
      then the lists have a leader once the block is closed. */
  lemma Leads(totals: map<Id, Totals>, gone: set<Id>, modified: set<Id>, queued: set<Id>, l: Lists, h: Held, l': Lists, r: Id)
    requires Orderly(totals, modified, queued, l, h) && h.calm && Elements(l.overflow) == h.back && h.back !! gone
    requires r in h.lead && h.lead <= h.back && PutBack(l, modified, l')
    ensures Led(totals, gone, modified, l')
  {
    assert r in Elements(l.overflow);
    assert AboveHeap(totals, modified, l.heap, r);
    hide Singly, Single, Distinct, Rest, Above;
    forall i | 0 <= i < |l'.heap| && l'.heap[i] in gone ensures Above(totals, modified, r, l'.heap[i]) {
      assert l'.heap[i] in Elements(l'.heap);
      assert l'.heap[i] in Elements(l.heap);
    }
    assert Leader(totals, gone, modified, l', r);
  }

  // ---------- the lists at the start ----------

  lemma WaitingAtStart(g: Graph, totals: map<Id, Totals>, arr: seq<Id>)
    requires Distinct(arr) && Elements(arr) == g.Keys && Descending(totals, arr, {})
    ensures Waiting(g, totals, {}, {}, {}, Lists(arr, 0, [], []), Held({}, {}, {}, true, {}, {}))
  {
    var l := Lists(arr, 0, [], []);
    assert Rest(l) == arr && l.overflow + Rest(l) == arr;
    assert Elements(l.overflow) == {} && Elements(l.heap) == {};
    assert Orderly(totals, {}, {}, l, Held({}, {}, {}, true, {}, {}));
    hide Descending, Orderly;
    forall x | x in g ensures Ready({}, l, x) {
      assert x in Elements(arr);
    }
  }
}
