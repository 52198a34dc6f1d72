/** The priority queue behind the worker's modified transactions: what it keeps, and when its root is the best. */
module PairingHeaps {
  import opened Collections

  /** A heap node: the handle it is known by, the element it holds, and its children, the newest first. */
  datatype Node = Node(id: nat, element: int, children: seq<Node>)

  datatype Entry = Entry(id: nat, element: int)

  type Scores = map<int, real>

  function ScoreOf(scores: Scores, x: int): real {
    if x in scores then scores[x] else 0.0
  }

  /** The comparator: is "a" of higher priority than "b"? Equal scores are decided by the elements themselves. */
  predicate Higher(scores: Scores, a: int, b: int) {
    ScoreOf(scores, a) > ScoreOf(scores, b) || (ScoreOf(scores, a) == ScoreOf(scores, b) && a > b)
  }

  /** "b" has the greater score, or the same and is not the smaller element; a missing score counts as 0. */
  ghost predicate NotAbove(scores: Scores, a: int, b: int) {
    var x, y := if a in scores then scores[a] else 0.0, if b in scores then scores[b] else 0.0;
    x < y || (x == y && a <= b)
  }

  // ---------- what is in a heap ----------

  ghost function Entries(n: Node): multiset<Entry> {
    multiset{Entry(n.id, n.element)} + AllEntries(n.children)
  }

  ghost function AllEntries(ns: seq<Node>): multiset<Entry> {
    if ns == [] then multiset{} else AllEntries(ns[..|ns| - 1]) + Entries(ns[|ns| - 1])
  }

  ghost function In(h: Option<Node>): multiset<Entry> {
    if h.None? then multiset{} else Entries(h.value)
  }

  lemma OneMore(ns: seq<Node>, n: Node)
    ensures AllEntries(ns + [n]) == AllEntries(ns) + Entries(n)
  {
    assert (ns + [n])[..|ns|] == ns;
  }

  lemma {:induction false} AppendEntries(ns: seq<Node>, ms: seq<Node>)
    ensures AllEntries(ns + ms) == AllEntries(ns) + AllEntries(ms)
  {
    if ms == [] {
      assert ns + ms == ns;
    } else {
      var k := |ms| - 1;
      assert ns + ms == ns + ms[..k] + [ms[k]] && ms == ms[..k] + [ms[k]];
      AppendEntries(ns, ms[..k]);
      OneMore(ns + ms[..k], ms[k]);
      OneMore(ms[..k], ms[k]);
    }
    hide Entries;
  }

  lemma OneEntry(n: Node)
    ensures AllEntries([n]) == Entries(n)
  {
    assert [n][..0] == [];
  }

  // ---------- order ----------

  /** Between live nodes a child is not of higher priority than its parent. */
  ghost predicate Edge(scores: Scores, live: set<nat>, p: Node, c: Node) {
    p.id in live && c.id in live ==> !Higher(scores, c.element, p.element)
  }

  ghost predicate Ordered(scores: Scores, live: set<nat>, n: Node) {
    forall i :: 0 <= i < |n.children| ==> Edge(scores, live, n, n.children[i]) && Ordered(scores, live, n.children[i])
  }

  ghost predicate AllOrdered(scores: Scores, live: set<nat>, ns: seq<Node>) {
    forall i :: 0 <= i < |ns| ==> Ordered(scores, live, ns[i])
  }

  ghost predicate OrderedHeap(scores: Scores, live: set<nat>, h: Option<Node>) {
    h.Some? ==> Ordered(scores, live, h.value)
  }

  /** If all nodes are live, the root is the best of them. */
  lemma {:induction false} RootIsBest(scores: Scores, live: set<nat>, n: Node, e: Entry)
    requires Ordered(scores, live, n) && (forall f :: f in Entries(n) ==> f.id in live) && e in Entries(n)
    ensures NotAbove(scores, e.element, n.element)
    decreases n
  {
    if e != Entry(n.id, n.element) {
      var k := InSome(n.children, e);
      var c := n.children[k];
      assert Entry(n.id, n.element) in Entries(n) && Entry(c.id, c.element) in Entries(c);
      ChildEntries(n.children, k);
      forall f | f in Entries(c) ensures f.id in live {
        assert f in Entries(n);
      }
      assert Edge(scores, live, n, c);
      RootIsBest(scores, live, c, e);
    }
  }

  lemma {:induction false} InSome(ns: seq<Node>, e: Entry) returns (k: nat)
    requires e in AllEntries(ns)
    ensures k < |ns| && e in Entries(ns[k])
  {
    var n := |ns| - 1;
    if e in Entries(ns[n]) {
      k := n;
    } else {
      k := InSome(ns[..n], e);
    }
  }

  lemma {:induction false} ChildEntries(ns: seq<Node>, k: nat)
    requires k < |ns|
    ensures Entries(ns[k]) <= AllEntries(ns)
  {
    if k < |ns| - 1 {
      ChildEntries(ns[..|ns| - 1], k);
    }
  }

  // ---------- melding ----------

  /** The one of higher priority gets the other as its first child. */
  function MeldNodes(scores: Scores, a: Node, b: Node): Node {
    if Higher(scores, a.element, b.element) then Node(a.id, a.element, [b] + a.children) else Node(b.id, b.element, [a] + b.children)
  }

  function Meld(scores: Scores, a: Option<Node>, b: Option<Node>): Option<Node> {
    if a.None? then b else if b.None? then a else Some(MeldNodes(scores, a.value, b.value))
  }

  lemma AdoptedOrdered(scores: Scores, live: set<nat>, p: Node, c: Node)
    requires Ordered(scores, live, p) && Ordered(scores, live, c) && Edge(scores, live, p, c)
    ensures Ordered(scores, live, Node(p.id, p.element, [c] + p.children))
    ensures Entries(Node(p.id, p.element, [c] + p.children)) == Entries(p) + Entries(c)
  {
    var n := Node(p.id, p.element, [c] + p.children);
    AppendEntries([c], p.children);
    OneEntry(c);
    forall i | 0 <= i < |n.children| ensures Edge(scores, live, n, n.children[i]) && Ordered(scores, live, n.children[i]) {
      assert i > 0 ==> n.children[i] == p.children[i - 1];
      assert i > 0 ==> Edge(scores, live, p, p.children[i - 1]);
    }
  }

  lemma MeldKeeps(scores: Scores, live: set<nat>, a: Option<Node>, b: Option<Node>)
    requires OrderedHeap(scores, live, a) && OrderedHeap(scores, live, b)
    ensures OrderedHeap(scores, live, Meld(scores, a, b))
    ensures In(Meld(scores, a, b)) == In(a) + In(b)
    ensures Meld(scores, a, b).Some? <==> a.Some? || b.Some?
  {
    if a.Some? && b.Some? {
      hide Ordered, Entries, AllEntries;
      if Higher(scores, a.value.element, b.value.element) {
        AdoptedOrdered(scores, live, a.value, b.value);
      } else {
        AdoptedOrdered(scores, live, b.value, a.value);
      }
    }
  }

  lemma NoEntries()
    ensures AllEntries([]) == multiset{}
  {
  }

  lemma Paired(nodes: seq<Node>, i: nat, j: nat, pairs: seq<Node>, current: Node)
    requires i < j <= |nodes| && j <= i + 2
    requires Entries(current) == Entries(nodes[i]) + (if j == i + 2 then Entries(nodes[i + 1]) else multiset{})
    requires AllEntries(pairs) == AllEntries(nodes[..i])
    ensures AllEntries([current] + pairs) == AllEntries(nodes[..j])
  {
    hide *;
    AppendEntries([current], pairs);
    OneEntry(current);
    assert nodes[..i + 1] == nodes[..i] + [nodes[i]];
    OneMore(nodes[..i], nodes[i]);
    if j == i + 2 {
      assert nodes[..j] == nodes[..i + 1] + [nodes[i + 1]];
      OneMore(nodes[..i + 1], nodes[i + 1]);
    }
  }

  lemma FirstPair(pairs: seq<Node>)
    requires pairs != []
    ensures AllEntries(pairs) == Entries(pairs[0]) + AllEntries(pairs[1..])
  {
    assert pairs == [pairs[0]] + pairs[1..];
    AppendEntries([pairs[0]], pairs[1..]);
    OneEntry(pairs[0]);
  }

  /** What melding at most two siblings comes to. */
  ghost function MeldFew(scores: Scores, nodes: seq<Node>): Option<Node>
    requires |nodes| <= 2
  {
    if nodes == [] then None else if |nodes| == 1 then Some(nodes[0]) else Some(MeldNodes(scores, nodes[0], nodes[1]))
  }

  lemma MeldNone(scores: Scores, a: Option<Node>)
    ensures Meld(scores, None, a) == a
    ensures forall b: Node, c: Node :: Meld(scores, Some(b), Some(c)) == Some(MeldNodes(scores, b, c))
  {
  }

  /** The first pass: the siblings in pairs from the left, the last pair first. */
  method PairUp(scores: Scores, nodes: seq<Node>, ghost live: set<nat>) returns (pairs: seq<Node>)
    requires AllOrdered(scores, live, nodes)
    ensures AllOrdered(scores, live, pairs) && AllEntries(pairs) == AllEntries(nodes)
    ensures nodes == [] ==> pairs == []
    ensures 0 < |nodes| <= 2 ==> pairs == [MeldFew(scores, nodes).value]
  {
    hide MeldNodes, Ordered, Entries, AllEntries, Meld;
    pairs := [];
    var i := 0;
    NoEntries();
    while i < |nodes|
      invariant i <= |nodes| && AllOrdered(scores, live, pairs)
      invariant AllEntries(pairs) == AllEntries(nodes[..i])
      invariant if i == 0 then pairs == [] else |nodes| <= 2 ==> i == |nodes| && pairs == [MeldFew(scores, nodes).value]
    {
      MeldNone(scores, None);
      var current, step := Some(nodes[i]), 1;
      if i + 1 < |nodes| {
        MeldKeeps(scores, live, Some(nodes[i]), Some(nodes[i + 1]));
        current, step := Meld(scores, Some(nodes[i]), Some(nodes[i + 1])), 2;
      }
      Paired(nodes, i, i + step, pairs, current.value);
      pairs := [current.value] + pairs;
      i := i + step;
    }
    assert nodes[..i] == nodes;
  }

  /** Melds a list of siblings: first in pairs from the left, then all pairs from the right. */
  method MergePairs(scores: Scores, nodes: seq<Node>, ghost live: set<nat>) returns (melded: Option<Node>)
    requires AllOrdered(scores, live, nodes)
    ensures OrderedHeap(scores, live, melded) && In(melded) == AllEntries(nodes)
    ensures |nodes| <= 2 ==> melded == MeldFew(scores, nodes)
  {
    hide MeldNodes, Ordered, Entries, AllEntries, Meld;
    NoEntries();
    var pairs := PairUp(scores, nodes, live);
    melded := None;
    while pairs != []
      invariant |nodes| <= 2 ==> |pairs| <= 1
      invariant |nodes| <= 2 && pairs != [] ==> melded == None && pairs == [MeldFew(scores, nodes).value]
      invariant |nodes| <= 2 && pairs == [] ==> melded == MeldFew(scores, nodes)
      invariant OrderedHeap(scores, live, melded) && AllOrdered(scores, live, pairs)
      invariant In(melded) + AllEntries(pairs) == AllEntries(nodes)
      decreases |pairs|
    {
      FirstPair(pairs);
      MeldKeeps(scores, live, melded, Some(pairs[0]));
      MeldNone(scores, Some(pairs[0]));
      melded := Meld(scores, melded, Some(pairs[0]));
      pairs := pairs[1..];
    }
  }

  // ---------- taking a node out of the middle ----------

  /** The node with the given handle, with everything below it. */
  function Find(n: Node, id: nat): Option<Node> {
    if n.id == id then Some(n) else FindIn(n.children, id)
  }

  function FindIn(ns: seq<Node>, id: nat): Option<Node> {
    if ns == [] then None else
    var found := Find(ns[|ns| - 1], id);
    if found.Some? then found else FindIn(ns[..|ns| - 1], id)
  }

  /** The heap without that node and everything below it. */
  function Cut(n: Node, id: nat): Node {
    Node(n.id, n.element, CutIn(n.children, id))
  }

  function CutIn(ns: seq<Node>, id: nat): seq<Node> {
    if ns == [] then [] else
    CutIn(ns[..|ns| - 1], id) + if ns[|ns| - 1].id == id then [] else [Cut(ns[|ns| - 1], id)]
  }

  /** The parent of the node, if the node is its first child. */
  function Above(n: Node, id: nat): Option<Node> {
    if n.children != [] && n.children[0].id == id then Some(n) else AboveIn(n.children, id)
  }

  function AboveIn(ns: seq<Node>, id: nat): Option<Node> {
    if ns == [] then None else
    var found := Above(ns[|ns| - 1], id);
    if found.Some? then found else AboveIn(ns[..|ns| - 1], id)
  }

  /** "e" is in "m" once, and nothing else is under its handle. */
  ghost predicate Unique(m: multiset<Entry>, e: Entry) {
    m[e] == 1 && forall f :: f in m && f.id == e.id ==> f == e
  }

  ghost predicate Absent(m: multiset<Entry>, id: nat) {
    forall f :: f in m ==> f.id != id
  }

  lemma UniqueSplit(a: multiset<Entry>, b: multiset<Entry>, e: Entry)
    requires Unique(a + b, e)
    ensures (Unique(a, e) && Absent(b, e.id)) || (Unique(b, e) && Absent(a, e.id))
  {
    assert (a + b)[e] == a[e] + b[e];
    assert forall f :: f in a || f in b ==> f in a + b;
  }

  lemma {:induction false} CutNothing(n: Node, id: nat)
    requires Absent(Entries(n), id)
    ensures Cut(n, id) == n && Find(n, id).None?
    decreases n, 1
  {
    AbsentBelow(n, id);
    hide Absent, AllEntries, Entries;
    CutNothingIn(n.children, id);
  }

  lemma AbsentParts(ns: seq<Node>, id: nat)
    requires ns != [] && Absent(AllEntries(ns), id)
    ensures var n := |ns| - 1; Absent(AllEntries(ns[..n]), id) && Absent(Entries(ns[n]), id) && Absent(AllEntries(ns[n].children), id)
    ensures ns[|ns| - 1].id != id
  {
    var n := |ns| - 1;
    assert forall f :: f in AllEntries(ns[..n]) || f in Entries(ns[n]) ==> f in AllEntries(ns);
    AbsentBelow(ns[n], id);
    hide Entries, AllEntries;
  }

  lemma AbsentBelow(n: Node, id: nat)
    requires Absent(Entries(n), id)
    ensures n.id != id && Absent(AllEntries(n.children), id)
  {
    assert Entry(n.id, n.element) in Entries(n);
    assert forall f :: f in AllEntries(n.children) ==> f in Entries(n);
  }

  lemma {:induction false} CutNothingIn(ns: seq<Node>, id: nat)
    requires Absent(AllEntries(ns), id)
    ensures CutIn(ns, id) == ns && FindIn(ns, id).None?
    decreases ns, 0
  {
    if ns != [] {
      var k := |ns| - 1;
      AbsentParts(ns, id);
      hide Absent, AllEntries, Entries;
      CutNothingIn(ns[..k], id);
      CutNothing(ns[k], id);
    }
  }

  /** Cutting splits the heap in two. */
  lemma {:induction false} CutSplits(n: Node, e: Entry)
    requires Unique(Entries(n), e) && n.id != e.id
    ensures Find(n, e.id).Some? && Find(n, e.id).value.id == e.id && Find(n, e.id).value.element == e.element
    ensures Entries(n) == Entries(Cut(n, e.id)) + Entries(Find(n, e.id).value)
    decreases n, 1
  {
    UniqueBelow(n, e);
    hide Unique;
    CutSplitsIn(n.children, e);
    hide FindIn, CutIn, AllEntries;
  }

  /** The functions on siblings, one step from the end. */
  lemma LastStep(front: seq<Node>, last: Node, id: nat)
    ensures var ns := front + [last];
      && FindIn(ns, id) == (if Find(last, id).Some? then Find(last, id) else FindIn(front, id))
      && AboveIn(ns, id) == (if Above(last, id).Some? then Above(last, id) else AboveIn(front, id))
      && CutIn(ns, id) == CutIn(front, id) + (if last.id == id then [] else [Cut(last, id)])
      && AllEntries(ns) == AllEntries(front) + Entries(last)
  {
    assert (front + [last])[..|front|] == front;
    hide Find, Above, Cut, Entries;
  }

  /** What cutting achieves on a list of siblings. */
  ghost predicate Split(ns: seq<Node>, e: Entry) {
    && FindIn(ns, e.id).Some? && FindIn(ns, e.id).value.id == e.id && FindIn(ns, e.id).value.element == e.element
    && AllEntries(ns) == AllEntries(CutIn(ns, e.id)) + Entries(FindIn(ns, e.id).value)
  }

  lemma {:induction false} CutSplitsIn(ns: seq<Node>, e: Entry)
    requires Unique(AllEntries(ns), e)
    ensures Split(ns, e)
    decreases ns, 0
  {
    assert ns != [];
    hide *;
    var k := |ns| - 1;
    var last, front := ns[k], ns[..k];
    assert ns == front + [last];
    LastStep(front, last, e.id);
    UniqueSplit(AllEntries(front), Entries(last), e);
    if Unique(AllEntries(front), e) && Absent(Entries(last), e.id) {
      CutNothing(last, e.id);
      AbsentBelow(last, e.id);
      CutSplitsIn(front, e);
      SplitBefore(front, last, e);
    } else {
      CutNothingIn(front, e.id);
      if last.id != e.id {
        CutSplits(last, e);
      } else {
        UniqueOwn(last, e);
      }
      SplitLast(front, last, e);
    }
  }

  lemma SplitBefore(front: seq<Node>, last: Node, e: Entry)
    requires Split(front, e) && Cut(last, e.id) == last && Find(last, e.id).None? && last.id != e.id
    ensures Split(front + [last], e)
  {
    LastStep(front, last, e.id);
    OneMore(CutIn(front, e.id), last);
    hide CutIn, FindIn, AllEntries, Entries, Cut, Find, Above, AboveIn;
  }

  lemma SplitLast(front: seq<Node>, last: Node, e: Entry)
    requires CutIn(front, e.id) == front && FindIn(front, e.id).None?
    requires Find(last, e.id).Some? && Find(last, e.id).value.id == e.id && Find(last, e.id).value.element == e.element
    requires last.id == e.id ==> Find(last, e.id) == Some(last)
    requires last.id != e.id ==> Entries(last) == Entries(Cut(last, e.id)) + Entries(Find(last, e.id).value)
    ensures Split(front + [last], e)
  {
    hide *;
    var ns := front + [last];
    LastStep(front, last, e.id);
    if last.id == e.id {
      assert front + [] == front;
      IsSplit(ns, e, AllEntries(front), last);
    } else {
      OneMore(front, Cut(last, e.id));
      IsSplit(ns, e, AllEntries(front) + Entries(Cut(last, e.id)), Find(last, e.id).value);
    }
  }

  lemma IsSplit(ns: seq<Node>, e: Entry, left: multiset<Entry>, found: Node)
    requires FindIn(ns, e.id) == Some(found) && found.id == e.id && found.element == e.element
    requires AllEntries(ns) == left + Entries(found) && AllEntries(CutIn(ns, e.id)) == left
    ensures Split(ns, e)
  {
    hide FindIn, CutIn, AllEntries, Entries;
  }

  lemma OwnEntry(n: Node)
    ensures Entry(n.id, n.element) in Entries(n)
  {
  }

  lemma UniqueOwn(n: Node, e: Entry)
    requires Unique(Entries(n), e) && n.id == e.id
    ensures n.element == e.element && Find(n, e.id) == Some(n)
  {
    OwnEntry(n);
  }

  lemma {:induction false} CutOrdered(scores: Scores, live: set<nat>, n: Node, id: nat)
    requires Ordered(scores, live, n)
    ensures Ordered(scores, live, Cut(n, id)) && OrderedHeap(scores, live, Find(n, id))
    decreases n, 1
  {
    CutOrderedIn(scores, live, n, n.children, id);
  }

  lemma {:induction false} CutOrderedIn(scores: Scores, live: set<nat>, p: Node, ns: seq<Node>, id: nat)
    requires forall i :: 0 <= i < |ns| ==> Edge(scores, live, p, ns[i]) && Ordered(scores, live, ns[i])
    ensures forall i :: 0 <= i < |CutIn(ns, id)| ==> Edge(scores, live, p, CutIn(ns, id)[i]) && Ordered(scores, live, CutIn(ns, id)[i])
    ensures OrderedHeap(scores, live, FindIn(ns, id))
    decreases ns, 0
  {
    if ns != [] {
      var k := |ns| - 1;
      CutOrderedIn(scores, live, p, ns[..k], id);
      CutOrdered(scores, live, ns[k], id);
    }
  }

  /** A handle that does not occur makes no difference. */
  lemma {:induction false} LiveElsewhere(scores: Scores, live: set<nat>, n: Node, id: nat)
    requires Absent(Entries(n), id) && Ordered(scores, live - {id}, n)
    ensures Ordered(scores, live, n)
    decreases n
  {
    OwnEntry(n);
    forall i | 0 <= i < |n.children| ensures Edge(scores, live, n, n.children[i]) && Ordered(scores, live, n.children[i]) {
      var c := n.children[i];
      ChildAbsent(n, i, id);
      OwnEntry(c);
      assert Edge(scores, live - {id}, n, c);
      LiveElsewhere(scores, live, c, id);
    }
  }

  lemma ChildAbsent(n: Node, i: nat, id: nat)
    requires Absent(Entries(n), id) && i < |n.children|
    ensures Absent(Entries(n.children[i]), id)
  {
    ChildEntries(n.children, i);
    assert forall f :: f in Entries(n.children[i]) ==> f in Entries(n);
  }

  /** After the element "x" got another score: if "e" is its only live node, only the edges at "e" can be wrong,
      and if the score has risen, only the one above it. */
  lemma {:induction false} Rescored(scores: Scores, scores': Scores, live: set<nat>, n: Node, e: Entry)
    requires Ordered(scores, live, n)
    requires forall f :: f in Entries(n) && f.id in live && f.element == e.element ==> f.id == e.id
    requires forall y :: y != e.element ==> ScoreOf(scores', y) == ScoreOf(scores, y)
    ensures Ordered(scores', live - {e.id}, n)
    decreases n
  {
    OwnEntry(n);
    forall i | 0 <= i < |n.children|
      ensures Edge(scores', live - {e.id}, n, n.children[i]) && Ordered(scores', live - {e.id}, n.children[i])
    {
      var c := n.children[i];
      ChildEntries(n.children, i);
      assert forall f :: f in Entries(c) ==> f in Entries(n);
      OwnEntry(c);
      assert Edge(scores, live, n, c);
      Rescored(scores, scores', live, c, e);
    }
  }

  lemma {:induction false} RaisedAbove(scores: Scores, scores': Scores, live: set<nat>, n: Node, e: Entry)
    requires Ordered(scores, live, n) && n.id == e.id && n.element == e.element && Unique(Entries(n), e)
    requires forall f :: f in Entries(n) && f.id in live && f.element == e.element ==> f.id == e.id
    requires forall y :: y != e.element ==> ScoreOf(scores', y) == ScoreOf(scores, y)
    requires ScoreOf(scores', e.element) >= ScoreOf(scores, e.element)
    ensures Ordered(scores', live, n)
  {
    OwnEntry(n);
    UniqueSplit(multiset{Entry(n.id, n.element)}, AllEntries(n.children), e);
    assert Entry(n.id, n.element) in multiset{Entry(n.id, n.element)};
    forall i | 0 <= i < |n.children| ensures Edge(scores', live, n, n.children[i]) && Ordered(scores', live, n.children[i]) {
      var c := n.children[i];
      ChildEntries(n.children, i);
      assert forall f :: f in Entries(c) ==> f in AllEntries(n.children) && f in Entries(n);
      OwnEntry(c);
      assert Edge(scores, live, n, c);
      Rescored(scores, scores', live, c, e);
      LiveElsewhere(scores', live, c, e.id);
    }
  }

  lemma {:induction false} AboveNothing(n: Node, id: nat)
    requires Absent(AllEntries(n.children), id)
    ensures Above(n, id).None?
    decreases n, 1
  {
    if n.children != [] {
      ChildEntries(n.children, 0);
      OwnEntry(n.children[0]);
    }
    hide AllEntries, Entries;
    AboveNothingIn(n.children, id);
  }

  lemma {:induction false} AboveNothingIn(ns: seq<Node>, id: nat)
    requires Absent(AllEntries(ns), id)
    ensures AboveIn(ns, id).None?
    decreases ns, 0
  {
    if ns != [] {
      var k := |ns| - 1;
      AbsentParts(ns, id);
      hide Absent, AllEntries, Entries;
      AboveNothingIn(ns[..k], id);
      AboveNothing(ns[k], id);
    }
  }

  /** Exactly one of the siblings holds the entry, and the searches end there. */
  lemma {:induction false} Holder(ns: seq<Node>, e: Entry) returns (k: nat)
    requires Unique(AllEntries(ns), e)
    ensures k < |ns| && Unique(Entries(ns[k]), e) && forall i :: 0 <= i < |ns| && i != k ==> Absent(Entries(ns[i]), e.id)
    ensures FindIn(ns, e.id) == Find(ns[k], e.id) && AboveIn(ns, e.id) == Above(ns[k], e.id)
  {
    assert ns != [];
    hide *;
    var n := |ns| - 1;
    var front, last := ns[..n], ns[n];
    assert ns == front + [last];
    LastStep(front, last, e.id);
    UniqueSplit(AllEntries(front), Entries(last), e);
    if Absent(AllEntries(front), e.id) && Unique(Entries(last), e) {
      k := n;
      forall i | 0 <= i < n ensures Absent(Entries(front[i]), e.id) {
        AbsentSibling(front, i, e.id);
      }
      CutNothingIn(front, e.id);
      AboveNothingIn(front, e.id);
    } else {
      k := Holder(front, e);
      CutNothing(last, e.id);
      AbsentBelow(last, e.id);
      AboveNothing(last, e.id);
    }
    forall i | 0 <= i < |ns| && i != k ensures Absent(Entries(ns[i]), e.id) {
      assert i < n ==> front[i] == ns[i];
    }
  }

  lemma AbsentSibling(ns: seq<Node>, i: nat, id: nat)
    requires Absent(AllEntries(ns), id) && i < |ns|
    ensures Absent(Entries(ns[i]), id)
  {
    ChildEntries(ns, i);
    assert forall f :: f in Entries(ns[i]) ==> f in AllEntries(ns);
  }

  /** A node that is its parent's first child and not of higher priority can stay where it is. */
  lemma {:induction false} InPlace(scores: Scores, live: set<nat>, n: Node, e: Entry)
    requires Unique(Entries(n), e) && n.id != e.id && Ordered(scores, live - {e.id}, n)
    requires Find(n, e.id).Some? && Ordered(scores, live, Find(n, e.id).value)
    requires Above(n, e.id).Some? && Higher(scores, Above(n, e.id).value.element, e.element)
    ensures Ordered(scores, live, n)
    decreases n
  {
    hide *;
    UniqueBelow(n, e);
    var k := Holder(n.children, e);
    FoundBelow(n, e.id);
    var c := n.children[k];
    ChildOrdered(scores, live - {e.id}, n, k);
    if c.id == e.id {
      UniqueOwn(c, e);
      OnlyChildAbove(n, k, e);
    } else {
      FirstIsOther(n, k, e);
      InPlace(scores, live, c, e);
    }
    EdgeBack(scores, live, n, c, e);
    forall i | 0 <= i < |n.children| ensures Edge(scores, live, n, n.children[i]) && Ordered(scores, live, n.children[i]) {
      if i != k {
        ChildOrdered(scores, live - {e.id}, n, i);
        LiveElsewhere(scores, live, n.children[i], e.id);
        OtherEdge(scores, live, n, n.children[i], e.id);
      }
    }
    IsOrdered(scores, live, n);
  }

  lemma ChildOrdered(scores: Scores, live: set<nat>, n: Node, i: nat)
    requires Ordered(scores, live, n) && i < |n.children|
    ensures Edge(scores, live, n, n.children[i]) && Ordered(scores, live, n.children[i])
  {
  }

  lemma IsOrdered(scores: Scores, live: set<nat>, n: Node)
    requires forall i :: 0 <= i < |n.children| ==> Edge(scores, live, n, n.children[i]) && Ordered(scores, live, n.children[i])
    ensures Ordered(scores, live, n)
  {
  }

  lemma EdgeBack(scores: Scores, live: set<nat>, n: Node, c: Node, e: Entry)
    requires n.id != e.id && Edge(scores, live - {e.id}, n, c)
    requires c.id == e.id ==> c.element == e.element && Higher(scores, n.element, e.element)
    ensures Edge(scores, live, n, c)
  {
  }

  lemma OtherEdge(scores: Scores, live: set<nat>, n: Node, c: Node, id: nat)
    requires n.id != id && Absent(Entries(c), id) && Edge(scores, live - {id}, n, c)
    ensures Edge(scores, live, n, c)
  {
    OwnEntry(c);
  }

  lemma UniqueBelow(n: Node, e: Entry)
    requires Unique(Entries(n), e) && n.id != e.id
    ensures Unique(AllEntries(n.children), e)
  {
    UniqueSplit(multiset{Entry(n.id, n.element)}, AllEntries(n.children), e);
    assert Entry(n.id, n.element) in multiset{Entry(n.id, n.element)};
  }

  lemma FoundBelow(n: Node, id: nat)
    requires n.id != id
    ensures Find(n, id) == FindIn(n.children, id)
  {
  }

  /** If the node is a child and has something above it in the sense of the search, it is the first child. */
  lemma OnlyChildAbove(n: Node, k: nat, e: Entry)
    requires k < |n.children| && n.children[k].id == e.id && Unique(Entries(n.children[k]), e)
    requires AboveIn(n.children, e.id) == Above(n.children[k], e.id) && Above(n, e.id).Some?
    ensures Above(n, e.id) == Some(n)
  {
    var c := n.children[k];
    UniqueSplit(multiset{Entry(c.id, c.element)}, AllEntries(c.children), e);
    OwnEntry(c);
    assert Entry(c.id, c.element) in multiset{Entry(c.id, c.element)} && Entry(c.id, c.element) == e;
    AboveNothing(c, e.id);
  }

  lemma FirstIsOther(n: Node, k: nat, e: Entry)
    requires k < |n.children| && n.children[k].id != e.id && AboveIn(n.children, e.id) == Above(n.children[k], e.id)
    requires forall i :: 0 <= i < |n.children| && i != k ==> Absent(Entries(n.children[i]), e.id)
    ensures Above(n, e.id) == Above(n.children[k], e.id)
  {
    OwnEntry(n.children[0]);
  }

  // ---------- the queue ----------

  /** A node whose score has risen stays where it is if it is the root, or a first child below its parent. */
  ghost predicate MayStay(scores: Scores, top: Node, e: Entry) {
    top.id == e.id || (Above(top, e.id).Some? && Higher(scores, Above(top, e.id).value.element, e.element))
  }

  class PairingHeap {
    var root: Option<Node>

    constructor ()
      ensures root == None
    {
      root := None;
    }

    /** Adds an element under a new handle. */
    method Add(scores: Scores, id: nat, element: int, ghost live: set<nat>)
      requires OrderedHeap(scores, live, root)
      modifies this
      ensures OrderedHeap(scores, live, root) && In(root) == In(old(root)) + multiset{Entry(id, element)}
      ensures root == Meld(scores, old(root), Some(Node(id, element, [])))
    {
      var node := Node(id, element, []);
      LeafOrdered(scores, live, node);
      MeldKeeps(scores, live, root, Some(node));
      hide *;
      root := Meld(scores, root, Some(node));
    }

    method Peek(ghost scores: Scores, ghost live: set<nat>) returns (r: Option<int>)
      requires OrderedHeap(scores, live, root)
      ensures r.None? <==> root.None?
      ensures r.Some? ==> root.Some? && r.value == root.value.element
      ensures r.Some? && (forall f :: f in In(root) ==> f.id in live) ==> forall f :: f in In(root) ==> NotAbove(scores, f.element, r.value)
    {
      if root.None? {
        return None;
      }
      if forall f :: f in In(root) ==> f.id in live {
        forall f | f in In(root) ensures NotAbove(scores, f.element, root.value.element) {
          RootIsBest(scores, live, root.value, f);
        }
      }
      return Some(root.value.element);
    }

    /** Removes the root. */
    method Pop(scores: Scores, ghost live: set<nat>) returns (r: Option<int>)
      requires OrderedHeap(scores, live, root)
      modifies this
      ensures old(root).None? ==> r.None? && root == None
      ensures old(root).Some? ==> r == Some(old(root).value.element)
      ensures old(root).Some? ==> In(old(root)) == In(root) + multiset{Entry(old(root).value.id, old(root).value.element)}
      ensures OrderedHeap(scores, live, root)
      ensures old(root).Some? && |old(root).value.children| <= 2 ==> root == MeldFew(scores, old(root).value.children)
    {
      if root.None? {
        return None;
      }
      var node := root.value;
      ChildrenOrdered(scores, live, node);
      hide *;
      r := Some(node.element);
      root := MergePairs(scores, node.children, live);
    }

    /** The element's score has risen: its node moves up to the root, unless it is there or may stay. */
    method IncreasePriority(scores: Scores, e: Entry, ghost live: set<nat>)
      requires root.Some? && Unique(In(root), e) && OrderedHeap(scores, live - {e.id}, root)
      requires Find(root.value, e.id).Some? ==> Ordered(scores, live, Find(root.value, e.id).value)
      modifies this
      ensures OrderedHeap(scores, live, root) && In(root) == In(old(root))
      ensures root == if MayStay(scores, old(root).value, e) then old(root) else
                      Meld(scores, Some(Cut(old(root).value, e.id)), Find(old(root).value, e.id))
    {
      var top := root.value;
      if top.id == e.id {
        return;
      }
      CutSplits(top, e);
      var above := Above(top, e.id);
      if above.Some? && Higher(scores, above.value.element, e.element) {
        InPlace(scores, live, top, e);
        return;
      }
      CutFree(scores, live, top, e);
      var node := Find(top, e.id);
      MeldKeeps(scores, live, Some(Cut(top, e.id)), node);
      hide *;
      root := Meld(scores, Some(Cut(top, e.id)), node);
    }

    /** The element's score has fallen: its node is taken out, its children are merged, and it is added again. */
    method DecreasePriority(scores: Scores, e: Entry, ghost live: set<nat>)
      requires root.Some? && Unique(In(root), e) && OrderedHeap(scores, live - {e.id}, root)
      modifies this
      ensures OrderedHeap(scores, live, root) && In(root) == In(old(root))
      ensures old(root).value.id != e.id && Find(old(root).value, e.id) == Some(Node(e.id, e.element, [])) ==>
        root == Meld(scores, Some(Cut(old(root).value, e.id)), Some(Node(e.id, e.element, [])))
      ensures old(root).value.id == e.id && |old(root).value.children| <= 2 ==>
        root == Meld(scores, MeldFew(scores, old(root).value.children), Some(Node(e.id, e.element, [])))
    {
      var node := DeleteNode(scores, e, live);
      LeafOrdered(scores, live, node);
      MeldKeeps(scores, live, root, Some(node));
      hide *;
      root := Meld(scores, root, Some(node));
    }

    /** The score of an element with one live node has changed: the heap is put in order again. */
    method Rescore(scores: Scores, scores': Scores, e: Entry, ghost live: set<nat>)
      requires root.Some? && Unique(In(root), e) && OrderedHeap(scores, live, root)
      requires forall f :: f in In(root) && f.id in live && f.element == e.element ==> f.id == e.id
      requires forall y :: y != e.element ==> ScoreOf(scores', y) == ScoreOf(scores, y)
      modifies this
      ensures OrderedHeap(scores', live, root) && In(root) == In(old(root))
    {
      Rescored(scores, scores', live, root.value, e);
      if ScoreOf(scores', e.element) < ScoreOf(scores, e.element) {
        DecreasePriority(scores', e, live);
      } else if ScoreOf(scores', e.element) > ScoreOf(scores, e.element) {
        RaisedBelow(scores, scores', live, root.value, e);
        IncreasePriority(scores', e, live);
      } else {
        SameScores(scores, scores', live, root.value);
      }
    }

    method DeleteNode(scores: Scores, e: Entry, ghost live: set<nat>) returns (node: Node)
      requires root.Some? && Unique(In(root), e) && OrderedHeap(scores, live - {e.id}, root)
      modifies this
      ensures OrderedHeap(scores, live, root) && node == Node(e.id, e.element, [])
      ensures In(old(root)) == In(root) + multiset{e}
      ensures old(root).value.id != e.id && Find(old(root).value, e.id) == Some(Node(e.id, e.element, [])) ==> root == Some(Cut(old(root).value, e.id))
      ensures old(root).value.id == e.id && |old(root).value.children| <= 2 ==> root == MeldFew(scores, old(root).value.children)
    {
      var top := root.value;
      node := Node(e.id, e.element, []);
      if top.id == e.id {
        RootFree(scores, live, top, e);
        root := MergePairs(scores, top.children, live);
      } else {
        CutSplits(top, e);
        CutFree(scores, live, top, e);
        var found := Find(top, e.id).value;
        NodeFree(scores, live, top, e);
        var merged := MergePairs(scores, found.children, live);
        MeldKeeps(scores, live, Some(Cut(top, e.id)), merged);
        MeldNothing(scores, Some(Cut(top, e.id)));
        NoFew(scores);
        hide *;
        root := Meld(scores, Some(Cut(top, e.id)), merged);
      }
    }
  }

  lemma {:induction false} SameScores(scores: Scores, scores': Scores, live: set<nat>, n: Node)
    requires Ordered(scores, live, n) && forall y :: ScoreOf(scores', y) == ScoreOf(scores, y)
    ensures Ordered(scores', live, n)
    decreases n
  {
    forall i | 0 <= i < |n.children| ensures Edge(scores', live, n, n.children[i]) && Ordered(scores', live, n.children[i]) {
      assert Edge(scores, live, n, n.children[i]);
      SameScores(scores, scores', live, n.children[i]);
    }
  }

  /** Below a node whose score has risen the order still holds. */
  lemma RaisedBelow(scores: Scores, scores': Scores, live: set<nat>, n: Node, e: Entry)
    requires Ordered(scores, live, n) && Unique(Entries(n), e)
    requires forall f :: f in Entries(n) && f.id in live && f.element == e.element ==> f.id == e.id
    requires forall y :: y != e.element ==> ScoreOf(scores', y) == ScoreOf(scores, y)
    requires ScoreOf(scores', e.element) >= ScoreOf(scores, e.element)
    ensures Find(n, e.id).Some? ==> Ordered(scores', live, Find(n, e.id).value)
  {
    CutOrdered(scores, live, n, e.id);
    if n.id == e.id {
      UniqueOwn(n, e);
      RaisedAbove(scores, scores', live, n, e);
    } else {
      CutSplits(n, e);
      var found := Find(n, e.id).value;
      UniqueSplit(Entries(Cut(n, e.id)), Entries(found), e);
      OwnEntry(found);
      assert forall f :: f in Entries(found) ==> f in Entries(n);
      RaisedAbove(scores, scores', live, found, e);
    }
  }

  lemma MeldNothing(scores: Scores, a: Option<Node>)
    ensures Meld(scores, a, None) == a
  {
  }

  lemma NoFew(scores: Scores)
    ensures MeldFew(scores, []) == None
  {
  }

  lemma LeafOrdered(scores: Scores, live: set<nat>, n: Node)
    requires n.children == []
    ensures Ordered(scores, live, n) && Entries(n) == multiset{Entry(n.id, n.element)}
  {
  }

  lemma ChildrenOrdered(scores: Scores, live: set<nat>, n: Node)
    requires Ordered(scores, live, n)
    ensures AllOrdered(scores, live, n.children) && Entries(n) == AllEntries(n.children) + multiset{Entry(n.id, n.element)}
  {
  }

  /** What is left after cutting does not contain the node any more, so its order is complete. */
  lemma CutFree(scores: Scores, live: set<nat>, n: Node, e: Entry)
    requires Unique(Entries(n), e) && n.id != e.id && Ordered(scores, live - {e.id}, n)
    ensures Ordered(scores, live, Cut(n, e.id))
  {
    CutSplits(n, e);
    CutOrdered(scores, live - {e.id}, n, e.id);
    var found := Find(n, e.id).value;
    UniqueSplit(Entries(Cut(n, e.id)), Entries(found), e);
    OwnEntry(found);
    LiveElsewhere(scores, live, Cut(n, e.id), e.id);
  }

  lemma RootFree(scores: Scores, live: set<nat>, n: Node, e: Entry)
    requires Unique(Entries(n), e) && n.id == e.id && Ordered(scores, live - {e.id}, n)
    ensures AllOrdered(scores, live, n.children) && Entries(n) == AllEntries(n.children) + multiset{e}
  {
    UniqueOwn(n, e);
    UniqueSplit(multiset{Entry(n.id, n.element)}, AllEntries(n.children), e);
    assert e in multiset{Entry(n.id, n.element)};
    forall i | 0 <= i < |n.children| ensures Ordered(scores, live, n.children[i]) {
      ChildEntries(n.children, i);
      assert forall f :: f in Entries(n.children[i]) ==> f in AllEntries(n.children);
      LiveElsewhere(scores, live, n.children[i], e.id);
    }
  }

  lemma NodeFree(scores: Scores, live: set<nat>, n: Node, e: Entry)
    requires Unique(Entries(n), e) && n.id != e.id && Ordered(scores, live - {e.id}, n)
    requires Find(n, e.id).Some? && Find(n, e.id).value.id == e.id && Entries(n) == Entries(Cut(n, e.id)) + Entries(Find(n, e.id).value)
    ensures var found := Find(n, e.id).value;
      AllOrdered(scores, live, found.children) && Entries(found) == AllEntries(found.children) + multiset{e}
  {
    CutOrdered(scores, live - {e.id}, n, e.id);
    var found := Find(n, e.id).value;
    UniqueSplit(Entries(Cut(n, e.id)), Entries(found), e);
    OwnEntry(found);
    RootFree(scores, live, found, e);
  }
}
