/** What the worker's heap does in the runs of WorseChoiceExample and CoverExample: after a block is closed it holds
    some transactions twice, and the older of two entries is not moved when a score changes. */
module StaleHeapExample {
  import opened Collections
  import opened PackageGraph
  import opened Relatives
  import opened PairingHeaps
  import RunSteps
  import TxEvents
  import W = WorseChoiceExample
  import C = CoverExample

  // ---------- the heap's shapes ----------

  function Leaf(id: nat, element: int): Node {
    Node(id, element, [])
  }

  /** One node below another. */
  lemma Adopted(scores: Scores, a: Node, b: Node)
    ensures Meld(scores, Some(a), Some(b)) ==
      Some(if Higher(scores, a.element, b.element) then Node(a.id, a.element, [b] + a.children) else Node(b.id, b.element, [a] + b.children))
  {
  }

  lemma Leaves()
    ensures forall id: nat, element: int {:trigger Leaf(id, element)} :: Leaf(id, element) == Node(id, element, [])
  {
  }

  lemma InNode(n: Node, e: Entry)
    requires Unique(Entries(n), e)
    ensures Unique(In(Some(n)), e)
  {
  }

  lemma {:induction false} NoneLive(scores: Scores, n: Node)
    ensures Ordered(scores, {}, n)
    decreases n
  {
    forall i | 0 <= i < |n.children| ensures Ordered(scores, {}, n.children[i]) {
      NoneLive(scores, n.children[i]);
    }
  }

  lemma NoneLiveIn(scores: Scores, h: Option<Node>)
    ensures OrderedHeap(scores, {}, h)
  {
    if h.Some? { NoneLive(scores, h.value); }
  }

  // ---------- WorseChoiceExample ----------

  ghost function WorseScore(lim: int, x: Id, gone: set<Id>): real
    requires W.Wide(lim)
  {
    FreshTotals(W.Mempool(lim), W.Kin(lim), 4, x, gone).score
  }

  /** The scores when the first block is closed, and after the first package of the second. */
  ghost predicate Closed(scores: Scores) {
    {0, 2, 3} <= scores.Keys && 4.0 == scores[0] <= scores[2] <= scores[3] == 36.0
  }

  const FALLEN: Scores := map[0 := 4.0, 2 := 0.0, 3 := 36.0]

  /** The scores are those of the run. */
  lemma WorseScores(lim: int)
    requires W.Wide(lim)
    ensures Closed(map[0 := WorseScore(lim, 0, {1}), 2 := WorseScore(lim, 2, {1}), 3 := WorseScore(lim, 3, {1})])
    ensures FALLEN[0] == WorseScore(lim, 0, {1, 3}) && FALLEN[2] == WorseScore(lim, 2, {1, 3}) && FALLEN[3] == WorseScore(lim, 3, {1})
  {
    hide WorseScore;
    TwoAndThree(lim);
    WorseScoreIs(lim, 0, {1});
    WorseScoreIs(lim, 3, {1});
    WorseScoreIs(lim, 0, {1, 3});
    WorseScoreIs(lim, 2, {1, 3});
  }

  lemma WorseScoreIs(lim: int, x: Id, gone: set<Id>)
    requires W.Wide(lim) && 0 <= x < 4 && W.Stage(gone) && W.Low(gone, x) == W.High(gone, x)
    ensures WorseScore(lim, x, gone) == (4 * W.Low(gone, x)) as real
  {
    W.Scores(lim, gone, x);
  }

  lemma TwoAndThree(lim: int)
    requires W.Wide(lim)
    ensures 4.0 <= WorseScore(lim, 2, {1}) <= 36.0
  {
    var g, room := W.Mempool(lim), lim - TxEvents.BASE_WEIGHT;
    assert Package(W.Kin(lim), 2, {1}) == {3} + {2};
    RunSteps.SumOfTwo(Fees(g), 3, 2);
    RunSteps.SumOfTwo(Sizes(g), 3, 2);
    hide Total;
    assert WorseScore(lim, 2, {1}) == Rate(4, 9 * (room - 4), room - 1);
    RunSteps.RateBounds(1, 9 * (room - 4), room - 1);
    RunSteps.RateBounds(9, 9 * (room - 4), room - 1);
  }

  /** The older entry of 2 on top of 0. */
  const OLDER: Node := Node(1, 2, [Leaf(0, 0)])

  /** The older entry of 3 on top of both entries of 2. */
  const BOTH: Node := Node(2, 3, [Leaf(3, 2), OLDER])

  lemma Requeued(scores: Scores)
    requires Closed(scores)
    ensures Meld(scores, None, Some(Leaf(0, 0))) == Some(Leaf(0, 0))
    ensures Meld(scores, Some(Leaf(0, 0)), Some(Leaf(1, 2))) == Some(OLDER)
    ensures Meld(scores, Some(OLDER), Some(Leaf(2, 3))) == Some(Node(2, 3, [OLDER]))
    ensures Meld(scores, Some(Node(2, 3, [OLDER])), Some(Leaf(3, 2))) == Some(BOTH)
    ensures Meld(scores, Some(BOTH), Some(Leaf(4, 3))) == Some(Node(4, 3, [BOTH]))
  {
    Adopted(scores, Leaf(0, 0), Leaf(1, 2));
    Adopted(scores, OLDER, Leaf(2, 3));
    Adopted(scores, Node(2, 3, [OLDER]), Leaf(3, 2));
    Adopted(scores, BOTH, Leaf(4, 3));
    assert [Leaf(0, 0)] + [] == [Leaf(0, 0)] && [OLDER] + [] == [OLDER] && [BOTH] + [] == [BOTH] && [Leaf(3, 2)] + [OLDER] == [Leaf(3, 2), OLDER];
  }

  lemma BothContents()
    ensures Entries(BOTH) == multiset{Entry(2, 3), Entry(3, 2), Entry(1, 2), Entry(0, 0)}
  {
    assert BOTH.children == [Leaf(3, 2)] + [OLDER];
    OneMore([Leaf(3, 2)], OLDER);
    OneEntry(Leaf(3, 2));
    OneEntry(Leaf(0, 0));
  }

  /** The newer entry of 2 is put back where it was. */
  lemma Fallen()
    ensures BOTH.id != 3 && Unique(Entries(BOTH), Entry(3, 2)) && Find(BOTH, 3) == Some(Leaf(3, 2))
    ensures Cut(BOTH, 3) == Node(2, 3, [OLDER]) && Meld(FALLEN, Some(Node(2, 3, [OLDER])), Some(Leaf(3, 2))) == Some(BOTH)
  {
    BothContents();
    Adopted(FALLEN, Node(2, 3, [OLDER]), Leaf(3, 2));
    var ns := [Leaf(3, 2), OLDER];
    assert ns[..1] == [Leaf(3, 2)] && ns[..1][..0] == [] && [Leaf(0, 0)][..0] == [];
    assert Cut(OLDER, 3) == OLDER && Find(OLDER, 3) == None;
    assert CutIn([Leaf(3, 2)], 3) == [] && FindIn([Leaf(3, 2)], 3) == Some(Leaf(3, 2));
    assert [Leaf(3, 2)] + [OLDER] == [Leaf(3, 2), OLDER];
  }

  /** When 3, taken already, comes out, the older entry of 2 goes on top. */
  lemma OnTop(scores: Scores)
    ensures MeldFew(FALLEN, BOTH.children) == Some(Node(1, 2, [Leaf(3, 2), Leaf(0, 0)])) && |BOTH.children| == 2
    ensures MeldFew(scores, [BOTH]) == Some(BOTH) && BOTH.element == 3
  {
    Adopted(FALLEN, Leaf(3, 2), OLDER);
    assert [Leaf(3, 2)] + [Leaf(0, 0)] == [Leaf(3, 2), Leaf(0, 0)];
  }

  /** The heap's operations when the first block is closed and the first package of the second is taken. The root is
      then 2, which scores nothing, although 0 waits. */
  method ReplayWorse(heap: PairingHeap, closed: Scores) returns (popped: seq<Option<int>>, next: Option<int>)
    requires heap.root == None && Closed(closed)
    modifies heap
    ensures popped == [Some(3), Some(3)] && next == Some(2) && heap.root == Some(Node(1, 2, [Leaf(3, 2), Leaf(0, 0)]))
  {
    hide *;
    ghost var live: set<nat> := {};
    assert live - {3} == {};
    Requeued(closed);
    Leaves();
    NoneLiveIn(closed, None);
    heap.Add(closed, 0, 0, live);
    heap.Add(closed, 1, 2, live);
    heap.Add(closed, 2, 3, live);
    heap.Add(closed, 3, 2, live);
    heap.Add(closed, 4, 3, live);
    OnTop(closed);
    var r1 := heap.Pop(closed, live);
    Fallen();
    InNode(BOTH, Entry(3, 2));
    NoneLiveIn(FALLEN, heap.root);
    heap.DecreasePriority(FALLEN, Entry(3, 2), live);
    var r2 := heap.Pop(FALLEN, live);
    popped := [r1, r2];
    next := heap.Peek(FALLEN, live);
  }

  // ---------- CoverExample ----------

  /** The scores when the first block is closed, and after the first package of the second: 6 and 7 are pushed first. */
  const PUSHED: Scores := map[4 := 48.0, 5 := 44.0, 6 := 56.0, 7 := 56.0]
  const RISEN: Scores := map[1 := 160.0, 4 := 48.0, 5 := 88.0, 6 := 56.0, 7 := 56.0]

  ghost function CoverScore(lim: int, x: Id, gone: set<Id>): real
    requires C.Narrow(lim)
  {
    FreshTotals(C.Mempool(lim), C.Kin(lim), 4, x, gone).score
  }

  /** The scores are those of the run; the small ones come after 5 and before the others. */
  lemma CoverScores(lim: int)
    requires C.Narrow(lim)
    ensures PUSHED[4] == CoverScore(lim, 4, {0, 3}) && PUSHED[5] == CoverScore(lim, 5, {0, 3})
    ensures forall x :: x in {4, 5, 6, 7} ==> RISEN[x] == CoverScore(lim, x, {0, 1, 2, 3})
    ensures RISEN[1] == CoverScore(lim, 1, {0, 2, 3})
    ensures forall x :: 8 <= x < C.CROWD ==> RISEN[7] < CoverScore(lim, x, {0, 1, 2, 3}) < RISEN[5]
  {
    hide CoverScore;
    CoverScoreIs(lim, 4, {0, 3});
    CoverScoreIs(lim, 5, {0, 3});
    CoverScoreIs(lim, 1, {0, 2, 3});
    forall x | 4 <= x < C.CROWD ensures CoverScore(lim, x, {0, 1, 2, 3}) == (4 * C.Low({0, 1, 2, 3}, x)) as real {
      CoverScoreIs(lim, x, {0, 1, 2, 3});
    }
  }

  lemma CoverScoreIs(lim: int, x: Id, gone: set<Id>)
    requires C.Narrow(lim) && 0 <= x < C.CROWD && C.Stage(gone) && C.Low(gone, x) == C.High(gone, x)
    ensures CoverScore(lim, x, gone) == (4 * C.Low(gone, x)) as real
  {
    C.Scores(lim, gone, x);
  }

  /** The older entry of 4 on top of both entries of 5, and of the older one. */
  const WITH_BOTH: Node := Node(3, 4, [Node(1, 4, [Leaf(2, 5), Leaf(0, 5)])])
  const WITH_OLDER: Node := Node(3, 4, [Node(1, 4, [Leaf(0, 5)])])

  lemma CoverRequeued()
    ensures Meld(PUSHED, None, Some(Leaf(0, 5))) == Some(Leaf(0, 5))
    ensures Meld(PUSHED, Some(Leaf(0, 5)), Some(Leaf(1, 4))) == Some(Node(1, 4, [Leaf(0, 5)]))
    ensures Meld(PUSHED, Some(Node(1, 4, [Leaf(0, 5)])), Some(Leaf(2, 5))) == Some(Node(1, 4, [Leaf(2, 5), Leaf(0, 5)]))
    ensures Meld(PUSHED, Some(Node(1, 4, [Leaf(2, 5), Leaf(0, 5)])), Some(Leaf(3, 4))) == Some(WITH_BOTH)
  {
    Adopted(PUSHED, Leaf(0, 5), Leaf(1, 4));
    Adopted(PUSHED, Node(1, 4, [Leaf(0, 5)]), Leaf(2, 5));
    Adopted(PUSHED, Node(1, 4, [Leaf(2, 5), Leaf(0, 5)]), Leaf(3, 4));
    assert [Leaf(0, 5)] + [] == [Leaf(0, 5)] && [Leaf(2, 5)] + [Leaf(0, 5)] == [Leaf(2, 5), Leaf(0, 5)];
    assert [Node(1, 4, [Leaf(2, 5), Leaf(0, 5)])] + [] == [Node(1, 4, [Leaf(2, 5), Leaf(0, 5)])];
  }

  lemma CoverPushed()
    ensures Meld(PUSHED, Some(WITH_BOTH), Some(Leaf(4, 7))) == Some(Node(4, 7, [WITH_BOTH]))
    ensures Meld(PUSHED, Some(Node(4, 7, [WITH_BOTH])), Some(Leaf(5, 6))) == Some(Node(4, 7, [Leaf(5, 6), WITH_BOTH]))
  {
    Adopted(PUSHED, WITH_BOTH, Leaf(4, 7));
    Adopted(PUSHED, Node(4, 7, [WITH_BOTH]), Leaf(5, 6));
    assert [WITH_BOTH] + [] == [WITH_BOTH] && [Leaf(5, 6)] + [WITH_BOTH] == [Leaf(5, 6), WITH_BOTH];
  }

  lemma PushedContents()
    ensures Unique(Entries(Node(4, 7, [Leaf(5, 6), WITH_BOTH])), Entry(2, 5))
  {
    BothFives();
    assert [Leaf(5, 6), WITH_BOTH] == [Leaf(5, 6)] + [WITH_BOTH];
    OneMore([Leaf(5, 6)], WITH_BOTH);
    OneEntry(Leaf(5, 6));
  }

  lemma BothFives()
    ensures Entries(WITH_BOTH) == multiset{Entry(3, 4), Entry(1, 4), Entry(2, 5), Entry(0, 5)}
  {
    assert [Leaf(2, 5), Leaf(0, 5)] == [Leaf(2, 5)] + [Leaf(0, 5)];
    OneMore([Leaf(2, 5)], Leaf(0, 5));
    OneEntry(Leaf(2, 5));
    OneEntry(Node(1, 4, [Leaf(2, 5), Leaf(0, 5)]));
  }

  /** The newer entry of 5 is cut out; the older one stays below. */
  lemma CoverCut()
    ensures var top := Node(4, 7, [Leaf(5, 6), WITH_BOTH]);
      && Find(top, 2) == Some(Leaf(2, 5)) && !MayStay(RISEN, top, Entry(2, 5)) && Cut(top, 2) == Node(4, 7, [Leaf(5, 6), WITH_OLDER])
  {
    var inner := Node(1, 4, [Leaf(2, 5), Leaf(0, 5)]);
    var ns, top := [Leaf(2, 5), Leaf(0, 5)], [Leaf(5, 6), WITH_BOTH];
    assert ns[..1] == [Leaf(2, 5)] && ns[..1][..0] == [] && top[..1] == [Leaf(5, 6)] && top[..1][..0] == [] && [inner][..0] == [];
    assert CutIn([Leaf(2, 5)], 2) == [] && CutIn(ns, 2) == [Leaf(0, 5)] && CutIn([inner], 2) == [Node(1, 4, [Leaf(0, 5)])];
    assert FindIn([Leaf(2, 5)], 2) == Some(Leaf(2, 5)) && FindIn(ns, 2) == Some(Leaf(2, 5)) && FindIn([inner], 2) == Some(Leaf(2, 5));
    assert CutIn([Leaf(5, 6)], 2) == [Leaf(5, 6)] && Cut(WITH_BOTH, 2) == WITH_OLDER && Find(WITH_BOTH, 2) == Some(Leaf(2, 5));
    assert Above(inner, 2) == Some(inner) && Above(WITH_BOTH, 2) == Some(inner) && AboveIn(top, 2) == Some(inner);
    assert [Leaf(5, 6)] + [WITH_OLDER] == [Leaf(5, 6), WITH_OLDER];
  }

  lemma CoverRisen()
    ensures var rest := Node(4, 7, [Leaf(5, 6), WITH_OLDER]); var top := Node(2, 5, [rest]);
      && Meld(RISEN, Some(rest), Some(Leaf(2, 5))) == Some(top) && Meld(RISEN, Some(top), Some(Leaf(6, 1))) == Some(Node(6, 1, [top]))
      && MeldFew(RISEN, [top]) == Some(top) && MeldFew(RISEN, [rest]) == Some(rest)
    ensures MeldFew(RISEN, [Leaf(5, 6), WITH_OLDER]) == Some(Node(5, 6, [WITH_OLDER])) && MeldFew(RISEN, [WITH_OLDER]) == Some(WITH_OLDER)
    ensures WITH_OLDER == Node(3, 4, [Node(1, 4, [Leaf(0, 5)])])
    ensures MeldFew(RISEN, [Node(1, 4, [Leaf(0, 5)])]) == Some(Node(1, 4, [Leaf(0, 5)])) && MeldFew(RISEN, [Leaf(0, 5)]) == Some(Leaf(0, 5))
  {
    var rest := Node(4, 7, [Leaf(5, 6), WITH_OLDER]);
    Adopted(RISEN, rest, Leaf(2, 5));
    Adopted(RISEN, Node(2, 5, [rest]), Leaf(6, 1));
    Adopted(RISEN, Leaf(5, 6), WITH_OLDER);
    assert [rest] + [] == [rest] && [Node(2, 5, [rest])] + [] == [Node(2, 5, [rest])] && [WITH_OLDER] + [] == [WITH_OLDER];
  }

  /** Whoever is added stays below 5. */
  lemma Stays(n: Node, id: nat, x: int)
    requires n.id == 0 && n.element == 5 && x in {4, 6, 7}
    ensures var top := Meld(RISEN, Some(n), Some(Leaf(id, x))); top.Some? && top.value.id == 0 && top.value.element == 5
  {
    Adopted(RISEN, n, Leaf(id, x));
  }

  /** The heap's operations when the first block is closed and the first package of the second is taken... */
  method ReplayCover(heap: PairingHeap) returns (first: Option<int>)
    requires heap.root == None
    modifies heap
    ensures first == Some(1) && heap.root == Some(Node(2, 5, [Node(4, 7, [Leaf(5, 6), WITH_OLDER])]))
  {
    hide *;
    ghost var live: set<nat> := {};
    assert live - {2} == {};
    CoverRequeued();
    CoverPushed();
    Leaves();
    NoneLiveIn(PUSHED, None);
    heap.Add(PUSHED, 0, 5, live);
    heap.Add(PUSHED, 1, 4, live);
    heap.Add(PUSHED, 2, 5, live);
    heap.Add(PUSHED, 3, 4, live);
    heap.Add(PUSHED, 4, 7, live);
    heap.Add(PUSHED, 5, 6, live);
    PushedContents();
    InNode(Node(4, 7, [Leaf(5, 6), WITH_BOTH]), Entry(2, 5));
    CoverCut();
    NoneLiveIn(RISEN, heap.root);
    NoneLive(RISEN, Leaf(2, 5));
    heap.IncreasePriority(RISEN, Entry(2, 5), live);
    CoverRisen();
    heap.Add(RISEN, 6, 1, live);
    first := heap.Pop(RISEN, live);
  }

  /** ...and those up to the end of the second block. The root is then 5, which has been taken: coming out, it lets
      the loop end on an empty block. */
  method ReplayEnd(heap: PairingHeap) returns (popped: seq<Option<int>>, next: Option<int>)
    requires heap.root == Some(Node(2, 5, [Node(4, 7, [Leaf(5, 6), WITH_OLDER])]))
    modifies heap
    ensures popped == [Some(5), Some(7), Some(6), Some(4), Some(4)] && next == Some(5)
  {
    hide *;
    ghost var live: set<nat> := {};
    Leaves();
    CoverRisen();
    NoneLiveIn(RISEN, heap.root);
    var r1 := heap.Pop(RISEN, live);
    var r2 := heap.Pop(RISEN, live);
    var r3 := heap.Pop(RISEN, live);
    var r4 := heap.Pop(RISEN, live);
    var r5 := heap.Pop(RISEN, live);
    popped := [r1, r2, r3, r4, r5];
    Stays(heap.root.value, 7, 4);
    heap.Add(RISEN, 7, 4, live);
    Stays(heap.root.value, 8, 4);
    heap.Add(RISEN, 8, 4, live);
    Stays(heap.root.value, 9, 6);
    heap.Add(RISEN, 9, 6, live);
    Stays(heap.root.value, 10, 7);
    heap.Add(RISEN, 10, 7, live);
    next := heap.Peek(RISEN, live);
  }
}
