/** Which transactions of a block were moved out of fee rate order: those outside a longest sorted subsequence. */
module Prioritization {
  datatype Item = Item(txid: int, rate: real)

  /** The block without its coinbase, from the last transaction to the first. */
  function Considered(block: seq<Item>): seq<Item> {
    if block == [] then [] else seq(|block| - 1, i requires 0 <= i < |block| - 1 => block[|block| - 1 - i])
  }

  ghost function Rate(txs: seq<Item>, i: int): real {
    if 0 <= i < |txs| then txs[i].rate else 0.0
  }

  ghost function At(s: seq<int>, i: int): int {
    if 0 <= i < |s| then s[i] else 0
  }

  // ---------- longest sorted subsequences ----------

  ghost predicate Indices(n: nat, s: seq<int>) {
    && (forall a :: 0 <= a < |s| ==> 0 <= s[a] < n)
    && forall a, b :: 0 <= a < b < |s| ==> s[a] < s[b]
  }

  /** A subsequence, given by its indices, whose rates never fall. */
  ghost predicate Climbing(txs: seq<Item>, s: seq<int>) {
    Indices(|txs|, s) && forall a, b :: 0 <= a < b < |s| ==> Rate(txs, s[a]) <= Rate(txs, s[b])
  }

  ghost predicate Longest(txs: seq<Item>, s: seq<int>) {
    Climbing(txs, s) && forall s' :: Climbing(txs, s') ==> |s'| <= |s|
  }

  // ---------- the patience arrays ----------

  /** Every index seen has a rank: the length of the best climbing subsequence that ends there. tops[l] is an
      index of rank l with the least rate, and prev[j] a predecessor of rank one less. */
  ghost predicate Patience(txs: seq<Item>, prev: seq<int>, tops: seq<int>, rank: seq<int>, length: int) {
    && |prev| == |txs| && |tops| == |txs| + 1 && |rank| <= |txs| && 0 <= length <= |rank| && tops[0] == -1 && (rank != [] ==> length > 0)
    && Piles(tops, rank, length) && Links(txs, prev, rank) && Tops(txs, tops, rank) && Rising(txs, tops, length) && Ordered(txs, rank)
  }

  ghost predicate Piles(tops: seq<int>, rank: seq<int>, length: int) {
    && (forall l :: 1 <= l <= length ==> 0 <= At(tops, l) < |rank| && At(rank, At(tops, l)) == l)
    && forall j :: 0 <= j < |rank| ==> 1 <= At(rank, j) <= length
  }

  ghost predicate Link(txs: seq<Item>, prev: seq<int>, rank: seq<int>, j: int) {
    if At(rank, j) == 1 then At(prev, j) == -1 else
    0 <= At(prev, j) < j && At(rank, At(prev, j)) == At(rank, j) - 1 && Rate(txs, At(prev, j)) <= Rate(txs, j)
  }

  ghost predicate Links(txs: seq<Item>, prev: seq<int>, rank: seq<int>) {
    forall j :: 0 <= j < |rank| ==> Link(txs, prev, rank, j)
  }

  ghost predicate Tops(txs: seq<Item>, tops: seq<int>, rank: seq<int>) {
    forall j :: 0 <= j < |rank| ==> Rate(txs, At(tops, At(rank, j))) <= Rate(txs, j)
  }

  ghost predicate Rising(txs: seq<Item>, tops: seq<int>, length: int) {
    forall a, b :: 1 <= a <= b <= length ==> Rate(txs, At(tops, a)) <= Rate(txs, At(tops, b))
  }

  ghost predicate Ordered(txs: seq<Item>, rank: seq<int>) {
    forall j, k :: 0 <= j < k < |rank| && Rate(txs, j) <= Rate(txs, k) ==> At(rank, j) < At(rank, k)
  }

  /** The first pile whose top is above "x", or one past the last. */
  ghost predicate FirstAbove(txs: seq<Item>, tops: seq<int>, length: int, x: real, l: int) {
    1 <= l <= length + 1 && (forall a :: 1 <= a < l ==> Rate(txs, At(tops, a)) <= x) && (forall a :: l <= a <= length ==> Rate(txs, At(tops, a)) > x)
  }

  lemma PatienceStep(txs: seq<Item>, prev: seq<int>, tops: seq<int>, rank: seq<int>, length: int, l: int)
    requires Patience(txs, prev, tops, rank, length) && |rank| < |txs| && FirstAbove(txs, tops, length, Rate(txs, |rank|), l)
    ensures l < |tops|
    ensures Patience(txs, prev[|rank| := At(tops, l - 1)], tops[l := |rank|], rank + [l], if l > length then l else length)
  {
    hide *;
    PatienceSizes(txs, prev, tops, rank, length);
    AboveBounds(txs, tops, length, Rate(txs, |rank|), l);
    var i, length' := |rank|, if l > length then l else length;
    var prev', tops', rank' := prev[i := At(tops, l - 1)], tops[l := i], rank + [l];
    PilesStep(tops, rank, length, l);
    LinksStep(txs, prev, tops, rank, length, l);
    TopsStep(txs, tops, rank, length, l);
    RisingStep(txs, tops, length, l, i);
    OrderedStep(txs, tops, rank, length, l);
    PatienceWhole(txs, prev', tops', rank', length');
  }

  lemma PatienceSizes(txs: seq<Item>, prev: seq<int>, tops: seq<int>, rank: seq<int>, length: int)
    requires Patience(txs, prev, tops, rank, length)
    ensures |prev| == |txs| && |tops| == |txs| + 1 && |rank| <= |txs| && 0 <= length <= |rank| && tops[0] == -1 && (rank != [] ==> length > 0)
    ensures Piles(tops, rank, length) && Links(txs, prev, rank) && Tops(txs, tops, rank) && Rising(txs, tops, length) && Ordered(txs, rank)
  {
    hide Piles, Links, Tops, Rising, Ordered;
  }

  lemma PatienceWhole(txs: seq<Item>, prev: seq<int>, tops: seq<int>, rank: seq<int>, length: int)
    requires |prev| == |txs| && |tops| == |txs| + 1 && |rank| <= |txs| && 0 <= length <= |rank| && tops[0] == -1 && (rank != [] ==> length > 0)
    requires Piles(tops, rank, length) && Links(txs, prev, rank) && Tops(txs, tops, rank) && Rising(txs, tops, length) && Ordered(txs, rank)
    ensures Patience(txs, prev, tops, rank, length)
  {
    hide Piles, Links, Tops, Rising, Ordered;
  }

  lemma AboveBounds(txs: seq<Item>, tops: seq<int>, length: int, x: real, l: int)
    requires FirstAbove(txs, tops, length, x, l)
    ensures 1 <= l <= length + 1
  {
  }

  lemma PilesStep(tops: seq<int>, rank: seq<int>, length: int, l: int)
    requires Piles(tops, rank, length) && 1 <= l <= length + 1 && l < |tops|
    ensures Piles(tops[l := |rank|], rank + [l], if l > length then l else length)
  {
    var length' := if l > length then l else length;
    AtUpdated(tops, l, |rank|);
    AtAppended(rank, l);
    var tops', rank' := tops[l := |rank|], rank + [l];
    hide At;
    forall a | 1 <= a <= length' ensures 0 <= At(tops', a) < |rank'| && At(rank', At(tops', a)) == a {
      assert a != l ==> 0 <= At(tops, a) < |rank| && At(rank, At(tops, a)) == a;
    }
  }

  lemma AtUpdated(s: seq<int>, i: int, v: int)
    requires 0 <= i < |s|
    ensures forall a :: At(s[i := v], a) == if a == i then v else At(s, a)
  {
    var s' := s[i := v];
    forall a ensures At(s', a) == if a == i then v else At(s, a) {
    }
  }

  lemma AtAppended(s: seq<int>, v: int)
    ensures At(s + [v], |s|) == v
    ensures forall a :: a < |s| ==> At(s + [v], a) == At(s, a)
  {
  }

  lemma LinksStep(txs: seq<Item>, prev: seq<int>, tops: seq<int>, rank: seq<int>, length: int, l: int)
    requires Links(txs, prev, rank) && Piles(tops, rank, length) && |rank| < |txs| == |prev| && |tops| > 0 && tops[0] == -1
    requires FirstAbove(txs, tops, length, Rate(txs, |rank|), l)
    ensures Links(txs, prev[|rank| := At(tops, l - 1)], rank + [l])
  {
    var i, prev', rank' := |rank|, prev[|rank| := At(tops, l - 1)], rank + [l];
    forall j | 0 <= j < |rank'| ensures Link(txs, prev', rank', j) {
      if j < i {
        assert Link(txs, prev, rank, j);
      }
    }
  }

  lemma TopsStep(txs: seq<Item>, tops: seq<int>, rank: seq<int>, length: int, l: int)
    requires Tops(txs, tops, rank) && Piles(tops, rank, length) && |rank| < |txs| && l < |tops|
    requires FirstAbove(txs, tops, length, Rate(txs, |rank|), l)
    ensures Tops(txs, tops[l := |rank|], rank + [l])
  {
    AtUpdated(tops, l, |rank|);
    AtAppended(rank, l);
    hide At, Rate;
    var tops', rank' := tops[l := |rank|], rank + [l];
    forall j | 0 <= j < |rank'| ensures Rate(txs, At(tops', At(rank', j))) <= Rate(txs, j) {
      if j < |rank| {
        assert Rate(txs, At(tops, At(rank, j))) <= Rate(txs, j) && 1 <= At(rank, j) <= length;
      }
    }
  }

  lemma RisingStep(txs: seq<Item>, tops: seq<int>, length: int, l: int, i: int)
    requires Rising(txs, tops, length) && l < |tops| && FirstAbove(txs, tops, length, Rate(txs, i), l)
    ensures Rising(txs, tops[l := i], if l > length then l else length)
  {
    AtUpdated(tops, l, i);
    hide At, Rate;
    var tops', length' := tops[l := i], if l > length then l else length;
    forall a, b | 1 <= a <= b <= length' ensures Rate(txs, At(tops', a)) <= Rate(txs, At(tops', b)) {
      if a < l == b {
        assert Rate(txs, At(tops, a)) <= Rate(txs, i);
      } else if a == l < b {
        assert Rate(txs, At(tops, b)) > Rate(txs, i);
      } else if a != l {
        assert Rate(txs, At(tops, a)) <= Rate(txs, At(tops, b));
      }
    }
  }

  lemma OrderedStep(txs: seq<Item>, tops: seq<int>, rank: seq<int>, length: int, l: int)
    requires Ordered(txs, rank) && Tops(txs, tops, rank) && Piles(tops, rank, length) && FirstAbove(txs, tops, length, Rate(txs, |rank|), l)
    ensures Ordered(txs, rank + [l])
  {
    AtAppended(rank, l);
    hide At, Rate;
    var rank' := rank + [l];
    forall j, k | 0 <= j < k < |rank'| && Rate(txs, j) <= Rate(txs, k) ensures At(rank', j) < At(rank', k) {
      if k == |rank| {
        assert Rate(txs, At(tops, At(rank, j))) <= Rate(txs, j) && 1 <= At(rank, j) <= length;
      }
    }
  }

  /** No climbing subsequence is longer than the rank of its last index. */
  lemma {:induction false} RankBounds(txs: seq<Item>, rank: seq<int>, s: seq<int>)
    requires Ordered(txs, rank) && |rank| == |txs| && Climbing(txs, s) && s != []
    requires forall j :: 0 <= j < |rank| ==> 1 <= At(rank, j)
    ensures |s| <= At(rank, s[|s| - 1])
  {
    var n := |s| - 1;
    if n > 0 {
      assert forall a, b :: 0 <= a < b < n ==> s[..n][a] == s[a] && s[..n][b] == s[b];
      RankBounds(txs, rank, s[..n]);
      assert Rate(txs, s[n - 1]) <= Rate(txs, s[n]);
    }
  }

  // ---------- reading the subsequence back ----------

  /** The last "|tail|" indices of the answer are read; "k" comes before them. */
  ghost predicate ReadBack(txs: seq<Item>, rank: seq<int>, j: int, k: int, tail: seq<int>) {
    && Climbing(txs, tail) && (if j == 0 then k == -1 else 0 <= k < |rank| && At(rank, k) == j)
    && (tail != [] && j > 0 ==> k < tail[0] && Rate(txs, k) <= Rate(txs, tail[0]))
  }

  lemma ReadBackStep(txs: seq<Item>, prev: seq<int>, rank: seq<int>, j: int, k: int, tail: seq<int>)
    requires Links(txs, prev, rank) && ReadBack(txs, rank, j, k, tail) && j > 0 && |rank| == |txs| == |prev|
    ensures 0 <= k < |txs| && ReadBack(txs, rank, j - 1, prev[k], [k] + tail)
  {
    assert Link(txs, prev, rank, k);
    PrependClimbing(txs, k, tail);
  }

  lemma PrependClimbing(txs: seq<Item>, k: int, tail: seq<int>)
    requires Climbing(txs, tail) && 0 <= k < |txs|
    requires tail != [] ==> k < tail[0] && Rate(txs, k) <= Rate(txs, tail[0])
    ensures Climbing(txs, [k] + tail)
  {
    var s := [k] + tail;
    forall a, b | 0 <= a < b < |s| ensures s[a] < s[b] && Rate(txs, s[a]) <= Rate(txs, s[b]) {
      assert s[b] == tail[b - 1];
      if a > 0 {
        assert s[a] == tail[a - 1];
      } else if b > 1 {
        assert tail[0] < tail[b - 1] && Rate(txs, tail[0]) <= Rate(txs, tail[b - 1]);
      }
    }
  }

  lemma LongestFound(txs: seq<Item>, prev: seq<int>, tops: seq<int>, rank: seq<int>, length: int, s: seq<int>)
    requires Patience(txs, prev, tops, rank, length) && |rank| == |txs| && Climbing(txs, s) && |s| == length
    ensures Longest(txs, s)
  {
    forall s' | Climbing(txs, s') ensures |s'| <= |s| {
      if s' != [] {
        RankBounds(txs, rank, s');
        assert 0 <= s'[|s'| - 1] < |txs|;
      }
    }
  }

  // ---------- classification ----------

  /** The rate an index is compared with: that of the nearest kept index before it, or of the very first. */
  ghost function Baseline(txs: seq<Item>, kept: seq<int>, i: int): real {
    if i <= 0 then Rate(txs, 0) else if i - 1 in kept then Rate(txs, i - 1) else Baseline(txs, kept, i - 1)
  }

  datatype Verdict = Kept | AlmostSame | Prioritized | Deprioritized

  function Abs(x: real): real {
    if x < 0.0 then -x else x
  }

  ghost function Judge(rate: real, baseline: real): Verdict {
    if Abs(rate - baseline) < 0.1 then AlmostSame else if rate <= baseline then Prioritized else Deprioritized
  }

  ghost function Judged(txs: seq<Item>, kept: seq<int>, i: int): Verdict {
    if i in kept then Kept else Judge(Rate(txs, i), Baseline(txs, kept, i))
  }

  /** The identifiers of the first "n" transactions with the given verdict, in order. */
  ghost function Listing(txs: seq<Item>, kept: seq<int>, v: Verdict, n: nat): seq<int>
    requires n <= |txs|
  {
    if n == 0 then [] else Listing(txs, kept, v, n - 1) + if Judged(txs, kept, n - 1) == v then [txs[n - 1].txid] else []
  }

  ghost predicate DistinctIds(txs: seq<Item>) {
    forall i, j :: 0 <= i < j < |txs| ==> txs[i].txid != txs[j].txid
  }

  /** The identifiers of the first "n" kept transactions. */
  ghost function KeptIds(txs: seq<Item>, kept: seq<int>, n: nat): set<int> {
    set a | 0 <= a < n && a < |kept| && 0 <= kept[a] < |txs| :: txs[kept[a]].txid
  }

  lemma NoneKept(txs: seq<Item>, kept: seq<int>)
    requires Longest(txs, kept)
    ensures KeptIds(txs, kept, 0) == {} && Indices(|txs|, kept)
  {
  }

  lemma OneMoreKept(txs: seq<Item>, kept: seq<int>, a: nat)
    requires a < |kept| && Indices(|txs|, kept)
    ensures KeptIds(txs, kept, a + 1) == KeptIds(txs, kept, a) + {Items(txs, kept)[a].txid}
  {
  }

  lemma {:induction false} FewIndices(n: nat, s: seq<int>)
    requires Indices(n, s)
    ensures |s| <= n
  {
    if s != [] {
      var last := |s| - 1;
      assert forall a :: 0 <= a < last ==> s[a] < s[last];
      FewIndices(s[last], s[..last]);
    }
  }

  lemma TooShort(txs: seq<Item>) returns (kept: seq<int>)
    requires |txs| < 2
    ensures Longest(txs, kept) && forall v :: v != Kept ==> Listing(txs, kept, v, |txs|) == []
  {
    kept := if |txs| == 0 then [] else [0];
    assert Climbing(txs, kept);
    forall s | Climbing(txs, s) ensures |s| <= |kept| {
      FewIndices(|txs|, s);
    }
    assert |txs| == 1 ==> Judged(txs, kept, 0) == Kept;
  }

  lemma ConsideredDistinct(block: seq<Item>)
    requires DistinctIds(block)
    ensures DistinctIds(Considered(block))
  {
  }

  /** The source finds kept transactions by identifier; with distinct identifiers that is by index. */
  lemma KeptById(txs: seq<Item>, kept: seq<int>, ids: set<int>, i: nat)
    requires DistinctIds(txs) && Indices(|txs|, kept) && i < |txs|
    requires ids == KeptIds(txs, kept, |kept|)
    ensures txs[i].txid in ids <==> i in kept
  {
  }

  lemma {:induction false} ListingMembers(txs: seq<Item>, kept: seq<int>, v: Verdict, n: nat, x: int)
    requires n <= |txs|
    ensures x in Listing(txs, kept, v, n) <==> exists i :: 0 <= i < n && txs[i].txid == x && Judged(txs, kept, i) == v
  {
    hide Judged;
    if n > 0 {
      ListingMembers(txs, kept, v, n - 1, x);
    }
  }

  /** The two lists are disjoint and avoid the kept subsequence. */
  lemma ListsDisjoint(txs: seq<Item>, kept: seq<int>, x: int)
    requires DistinctIds(txs)
    ensures !(x in Listing(txs, kept, Prioritized, |txs|) && x in Listing(txs, kept, Deprioritized, |txs|))
    ensures x in Listing(txs, kept, Prioritized, |txs|) || x in Listing(txs, kept, Deprioritized, |txs|)
      ==> forall a :: 0 <= a < |kept| && 0 <= kept[a] < |txs| ==> txs[kept[a]].txid != x
  {
    if x in Listing(txs, kept, Prioritized, |txs|) {
      var i := ListedAt(txs, kept, Prioritized, x);
      OnlyThere(txs, kept, i);
    }
    if x in Listing(txs, kept, Deprioritized, |txs|) {
      var i := ListedAt(txs, kept, Deprioritized, x);
      OnlyThere(txs, kept, i);
    }
    hide Judged, Listing;
  }

  lemma ListedAt(txs: seq<Item>, kept: seq<int>, v: Verdict, x: int) returns (i: nat)
    requires x in Listing(txs, kept, v, |txs|)
    ensures i < |txs| && txs[i].txid == x && Judged(txs, kept, i) == v
  {
    ListingMembers(txs, kept, v, |txs|, x);
    hide Judged;
    i :| 0 <= i < |txs| && txs[i].txid == x && Judged(txs, kept, i) == v;
  }

  /** An identifier has one index, so one verdict. */
  lemma OnlyThere(txs: seq<Item>, kept: seq<int>, i: nat)
    requires DistinctIds(txs) && i < |txs|
    ensures forall v :: txs[i].txid in Listing(txs, kept, v, |txs|) ==> Judged(txs, kept, i) == v
    ensures Judged(txs, kept, i) != Kept ==> forall a :: 0 <= a < |kept| && 0 <= kept[a] < |txs| ==> txs[kept[a]].txid != txs[i].txid
  {
    forall v | txs[i].txid in Listing(txs, kept, v, |txs|) ensures Judged(txs, kept, i) == v {
      var j := ListedAt(txs, kept, v, txs[i].txid);
    }
    hide Listing, Judge, Baseline;
  }

  ghost function Below(kept: seq<int>, n: int): nat {
    if kept == [] then 0 else Below(kept[..|kept| - 1], n) + if kept[|kept| - 1] < n then 1 else 0
  }

  lemma {:induction false} BelowBounds(kept: seq<int>, n: int)
    ensures 0 <= Below(kept, n) <= |kept|
    ensures (forall a :: 0 <= a < |kept| ==> kept[a] < n) ==> Below(kept, n) == |kept|
    ensures (forall a :: 0 <= a < |kept| ==> kept[a] >= n) ==> Below(kept, n) == 0
  {
    if kept != [] { BelowBounds(kept[..|kept| - 1], n); }
  }

  lemma {:induction false} BelowStep(m: nat, kept: seq<int>, n: int)
    requires Indices(m, kept)
    ensures Below(kept, n + 1) == Below(kept, n) + if n in kept then 1 else 0
  {
    if kept != [] {
      var last := |kept| - 1;
      BelowStep(m, kept[..last], n);
      if kept[last] == n {
        assert n !in kept[..last];
      }
      assert kept == kept[..last] + [kept[last]];
    }
  }

  /** Together the lists have no more members than the subsequence leaves over. */
  lemma {:induction false} ListsBounded(txs: seq<Item>, kept: seq<int>, n: nat)
    requires n <= |txs| && Indices(|txs|, kept)
    ensures |Listing(txs, kept, Prioritized, n)| + |Listing(txs, kept, Deprioritized, n)| + Below(kept, n) <= n
  {
    BelowBounds(kept, 0);
    if n > 0 {
      ListsBounded(txs, kept, n - 1);
      BelowStep(|txs|, kept, n - 1);
    }
  }

  lemma FewReported(txs: seq<Item>, kept: seq<int>)
    requires Indices(|txs|, kept)
    ensures |Listing(txs, kept, Prioritized, |txs|)| + |Listing(txs, kept, Deprioritized, |txs|)| <= |txs| - |kept|
  {
    ListsBounded(txs, kept, |txs|);
    BelowBounds(kept, |txs|);
  }

  // ---------- what the answer means ----------

  /** The indices below "n" that are not removed. */
  ghost function Remaining(removed: set<int>, n: nat): seq<int> {
    if n == 0 then [] else Remaining(removed, n - 1) + if n - 1 in removed then [] else [n - 1]
  }

  lemma {:induction false} RemainingIndices(removed: set<int>, n: nat)
    ensures forall a :: 0 <= a < |Remaining(removed, n)| ==> 0 <= Remaining(removed, n)[a] < n && Remaining(removed, n)[a] !in removed
    ensures forall a, b :: 0 <= a < b < |Remaining(removed, n)| ==> Remaining(removed, n)[a] < Remaining(removed, n)[b]
  {
    if n > 0 { RemainingIndices(removed, n - 1); }
  }

  ghost function UpTo(removed: set<int>, n: nat): set<int> {
    set x | x in removed && 0 <= x < n
  }

  lemma {:induction false} RemainingCount(removed: set<int>, n: nat)
    ensures |Remaining(removed, n)| + |UpTo(removed, n)| == n
  {
    if n == 0 {
      assert UpTo(removed, 0) == {};
    } else {
      RemainingCount(removed, n - 1);
      if n - 1 in removed {
        assert UpTo(removed, n) == UpTo(removed, n - 1) + {n - 1};
      } else {
        assert UpTo(removed, n) == UpTo(removed, n - 1);
      }
    }
  }

  /** Whatever set of transactions is taken out to leave the rest sorted, it is at least as large as
      what the kept subsequence leaves over. */
  lemma NoSmallerRemoval(txs: seq<Item>, kept: seq<int>, removed: set<int>)
    requires Longest(txs, kept) && (forall x :: x in removed ==> 0 <= x < |txs|)
    requires forall i, j :: 0 <= i < j < |txs| && i !in removed && j !in removed ==> Rate(txs, i) <= Rate(txs, j)
    ensures |removed| >= |txs| - |kept|
  {
    var s := Remaining(removed, |txs|);
    RemainingIndices(removed, |txs|);
    RemainingCount(removed, |txs|);
    assert UpTo(removed, |txs|) == removed;
    assert Climbing(txs, s);
  }

  lemma {:induction false} BaselineOrigin(txs: seq<Item>, kept: seq<int>, i: nat) returns (k: nat)
    requires i < |txs|
    ensures k <= i && Rate(txs, k) == Baseline(txs, kept, i) && (k in kept || k == 0)
    ensures i > 0 ==> k < i
    ensures forall j :: k < j < i ==> j !in kept
    ensures k !in kept ==> forall j :: 0 <= j < i ==> j !in kept
  {
    if i == 0 {
      k := 0;
    } else if i - 1 in kept {
      k := i - 1;
    } else {
      k := BaselineOrigin(txs, kept, i - 1);
    }
  }

  /** A transaction reported as prioritized was mined ahead of one that pays at least 0.1 more. */
  lemma PrioritizedJumped(txs: seq<Item>, kept: seq<int>, i: nat) returns (k: nat)
    requires i < |txs| && Judged(txs, kept, i) == Prioritized
    ensures k < i && (k in kept || k == 0) && Rate(txs, k) >= Rate(txs, i) + 0.1
  {
    k := BaselineOrigin(txs, kept, i);
  }

  lemma InsertClimbing(txs: seq<Item>, s: seq<int>, p: nat, i: int)
    requires Climbing(txs, s) && p <= |s| && 0 <= i < |txs|
    requires forall a :: 0 <= a < p ==> s[a] < i && Rate(txs, s[a]) <= Rate(txs, i)
    requires forall a :: p <= a < |s| ==> i < s[a] && Rate(txs, i) <= Rate(txs, s[a])
    ensures Climbing(txs, s[..p] + [i] + s[p..])
  {
    var t := s[..p] + [i] + s[p..];
    forall a | 0 <= a < |t| ensures 0 <= t[a] < |txs| {
    }
    forall a, b | 0 <= a < b < |t| ensures t[a] < t[b] && Rate(txs, t[a]) <= Rate(txs, t[b]) {
      hide Rate;
      var a', b' := if a < p then a else a - 1, if b < p then b else b - 1;
      if a != p && b != p {
        assert t[a] == s[a'] && t[b] == s[b'];
      }
    }
  }

  /** The place of an index among the kept ones. */
  lemma {:induction false} Place(n: nat, s: seq<int>, i: int) returns (p: nat)
    requires Indices(n, s) && i !in s
    ensures p <= |s| && (forall a :: 0 <= a < p ==> s[a] < i) && (forall a :: p <= a < |s| ==> i < s[a])
  {
    p := |s|;
    while p > 0 && s[p - 1] > i
      invariant p <= |s| && forall a :: p <= a < |s| ==> i < s[a]
    {
      p := p - 1;
    }
    if p > 0 {
      assert s[p - 1] in s;
    }
  }

  /** A transaction reported as deprioritized was mined behind a kept one that pays strictly less. */
  lemma DeprioritizedPassed(txs: seq<Item>, kept: seq<int>, i: nat) returns (k: nat)
    requires i < |txs| && Longest(txs, kept) && Judged(txs, kept, i) == Deprioritized
    ensures i < k < |txs| && k in kept && Rate(txs, k) < Rate(txs, i)
  {
    var p := Place(|txs|, kept, i);
    var b := BaselineOrigin(txs, kept, i);
    assert forall a :: 0 <= a < p ==> Rate(txs, kept[a]) <= Rate(txs, i) by {
      KeptBefore(txs, kept, i, p, b);
    }
    if a :| p <= a < |kept| && Rate(txs, kept[a]) < Rate(txs, i) {
      k := kept[a];
    } else {
      InsertClimbing(txs, kept, p, i);
      assert false;
    }
  }

  /** The kept transactions before an index pay no more than its baseline. */
  lemma KeptBefore(txs: seq<Item>, kept: seq<int>, i: nat, p: nat, b: nat)
    requires Climbing(txs, kept) && p <= |kept| && (forall a :: 0 <= a < p ==> kept[a] < i)
    requires Baseline(txs, kept, i) == Rate(txs, b) && Baseline(txs, kept, i) <= Rate(txs, i)
    requires (forall j :: b < j < i ==> j !in kept) && (b !in kept ==> forall j :: 0 <= j < i ==> j !in kept)
    ensures forall a :: 0 <= a < p ==> Rate(txs, kept[a]) <= Rate(txs, i)
  {
    forall a | 0 <= a < p ensures Rate(txs, kept[a]) <= Rate(txs, i) {
      assert kept[a] in kept;
      var c :| 0 <= c < |kept| && kept[c] == b;
      assert kept[a] <= b;
      assert a <= c;
    }
  }

  /** In block order: what is reported as prioritized was mined before something that pays at least 0.1 more. */
  lemma MovedUp(block: seq<Item>, txs: seq<Item>, kept: seq<int>, x: int) returns (i: nat, k: nat)
    requires Backwards(block, txs) && x in Listing(txs, kept, Prioritized, |txs|)
    ensures 1 <= i < k < |block| && block[i].txid == x && block[k].rate >= block[i].rate + 0.1
  {
    hide Judged, Listing;
    var a := ListedAt(txs, kept, Prioritized, x);
    var b := PrioritizedJumped(txs, kept, a);
    i, k := |block| - 1 - a, |block| - 1 - b;
  }

  /** In block order: what is reported as deprioritized was mined after something that pays less. */
  lemma MovedDown(block: seq<Item>, txs: seq<Item>, kept: seq<int>, x: int) returns (i: nat, k: nat)
    requires Backwards(block, txs) && Longest(txs, kept) && x in Listing(txs, kept, Deprioritized, |txs|)
    ensures 1 <= k < i < |block| && block[i].txid == x && block[k].rate < block[i].rate
  {
    hide Judged, Listing, Longest;
    var a := ListedAt(txs, kept, Deprioritized, x);
    var b := DeprioritizedPassed(txs, kept, a);
    i, k := |block| - 1 - a, |block| - 1 - b;
  }

  /** A block in fee rate order has nothing to report. */
  lemma SortedReportsNothing(txs: seq<Item>, kept: seq<int>)
    requires Longest(txs, kept) && forall i, j :: 0 <= i < j < |txs| ==> Rate(txs, i) <= Rate(txs, j)
    ensures Listing(txs, kept, Prioritized, |txs|) == [] && Listing(txs, kept, Deprioritized, |txs|) == []
  {
    NoSmallerRemovalNeeded(txs, kept);
    FewReported(txs, kept);
  }

  lemma NoSmallerRemovalNeeded(txs: seq<Item>, kept: seq<int>)
    requires Longest(txs, kept) && forall i, j :: 0 <= i < j < |txs| ==> Rate(txs, i) <= Rate(txs, j)
    ensures |kept| >= |txs|
  {
    NoSmallerRemoval(txs, kept, {});
  }

  // ---------- the algorithm ----------

  /** Binary search for the first pile whose top is above the i-th rate. */
  method FindPile(txs: seq<Item>, tops: array<int>, length: int, i: nat) returns (l: int)
    requires 0 <= length < tops.Length && i < |txs| && Rising(txs, tops[..], length)
    requires forall a :: 1 <= a <= length ==> 0 <= At(tops[..], a) < |txs|
    ensures FirstAbove(txs, tops[..], length, txs[i].rate, l)
  {
    var lo, hi := 1, length + 1;
    while lo < hi
      invariant 1 <= lo <= hi <= length + 1
      invariant forall a :: 1 <= a < lo ==> Rate(txs, At(tops[..], a)) <= txs[i].rate
      invariant forall a :: hi <= a <= length ==> Rate(txs, At(tops[..], a)) > txs[i].rate
    {
      var mid := lo + (hi - lo) / 2;
      assert tops[mid] == At(tops[..], mid);
      if txs[tops[mid]].rate > txs[i].rate {
        hi := mid;
      } else {
        lo := mid + 1;
      }
    }
    l := lo;
  }

  lemma PatienceStarts(txs: seq<Item>, prev: seq<int>, tops: seq<int>)
    requires |prev| == |txs| && |tops| == |txs| + 1 && tops[0] == -1
    ensures Patience(txs, prev, tops, [], 0)
  {
  }

  lemma PilesInside(txs: seq<Item>, tops: seq<int>, rank: seq<int>, length: int)
    requires Piles(tops, rank, length) && |rank| <= |txs|
    ensures forall a :: 1 <= a <= length ==> 0 <= At(tops, a) < |txs|
  {
  }

  method FillPiles(txs: seq<Item>, prev: array<int>, tops: array<int>) returns (length: int, ghost rank: seq<int>)
    requires prev.Length == |txs| && tops.Length == |txs| + 1 && prev != tops
    modifies prev, tops
    ensures |rank| == |txs| && Patience(txs, prev[..], tops[..], rank, length)
  {
    hide *;
    tops[0] := -1;
    length, rank := 0, [];
    PatienceStarts(txs, prev[..], tops[..]);
    for i := 0 to |txs|
      invariant |rank| == i && Patience(txs, prev[..], tops[..], rank, length)
    {
      ghost var p, m := prev[..], tops[..];
      PatienceSizes(txs, p, m, rank, length);
      PilesInside(txs, m, rank, length);
      var newLength := FindPile(txs, tops, length, i);
      RateAt(txs, i);
      PatienceStep(txs, p, m, rank, length, newLength);
      AboveBounds(txs, m, length, txs[i].rate, newLength);
      AtIs(m, newLength - 1);
      prev[i] := tops[newLength - 1];
      tops[newLength] := i;
      assert prev[..] == p[i := m[newLength - 1]] && tops[..] == m[newLength := i];
      rank := rank + [newLength];
      if newLength > length {
        length := newLength;
      }
    }
  }

  lemma RateAt(txs: seq<Item>, i: int)
    requires 0 <= i < |txs|
    ensures Rate(txs, i) == txs[i].rate
  {
  }

  lemma AtIs(s: seq<int>, i: int)
    requires 0 <= i < |s|
    ensures At(s, i) == s[i]
  {
  }

  lemma ReadBackStarts(txs: seq<Item>, prev: seq<int>, tops: seq<int>, rank: seq<int>, length: int)
    requires Patience(txs, prev, tops, rank, length) && |rank| == |txs|
    ensures length < |tops| && ReadBack(txs, rank, length, tops[length], [])
  {
    PatienceSizes(txs, prev, tops, rank, length);
    AtIs(tops, length);
    assert length >= 1 ==> 0 <= At(tops, length) < |rank| && At(rank, At(tops, length)) == length;
    hide Patience, Links, Tops, Rising, Ordered;
  }

  /** The transactions at the given indices. */
  ghost function Items(txs: seq<Item>, s: seq<int>): (r: seq<Item>)
    ensures |r| == |s|
  {
    seq(|s|, a requires 0 <= a < |s| => if 0 <= s[a] < |txs| then txs[s[a]] else Item(0, 0.0))
  }

  lemma NoItems(txs: seq<Item>)
    ensures Items(txs, []) == []
  {
  }

  lemma ItemsPrepend(txs: seq<Item>, k: int, s: seq<int>)
    requires 0 <= k < |txs|
    ensures Items(txs, [k] + s) == [txs[k]] + Items(txs, s)
  {
  }

  method Reconstruct(txs: seq<Item>, prev: seq<int>, tops: seq<int>, length: int, ghost rank: seq<int>) returns (longest: array<Item>)
    requires |rank| == |txs| && Patience(txs, prev, tops, rank, length)
    ensures exists kept :: Longest(txs, kept) && longest[..] == Items(txs, kept)
  {
    hide *;
    PatienceSizes(txs, prev, tops, rank, length);
    longest := new Item[length](_ => Item(0, 0.0));
    ReadBackStarts(txs, prev, tops, rank, length);
    var k := tops[length];
    ghost var kept := [];
    NoItems(txs);
    var j := length - 1;
    while j >= 0
      invariant -1 <= j < length && |kept| == length - 1 - j && ReadBack(txs, rank, j + 1, k, kept)
      invariant longest[j + 1..] == Items(txs, kept)
    {
      ReadBackStep(txs, prev, rank, j + 1, k, kept);
      ItemsPrepend(txs, k, kept);
      ghost var tail := longest[j + 1..];
      longest[j] := txs[k];
      assert longest[j..] == [txs[k]] + tail;
      kept := [k] + kept;
      k := prev[k];
      j := j - 1;
    }
    ReadBackClimbing(txs, rank, 0, k, kept);
    LongestFound(txs, prev, tops, rank, length, kept);
  }

  lemma ReadBackClimbing(txs: seq<Item>, rank: seq<int>, j: int, k: int, tail: seq<int>)
    requires ReadBack(txs, rank, j, k, tail)
    ensures Climbing(txs, tail)
  {
  }

  /** All of the block but its first transaction, backwards. */
  ghost predicate Backwards(block: seq<Item>, txs: seq<Item>) {
    |txs| == (if block == [] then 0 else |block| - 1) && forall i :: 0 <= i < |txs| ==> txs[i] == block[|block| - 1 - i]
  }

  /** "k" is the nearest kept index before "i", or the very first index if there is none. */
  ghost predicate Nearest(kept: seq<int>, i: int, k: int) {
    0 <= k <= i && (forall j :: k < j < i ==> j !in kept) && if k in kept then k < i else k == 0
  }

  /** A transaction outside the subsequence is listed as moved up exactly when the nearest kept rate is at least 0.1
      above its own, and as moved down exactly when that rate is at least 0.1 below. */
  ghost predicate ListedRight(txs: seq<Item>, kept: seq<int>, up: seq<int>, down: seq<int>, i: nat)
    requires i < |txs|
  {
    exists k :: Nearest(kept, i, k)
      && (txs[i].txid in up <==> txs[k].rate >= txs[i].rate + 0.1) && (txs[i].txid in down <==> txs[k].rate <= txs[i].rate - 0.1)
  }

  /** The list names transactions outside the subsequence, in order and none twice: those at the indices "s". */
  ghost predicate Names(txs: seq<Item>, kept: seq<int>, list: seq<int>, s: seq<int>) {
    Indices(|txs|, s) && |s| == |list| && forall a :: 0 <= a < |s| ==> s[a] !in kept && list[a] == txs[s[a]].txid
  }

  /** The lists are what a longest sorted subsequence leaves over, each in order. */
  ghost predicate ReportedFor(txs: seq<Item>, kept: seq<int>, prioritized: seq<int>, deprioritized: seq<int>) {
    && Longest(txs, kept)
    && (forall i :: 0 <= i < |txs| && i !in kept ==> ListedRight(txs, kept, prioritized, deprioritized, i))
    && (exists s :: Names(txs, kept, prioritized, s)) && (exists s :: Names(txs, kept, deprioritized, s))
    && prioritized == Listing(txs, kept, Prioritized, |txs|) && deprioritized == Listing(txs, kept, Deprioritized, |txs|)
  }

  lemma ConsideredBackwards(block: seq<Item>)
    ensures Backwards(block, Considered(block))
  {
  }

  lemma ListingRight(txs: seq<Item>, kept: seq<int>, i: nat)
    requires DistinctIds(txs) && i < |txs| && i !in kept
    ensures ListedRight(txs, kept, Listing(txs, kept, Prioritized, |txs|), Listing(txs, kept, Deprioritized, |txs|), i)
  {
    var up, down := Listing(txs, kept, Prioritized, |txs|), Listing(txs, kept, Deprioritized, |txs|);
    var k := BaselineOrigin(txs, kept, i);
    ListingMembers(txs, kept, Prioritized, |txs|, txs[i].txid);
    ListingMembers(txs, kept, Deprioritized, |txs|, txs[i].txid);
    OnlyThere(txs, kept, i);
    assert Rate(txs, k) == txs[k].rate && Rate(txs, i) == txs[i].rate;
    hide Listing, Baseline, Rate;
    assert Nearest(kept, i, k);
  }

  lemma NamesMore(txs: seq<Item>, kept: seq<int>, list: seq<int>, s: seq<int>, i: nat)
    requires Names(txs, kept, list, s) && (forall a :: 0 <= a < |s| ==> s[a] < i) && i < |txs| && i !in kept
    ensures Names(txs, kept, list + [txs[i].txid], s + [i])
  {
  }

  lemma ListingMore(txs: seq<Item>, kept: seq<int>, v: Verdict, n: nat)
    requires 0 < n <= |txs| && v != Kept
    ensures Judged(txs, kept, n - 1) == v ==> n - 1 !in kept && Listing(txs, kept, v, n) == Listing(txs, kept, v, n - 1) + [txs[n - 1].txid]
    ensures Judged(txs, kept, n - 1) != v ==> Listing(txs, kept, v, n) == Listing(txs, kept, v, n - 1)
  {
    hide Baseline, Judge;
  }

  lemma {:induction false} ListingNames(txs: seq<Item>, kept: seq<int>, v: Verdict, n: nat) returns (s: seq<int>)
    requires n <= |txs| && v != Kept
    ensures Names(txs, kept, Listing(txs, kept, v, n), s) && forall a :: 0 <= a < |s| ==> s[a] < n
  {
    if n == 0 {
      s := [];
    } else {
      s := ListingNames(txs, kept, v, n - 1);
      ListingMore(txs, kept, v, n);
      hide Listing, Judged, Names;
      if Judged(txs, kept, n - 1) == v {
        NamesMore(txs, kept, Listing(txs, kept, v, n - 1), s, n - 1);
        s := s + [n - 1];
      }
    }
  }

  /** The transactions of the block that were moved up, and those that were moved down. */
  method IdentifyPrioritizedTransactions(block: seq<Item>) returns (prioritized: seq<int>, deprioritized: seq<int>)
    requires DistinctIds(block)
    ensures exists txs, kept :: Backwards(block, txs) && ReportedFor(txs, kept, prioritized, deprioritized)
  {
    var txs := Considered(block);
    ConsideredBackwards(block);
    ConsideredDistinct(block);
    hide *;
    if |txs| < 2 {
      ghost var none := TooShort(txs);
      NothingReported(txs, none);
      return [], [];
    }
    var n := |txs|;
    var prev, tops := new int[n](_ => -1), new int[n + 1](_ => -1);
    var length, rank := FillPiles(txs, prev, tops);
    var longest := Reconstruct(txs, prev[..], tops[..], length, rank);
    ghost var kept :| Longest(txs, kept) && longest[..] == Items(txs, kept);
    var lisMap := {};
    NoneKept(txs, kept);
    for a := 0 to longest.Length
      invariant longest[..] == Items(txs, kept) && lisMap == KeptIds(txs, kept, a)
    {
      OneMoreKept(txs, kept, a);
      assert longest[a] == longest[..][a];
      lisMap := lisMap + {longest[a].txid};
    }
    prioritized, deprioritized := Classify(txs, lisMap, kept);
    ReportIs(txs, kept, prioritized, deprioritized);
  }

  lemma ReportIs(txs: seq<Item>, kept: seq<int>, prioritized: seq<int>, deprioritized: seq<int>)
    requires Longest(txs, kept) && DistinctIds(txs)
    requires prioritized == Listing(txs, kept, Prioritized, |txs|) && deprioritized == Listing(txs, kept, Deprioritized, |txs|)
    ensures ReportedFor(txs, kept, prioritized, deprioritized)
  {
    hide Longest, Listing, ListedRight, Names, DistinctIds;
    forall i | 0 <= i < |txs| && i !in kept ensures ListedRight(txs, kept, prioritized, deprioritized, i) {
      ListingRight(txs, kept, i);
    }
    var s := ListingNames(txs, kept, Prioritized, |txs|);
    var s' := ListingNames(txs, kept, Deprioritized, |txs|);
  }

  lemma NothingReported(txs: seq<Item>, kept: seq<int>)
    requires Longest(txs, kept) && DistinctIds(txs) && forall v :: v != Kept ==> Listing(txs, kept, v, |txs|) == []
    ensures ReportedFor(txs, kept, [], [])
  {
    hide Longest, Listing, ReportedFor, DistinctIds;
    ReportIs(txs, kept, [], []);
  }

  method Classify(txs: seq<Item>, lisMap: set<int>, ghost kept: seq<int>) returns (prioritized: seq<int>, deprioritized: seq<int>)
    requires DistinctIds(txs) && Indices(|txs|, kept) && |txs| > 0 && lisMap == KeptIds(txs, kept, |kept|)
    ensures prioritized == Listing(txs, kept, Prioritized, |txs|) && deprioritized == Listing(txs, kept, Deprioritized, |txs|)
  {
    prioritized, deprioritized := [], [];
    var lastRate := txs[0].rate;
    for i := 0 to |txs|
      invariant lastRate == Baseline(txs, kept, i)
      invariant prioritized == Listing(txs, kept, Prioritized, i) && deprioritized == Listing(txs, kept, Deprioritized, i)
    {
      var tx := txs[i];
      KeptById(txs, kept, lisMap, i);
      if tx.txid in lisMap {
        lastRate := tx.rate;
      } else {
        if Abs(tx.rate - lastRate) < 0.1 {
          // as good as equal: not worth reporting
        } else if tx.rate <= lastRate {
          prioritized := prioritized + [tx.txid];
        } else {
          deprioritized := deprioritized + [tx.txid];
        }
      }
    }
  }
}
