/** The in-pool dependency graph of a set of transactions, and totals over sets of transactions. */
module PackageGraph {
  import opened Collections

  /** A transaction identifier: the worker's numerical uid, or a txid, of which the code uses only equality. */
  type Id = int

  type pos = n: int | n > 0 witness 1

  /** What a candidate transaction brings along. "fee" includes any acceleration bid; "size" is the
      quantity fee rates are measured in (adjusted vsize in the mini-miner, weight in the worker); "order"
      breaks ties between equal scores. */
  datatype TxInfo = TxInfo(fee: int, size: pos, weight: nat, sigops: nat, order: int, inputs: seq<Id>)

  type Graph = map<Id, TxInfo>

  ghost predicate IsParent(g: Graph, p: Id, x: Id) {
    x in g && p in g && p in g[x].inputs
  }

  ghost predicate Path(g: Graph, p: seq<Id>) {
    && |p| >= 2
    && forall i, j :: 0 <= i < j < |p| && j == i + 1 ==> IsParent(g, p[j], p[i])
  }

  ghost predicate PathBetween(g: Graph, p: seq<Id>, x: Id, a: Id) {
    Path(g, p) && p[0] == x && p[|p| - 1] == a
  }

  /** "a" is reached from "x" by following one or more in-pool inputs. */
  ghost predicate IsAncestor(g: Graph, a: Id, x: Id) {
    exists p :: PathBetween(g, p, x, a)
  }

  ghost function Ancestors(g: Graph, x: Id): set<Id> {
    set a | a in g && IsAncestor(g, a, x)
  }

  /** A transaction spends outputs that existed before it: inputs strictly lower the rank. */
  ghost predicate Ranked(g: Graph, rank: map<Id, nat>) {
    && g.Keys <= rank.Keys
    && forall p, x :: IsParent(g, p, x) ==> rank[p] < rank[x]
  }

  ghost predicate Acyclic(g: Graph) {
    exists rank :: Ranked(g, rank)
  }

  lemma ParentIsAncestor(g: Graph, p: Id, x: Id)
    requires IsParent(g, p, x)
    ensures p in Ancestors(g, x)
  {
    assert PathBetween(g, [x, p], x, p);
  }

  lemma AncestorTransitive(g: Graph, a: Id, b: Id, c: Id)
    requires a in Ancestors(g, b) && b in Ancestors(g, c)
    ensures a in Ancestors(g, c)
  {
    var p :| PathBetween(g, p, b, a);
    var q :| PathBetween(g, q, c, b);
    assert PathBetween(g, q + p[1..], c, a);
  }

  /** The first step of a path: every ancestor is a parent or an ancestor of one. */
  lemma AncestorStep(g: Graph, a: Id, x: Id) returns (p: Id)
    requires a in Ancestors(g, x)
    ensures IsParent(g, p, x)
    ensures p == a || a in Ancestors(g, p)
  {
    var path :| PathBetween(g, path, x, a);
    p := path[1];
    if |path| > 2 {
      assert PathBetween(g, path[1..], p, a);
    }
  }

  lemma {:induction false} PathLowersRank(g: Graph, rank: map<Id, nat>, p: seq<Id>)
    requires Ranked(g, rank) && Path(g, p)
    ensures p[0] in rank && p[|p| - 1] in rank && rank[p[|p| - 1]] < rank[p[0]]
  {
    assert IsParent(g, p[1], p[0]);
    if |p| > 2 {
      PathLowersRank(g, rank, p[1..]);
    }
  }

  lemma AncestorsRank(g: Graph, rank: map<Id, nat>, x: Id)
    requires Ranked(g, rank)
    ensures forall a :: a in Ancestors(g, x) ==> x in g && a in rank && x in rank && rank[a] < rank[x]
  {
    forall a | a in Ancestors(g, x)
      ensures x in g && a in rank && x in rank && rank[a] < rank[x]
    {
      var p :| PathBetween(g, p, x, a);
      assert IsParent(g, p[1], p[0]);
      PathLowersRank(g, rank, p);
    }
  }

  type Links = map<Id, set<Id>>

  /** The ancestor sets of all transactions, tabulated. */
  ghost function Ancestry(g: Graph): Links {
    map x | x in g :: Ancestors(g, x)
  }

  /** What the proofs use of an ancestry: it is a strict partial order on the pool... */
  ghost predicate Dag(g: Graph, anc: Links) {
    && anc.Keys == g.Keys
    && (forall x :: x in anc ==> anc[x] <= anc.Keys && x !in anc[x])
    && (forall x, a {:trigger a in anc[x]} :: x in anc && a in anc[x] ==> anc[a] <= anc[x])
  }

  /** ...generated by the parents. */
  ghost predicate Generated(g: Graph, anc: Links) {
    && (forall p, x :: IsParent(g, p, x) ==> x in anc && p in anc[x])
    && forall x, a :: ThroughParent(g, anc, x, a)
  }

  ghost predicate ThroughParent(g: Graph, anc: Links, x: Id, a: Id) {
    x in anc && a in anc[x] ==> exists p :: IsParent(g, p, x) && (p == a || (p in anc && a in anc[p]))
  }

  lemma AncestryIsDag(g: Graph)
    requires Acyclic(g)
    ensures Dag(g, Ancestry(g)) && Generated(g, Ancestry(g))
  {
    var anc := Ancestry(g);
    var rank :| Ranked(g, rank);
    forall x | x in anc ensures anc[x] <= anc.Keys && x !in anc[x] { AncestorsRank(g, rank, x); }
    forall x, a | x in anc && a in anc[x] ensures anc[a] <= anc[x] {
      forall b | b in anc[a] ensures b in anc[x] { AncestorTransitive(g, b, a, x); }
    }
    forall x, a ensures ThroughParent(g, anc, x, a) {
      if x in anc && a in anc[x] {
        var p := AncestorStep(g, a, x);
      }
    }
    forall p, x | IsParent(g, p, x) ensures p in anc[x] { ParentIsAncestor(g, p, x); }
  }

  ghost function Elements(s: seq<Id>): set<Id> {
    set x | x in s
  }

  ghost predicate Distinct(s: seq<Id>) {
    forall i, j :: 0 <= i < j < |s| ==> s[i] != s[j]
  }

  // ---------- totals over sets ----------

  ghost function AnyOf(s: set<Id>): (x: Id)
    requires s != {}
    ensures x in s
  {
    NonEmpty(s);
    var x :| x in s; x
  }

  ghost function At(m: map<Id, int>, x: Id): int {
    if x in m then m[x] else 0
  }

  ghost function Total(m: map<Id, int>, s: set<Id>): int {
    if s == {} then 0 else At(m, AnyOf(s)) + Total(m, s - {AnyOf(s)})
  }

  lemma {:induction false} TotalSplit(m: map<Id, int>, s: set<Id>, x: Id)
    requires x in s
    ensures Total(m, s) == At(m, x) + Total(m, s - {x})
    decreases s
  {
    var y := AnyOf(s);
    if y != x {
      TotalSplit(m, s - {y}, x);
      TotalSplit(m, s - {x}, y);
      assert s - {y} - {x} == s - {x} - {y};
    }
  }

  lemma {:induction false} TotalUnion(m: map<Id, int>, s: set<Id>, t: set<Id>)
    requires s !! t
    ensures Total(m, s + t) == Total(m, s) + Total(m, t)
    decreases t
  {
    if t == {} {
      assert s + t == s;
    } else {
      var x := AnyOf(t);
      TotalSplit(m, t, x);
      TotalSplit(m, s + t, x);
      assert s + t - {x} == s + (t - {x});
      TotalUnion(m, s, t - {x});
    }
  }

  lemma {:induction false} TotalNonNegative(m: map<Id, int>, s: set<Id>)
    requires forall x :: x in s ==> At(m, x) >= 0
    ensures Total(m, s) >= 0
    decreases s
  {
    if s != {} {
      var x := AnyOf(s);
      TotalSplit(m, s, x);
      TotalNonNegative(m, s - {x});
    }
  }

  lemma SingleTotal(m: map<Id, int>, x: Id)
    ensures Total(m, {x}) == At(m, x)
  {
    TotalSplit(m, {x}, x);
    assert {x} - {x} == {};
  }

  lemma TotalMonotone(m: map<Id, int>, s: set<Id>, t: set<Id>)
    requires s <= t && forall x :: x in t ==> At(m, x) >= 0
    ensures Total(m, s) <= Total(m, t)
  {
    assert s + (t - s) == t;
    TotalUnion(m, s, t - s);
    TotalNonNegative(m, t - s);
  }

  ghost function Fees(g: Graph): map<Id, int> { map x | x in g :: g[x].fee }
  ghost function Sizes(g: Graph): map<Id, int> { map x | x in g :: g[x].size }
  ghost function Weights(g: Graph): map<Id, int> { map x | x in g :: g[x].weight }
  ghost function Sigops(g: Graph): map<Id, int> { map x | x in g :: g[x].sigops }

  /** What a set loses to "taken", "gone" gains with it. */
  lemma RoomLost(m: map<Id, int>, p: set<Id>, p': set<Id>, gone: set<Id>, taken: set<Id>)
    requires p' == p - taken && gone !! taken && forall x :: x in m ==> m[x] >= 0
    ensures Total(m, gone + taken) + Total(m, p') >= Total(m, gone) + Total(m, p)
  {
    assert p == p' + p * taken;
    TotalUnion(m, p', p * taken);
    TotalUnion(m, gone, taken);
    TotalMonotone(m, p * taken, taken);
  }

  /** What is left of the package rooted in "x" once the transactions in "gone" are out of the pool. */
  ghost function Package(anc: Links, x: Id, gone: set<Id>): set<Id> {
    {x} + if x in anc then anc[x] - gone else {}
  }
}
