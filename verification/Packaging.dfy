/** What both builders do with the package they take: order it, rate it, and retire it from the pool. */
module Packaging {
  import opened PackageGraph
  import opened Relatives
  import opened Selection
  import opened Sorting

  /** The pool as "picks" left it: exact caches, and dependency rates lowered pick by pick. */
  ghost predicate Settled(g: Graph, anc: Links, unit: nat, initial: map<Id, real>, picks: seq<Pick>, c: Caches)
  {
    && ValidPicks(g, anc, unit, initial, picks)
    && Consistent(g, anc, unit, c.ancestorMap, c.totals, Gone(picks))
    && c.dependencyRate.Keys == g.Keys
    && forall x :: x in g ==> c.dependencyRate[x] == DependencyRate(anc, picks, InitialRate(initial, x), x)
  }

  method Listed(s: set<Id>) returns (r: seq<Id>)
    ensures Distinct(r) && Elements(r) == s
  {
    var seen;
    seen, r := PushUnvisited(s, {}, []);
  }

  lemma ProperSubsetSmaller(s: set<Id>, t: set<Id>, x: Id)
    requires s <= t && x in t && x !in s
    ensures |s| < |t|
  {
    assert t == s + (t - s);
    assert x in t - s;
  }

  lemma SameElements(s: seq<Id>, r: seq<Id>)
    requires multiset(r) == multiset(s) && Distinct(s)
    ensures Elements(r) == Elements(s) && Distinct(r)
  {
    SameMembers(s, r);
    SameDistinct(s, r);
    assert forall x :: x in Elements(r) <==> x in Elements(s);
  }

  // ---------- the priority order ----------

  /** Scores do not increase along "s", leaving out the members of "skip". */
  ghost predicate Descending(totals: map<Id, Totals>, s: seq<Id>, skip: set<Id>) {
    forall i, j :: 0 <= i < j < |s| && s[i] in totals && s[j] in totals && s[i] !in skip && s[j] !in skip ==>
      totals[s[i]].score >= totals[s[j]].score
  }

  /** Along "s", equal scores come in the given order of the transactions. */
  ghost predicate TiesInOrder(g: Graph, totals: map<Id, Totals>, s: seq<Id>) {
    forall i, j :: 0 <= i < j < |s| && s[i] in g && s[j] in g && s[i] in totals && s[j] in totals ==>
      totals[s[i]].score == totals[s[j]].score ==> g[s[i]].order <= g[s[j]].order
  }

  function Priorities(g: Graph, totals: map<Id, Totals>): Keys
    requires totals.Keys == g.Keys
  {
    map x | x in totals :: Key(-totals[x].score, g[x].order)
  }

  lemma PriorityDescending(g: Graph, totals: map<Id, Totals>, s: seq<Id>)
    requires totals.Keys == g.Keys && Keyed(Priorities(g, totals), s) && Sorted(Priorities(g, totals), s)
    ensures Descending(totals, s, {}) && TiesInOrder(g, totals, s)
  {
    var keys := Priorities(g, totals);
    forall i, j | 0 <= i < j < |s|
      ensures totals[s[i]].score >= totals[s[j]].score
      ensures totals[s[i]].score == totals[s[j]].score ==> g[s[i]].order <= g[s[j]].order
    {
      assert AtMost(keys[s[i]], keys[s[j]]);
    }
  }

  lemma StillDescending(g: Graph, totals: map<Id, Totals>, totals': map<Id, Totals>, pool: seq<Id>, skip: set<Id>, skip': set<Id>)
    requires Descending(totals, pool, skip) && skip <= skip' && Elements(pool) <= g.Keys
    requires forall x :: x in g && x !in skip' ==> x in totals && x in totals' && totals'[x] == totals[x]
    ensures Descending(totals', pool, skip')
  {
    forall i, j | 0 <= i < j < |pool| && pool[i] !in skip' && pool[j] !in skip'
      ensures pool[i] in totals' && pool[j] in totals' && totals'[pool[i]].score >= totals'[pool[j]].score
    {
      assert pool[i] in Elements(pool) && pool[j] in Elements(pool);
      var x, y := pool[i], pool[j];
      assert x in g && y in g;
      assert x in totals && y in totals;
      assert totals[x].score >= totals[y].score;
    }
  }

  /** No one who is neither taken nor set aside has a better score. */
  ghost predicate Best(g: Graph, totals: map<Id, Totals>, gone: set<Id>, aside: set<Id>, next: Id)
  {
    forall x :: x in g && x !in gone && x !in aside && x in totals && next in totals ==> totals[x].score <= totals[next].score
  }

  lemma BestByTotals(g: Graph, anc: Links, unit: nat, am: Links, totals: map<Id, Totals>, gone: set<Id>, aside: set<Id>, next: Id)
    requires Consistent(g, anc, unit, am, totals, gone) && next in g
    requires Best(g, totals, gone, aside, next)
    ensures BestOf(g, anc, unit, gone, aside, next)
  {
    assert Current(g, anc, unit, am, totals, next, gone);
    forall x | x in g && x !in gone && x !in aside
      ensures FreshTotals(g, anc, unit, x, gone).score <= FreshTotals(g, anc, unit, next, gone).score
    {
      assert Current(g, anc, unit, am, totals, x, gone);
    }
  }

  /** The pool in descending order of ancestor score, and of the transactions' own order where scores are equal. */
  method SortedPool(pool: AuditPool, txs: seq<Id>) returns (arr: seq<Id>)
    requires pool.totals.Keys == pool.graph.Keys == Elements(txs) && Distinct(txs)
    ensures Distinct(arr) && Elements(arr) == pool.graph.Keys && Descending(pool.totals, arr, {}) && TiesInOrder(pool.graph, pool.totals, arr)
  {
    assert forall i :: 0 <= i < |txs| ==> txs[i] in Elements(txs);
    arr := SortBy(Priorities(pool.graph, pool.totals), txs);
    SameElements(txs, arr);
    PriorityDescending(pool.graph, pool.totals, arr);
  }

  // ---------- the order inside a package ----------

  /** The sort keys: how many ancestors each transaction has left. */
  ghost predicate KeyedBySize(g: Graph, anc: Links, gone: set<Id>, sizes: Keys) {
    forall x :: x in g ==> x in anc && x in sizes && sizes[x] == Key(|anc[x] - gone| as real, 0)
  }

  /** An ancestor has strictly fewer ancestors left. */
  lemma AncestorKeyedLower(g: Graph, anc: Links, gone: set<Id>, sizes: Keys, a: Id, b: Id)
    requires Dag(g, anc) && KeyedBySize(g, anc, gone, sizes) && a in g && b in anc[a] && b !in gone
    ensures b in g && !AtMost(sizes[a], sizes[b])
  {
    assert anc[b] <= anc[a] && b !in anc[b];
    ProperSubsetSmaller(anc[b] - gone, anc[a] - gone, b);
    hide Dag;
  }

  lemma InGraph(g: Graph, anc: Links, x: Id)
    requires Dag(g, anc) && x in g
    ensures x in anc && anc[x] <= g.Keys && x !in anc[x]
  {
  }

  lemma AncestorNotBelow(g: Graph, anc: Links, x: Id, a: Id)
    requires Dag(g, anc) && x in g && a in anc[x]
    ensures a in anc && x !in anc[a]
  {
    assert anc[a] <= anc[x];
  }

  /** Fewer remaining ancestors first is a topological order. */
  lemma SizeOrderIsTopological(g: Graph, anc: Links, gone: set<Id>, sizes: Keys, sorted: seq<Id>, next: Id)
    requires Dag(g, anc) && next in g && Elements(sorted) == anc[next] - gone && Distinct(sorted)
    requires KeyedBySize(g, anc, gone, sizes) && Keyed(sizes, sorted) && Sorted(sizes, sorted)
    ensures var cluster := sorted + [next];
      Distinct(cluster) && Elements(cluster) == Package(anc, next, gone) && ParentsFirst(anc, cluster)
  {
    hide Dag, KeyedBySize, AtMost;
    var cluster := sorted + [next];
    InGraph(g, anc, next);
    forall i | 0 <= i < |sorted| ensures sorted[i] in anc[next] && sorted[i] !in gone {
      assert sorted[i] in Elements(sorted);
    }
    assert Elements(cluster) == Elements(sorted) + {next};
    forall i, j | 0 <= i < j < |cluster| && cluster[i] in anc ensures cluster[j] !in anc[cluster[i]] {
      if j == |sorted| {
        AncestorNotBelow(g, anc, next, cluster[i]);
      } else if sorted[j] in anc[sorted[i]] {
        AncestorKeyedLower(g, anc, gone, sizes, sorted[i], sorted[j]);
        assert false;
      }
    }
  }

  lemma CurrentAt(g: Graph, anc: Links, unit: nat, am: Links, totals: map<Id, Totals>, gone: set<Id>, x: Id)
    requires Consistent(g, anc, unit, am, totals, gone) && x in g
    ensures x in anc && x in am && x in totals && am.Keys == totals.Keys == g.Keys
    ensures am[x] == anc[x] - gone && totals[x] == FreshTotals(g, anc, unit, x, gone)
  {
    assert Current(g, anc, unit, am, totals, x, gone);
    hide FreshTotals;
  }

  lemma SizesKnown(g: Graph, anc: Links, unit: nat, am: Links, totals: map<Id, Totals>, gone: set<Id>, sizes: Keys, ancestors: seq<Id>, next: Id)
    requires Dag(g, anc) && Consistent(g, anc, unit, am, totals, gone) && next in g
    requires sizes == map x | x in am :: Key(|am[x]| as real, 0)
    requires next in am && Elements(ancestors) == am[next]
    ensures KeyedBySize(g, anc, gone, sizes) && Keyed(sizes, ancestors) && next in anc && am[next] == anc[next] - gone
  {
    hide Dag, Consistent, FreshTotals;
    forall x | x in g ensures x in anc && x in sizes && sizes[x] == Key(|anc[x] - gone| as real, 0) {
      CurrentAt(g, anc, unit, am, totals, gone, x);
    }
    CurrentAt(g, anc, unit, am, totals, gone, next);
    InGraph(g, anc, next);
    assert forall i :: 0 <= i < |ancestors| ==> ancestors[i] in Elements(ancestors);
  }

  method Ordered(pool: AuditPool, next: Id, ghost gone: set<Id>) returns (cluster: seq<Id>)
    requires Dag(pool.graph, pool.anc) && next in pool.graph
    requires Consistent(pool.graph, pool.anc, pool.unit, pool.ancestorMap, pool.totals, gone)
    ensures cluster != [] && cluster[|cluster| - 1] == next
    ensures Distinct(cluster) && Elements(cluster) == Package(pool.anc, next, gone) && ParentsFirst(pool.anc, cluster)
  {
    hide *;
    var am := pool.ancestorMap;
    CurrentAt(pool.graph, pool.anc, pool.unit, am, pool.totals, gone, next);
    var ancestors := Listed(am[next]);
    // the fewer ancestors are left, the earlier
    var sizes: Keys := map x | x in am :: Key(|am[x]| as real, 0);
    SizesKnown(pool.graph, pool.anc, pool.unit, am, pool.totals, gone, sizes, ancestors, next);
    var sorted := SortBy(sizes, ancestors);
    SameElements(ancestors, sorted);
    SizeOrderIsTopological(pool.graph, pool.anc, gone, sizes, sorted, next);
    cluster := sorted + [next];
  }

  /** The package of "next" in this order, at this rate, is a valid pick. */
  lemma Assembled(g: Graph, anc: Links, unit: nat, initial: map<Id, real>, picks: seq<Pick>, c: Caches, next: Id, cluster: seq<Id>)
    requires Dag(g, anc) && Settled(g, anc, unit, initial, picks, c) && next in g && next !in Gone(picks)
    requires cluster != [] && cluster[|cluster| - 1] == next
    requires Distinct(cluster) && Elements(cluster) == Package(anc, next, Gone(picks)) && ParentsFirst(anc, cluster)
    ensures next in c.totals && next in c.dependencyRate && c.totals[next].size > 0
    ensures var t := c.totals[next]; var p := Pick(cluster, Capped(c.dependencyRate[next], Rate(unit, t.fee, t.size)));
      ValidPick(g, anc, unit, initial, picks, p) && p.cluster != [] && Root(p) == next
  {
    hide Consistent, ValidPicks, Dag, Distinct, Elements, ParentsFirst, Gone, Total;
    CurrentAt(g, anc, unit, c.ancestorMap, c.totals, Gone(picks), next);
    InGraph(g, anc, next);
    SizePositive(g, Package(anc, next, Gone(picks)), next);
  }

  /** Orders what is left of the package of "next" and computes its effective fee rate. */
  method Assemble(pool: AuditPool, next: Id, ghost initial: map<Id, real>, ghost picks: seq<Pick>) returns (p: Pick)
    requires Dag(pool.graph, pool.anc)
    requires Settled(pool.graph, pool.anc, pool.unit, initial, picks, pool.View())
    requires next in pool.graph && next !in Gone(picks)
    ensures ValidPick(pool.graph, pool.anc, pool.unit, initial, picks, p) && p.cluster != [] && Root(p) == next
  {
    hide *;
    SettledCaches(pool.graph, pool.anc, pool.unit, initial, picks, pool.View());
    var cluster := Ordered(pool, next, Gone(picks));
    Assembled(pool.graph, pool.anc, pool.unit, initial, picks, pool.View(), next, cluster);
    var t := pool.totals[next];
    p := Pick(cluster, Capped(pool.dependencyRate[next], Rate(pool.unit, t.fee, t.size)));
  }

  // ---------- retiring a package ----------

  /** The transactions in "retired" have been taken out of the caches, at the rate of their package. */
  ghost predicate Retiring(g: Graph, anc: Links, unit: nat, gone: set<Id>, rate: real, c0: Caches, c: Caches, retired: set<Id>)
  {
    && Consistent(g, anc, unit, c.ancestorMap, c.totals, gone + retired)
    && RatesLowered(c0.dependencyRate, c.dependencyRate, rate, DependentsOfAny(anc, retired))
  }

  ghost function DependentsOfAny(anc: Links, s: set<Id>): set<Id> {
    set x | x in anc && !(s !! anc[x])
  }

  lemma RetiringStarts(g: Graph, anc: Links, unit: nat, gone: set<Id>, rate: real, c: Caches)
    requires Dag(g, anc) && Consistent(g, anc, unit, c.ancestorMap, c.totals, gone)
    ensures Retiring(g, anc, unit, gone, rate, c, c, {})
  {
    assert gone + {} == gone;
  }

  lemma RetiredOneMore(g: Graph, anc: Links, unit: nat, gone: set<Id>, rate: real, c0: Caches, c: Caches, c': Caches, retired: set<Id>, x: Id)
    requires Dag(g, anc) && Retiring(g, anc, unit, gone, rate, c0, c, retired)
    requires Consistent(g, anc, unit, c'.ancestorMap, c'.totals, gone + retired + {x})
    requires RatesLowered(c.dependencyRate, c'.dependencyRate, rate, Dependents(anc, x))
    ensures Retiring(g, anc, unit, gone, rate, c0, c', retired + {x})
  {
    hide Consistent, Dag, RatesLowered;
    assert gone + retired + {x} == gone + (retired + {x});
    DependentsOneMore(anc, retired, x);
    LoweredTwice(c0.dependencyRate, c.dependencyRate, c'.dependencyRate, rate, DependentsOfAny(anc, retired), Dependents(anc, x));
  }

  lemma DependentsOneMore(anc: Links, retired: set<Id>, x: Id)
    ensures DependentsOfAny(anc, retired + {x}) == DependentsOfAny(anc, retired) + Dependents(anc, x)
  {
    forall y ensures y in DependentsOfAny(anc, retired + {x}) <==> y in DependentsOfAny(anc, retired) + Dependents(anc, x) {
      if y in anc {
        assert retired + {x} !! anc[y] <==> retired !! anc[y] && x !in anc[y];
      }
    }
  }

  lemma LoweredTwice(rate0: map<Id, real>, rate1: map<Id, real>, rate2: map<Id, real>, clusterRate: real, s: set<Id>, s': set<Id>)
    requires RatesLowered(rate0, rate1, clusterRate, s) && RatesLowered(rate1, rate2, clusterRate, s')
    ensures RatesLowered(rate0, rate2, clusterRate, s + s')
  {
  }

  lemma PackageRetired(g: Graph, anc: Links, unit: nat, initial: map<Id, real>, picks: seq<Pick>, p: Pick, c0: Caches, c: Caches)
    requires Dag(g, anc)
    requires Settled(g, anc, unit, initial, picks, c0) && ValidPick(g, anc, unit, initial, picks, p)
    requires Retiring(g, anc, unit, Gone(picks), p.rate, c0, c, Elements(p.cluster))
    ensures Settled(g, anc, unit, initial, picks + [p], c)
  {
    Extended(g, anc, unit, initial, picks, p);
    var more := picks + [p];
    assert more[..|more| - 1] == picks;
    forall x | x in g ensures c.dependencyRate[x] == DependencyRate(anc, more, InitialRate(initial, x), x) {
      assert x in DependentsOfAny(anc, Elements(p.cluster)) <==> !(Elements(p.cluster) !! anc[x]);
    }
  }

  /** A total changes only where an ancestor went. */
  lemma TotalsKept(g: Graph, anc: Links, unit: nat, c: Caches, c': Caches, gone: set<Id>, root: Id, x: Id)
    requires Dag(g, anc) && Consistent(g, anc, unit, c.ancestorMap, c.totals, gone)
    requires Consistent(g, anc, unit, c'.ancestorMap, c'.totals, gone + {root})
    requires x in g && x !in Dependents(anc, root)
    ensures x in c.totals && x in c'.totals && c'.totals[x] == c.totals[x]
  {
    hide Dag, Consistent, TotalsOf;
    CurrentAt(g, anc, unit, c.ancestorMap, c.totals, gone, x);
    CurrentAt(g, anc, unit, c'.ancestorMap, c'.totals, gone + {root}, x);
    assert anc[x] - gone == anc[x] - (gone + {root});
  }

  lemma SettledCaches(g: Graph, anc: Links, unit: nat, initial: map<Id, real>, picks: seq<Pick>, c: Caches)
    requires Dag(g, anc) && Settled(g, anc, unit, initial, picks, c)
    ensures Consistent(g, anc, unit, c.ancestorMap, c.totals, Gone(picks)) && c.dependencyRate.Keys == g.Keys
    ensures c.totals.Keys == g.Keys
  {
  }

  lemma RootTotals(g: Graph, anc: Links, unit: nat, initial: map<Id, real>, picks: seq<Pick>, c: Caches, next: Id)
    requires Dag(g, anc) && Settled(g, anc, unit, initial, picks, c) && next in g
    ensures next in c.totals && c.totals[next] == FreshTotals(g, anc, unit, next, Gone(picks))
    ensures Consistent(g, anc, unit, c.ancestorMap, c.totals, Gone(picks)) && c.dependencyRate.Keys == g.Keys
    ensures ValidPicks(g, anc, unit, initial, picks)
  {
    assert Current(g, anc, unit, c.ancestorMap, c.totals, next, Gone(picks));
  }

  lemma PickInPool(g: Graph, anc: Links, unit: nat, initial: map<Id, real>, picks: seq<Pick>, p: Pick)
    requires Dag(g, anc) && ValidPick(g, anc, unit, initial, picks, p)
    ensures Distinct(p.cluster) && Elements(p.cluster) <= g.Keys && Elements(p.cluster) !! Gone(picks)
    ensures p.cluster != [] && Root(p) in Elements(p.cluster)
  {
  }

  // ---------- emission ----------

  /** A package is emitted by popping: its root first, its oldest ancestors last. */
  ghost function Popping(p: Pick, n: nat): seq<Id>
    requires n <= |p.cluster|
  {
    if n == 0 then [] else Popping(p, n - 1) + [p.cluster[|p.cluster| - n]]
  }

  ghost function EmittedIds(picks: seq<Pick>): seq<Id> {
    if picks == [] then [] else
    var p := picks[|picks| - 1];
    EmittedIds(picks[..|picks| - 1]) + Popping(p, |p.cluster|)
  }

  lemma NextPopped(cluster: seq<Id>, k: nat, popped: seq<Id>)
    requires k < |cluster| && Distinct(cluster) && Distinct(popped) && Elements(popped) == Elements(cluster[k + 1..])
    ensures cluster[k] !in Elements(popped) && Distinct(popped + [cluster[k]])
    ensures Elements(popped + [cluster[k]]) == Elements(popped) + {cluster[k]} == Elements(cluster[k..])
  {
    var x := cluster[k];
    assert cluster[k..] == [x] + cluster[k + 1..];
    assert Elements(cluster[k..]) == {x} + Elements(cluster[k + 1..]);
    assert forall i :: 0 <= i < |popped| ==> popped[i] in Elements(popped);
  }

  lemma {:induction false} PoppingDistinct(p: Pick, n: nat)
    requires n <= |p.cluster| && Distinct(p.cluster)
    ensures Distinct(Popping(p, n)) && Elements(Popping(p, n)) == Elements(p.cluster[|p.cluster| - n..])
  {
    if n > 0 {
      PoppingDistinct(p, n - 1);
      NextPopped(p.cluster, |p.cluster| - n, Popping(p, n - 1));
    } else {
      assert p.cluster[|p.cluster|..] == [];
    }
  }

  lemma ElementsAt(s: seq<Id>, i: nat)
    requires i < |s| && Distinct(s)
    ensures s[i] in Elements(s) && s[i] !in Elements(s[..i]) && Elements(s[..i + 1]) == Elements(s[..i]) + {s[i]}
  {
    assert s[..i + 1] == s[..i] + [s[i]];
  }

  lemma DistinctAppend(s: seq<Id>, t: seq<Id>)
    requires Distinct(s) && Distinct(t) && Elements(s) !! Elements(t)
    ensures Distinct(s + t) && Elements(s + t) == Elements(s) + Elements(t)
  {
    assert forall i :: 0 <= i < |s| ==> s[i] in Elements(s);
    assert forall i :: 0 <= i < |t| ==> t[i] in Elements(t);
  }

  lemma {:induction false} SamePermutation(s: seq<Id>, t: seq<Id>)
    requires Distinct(s) && Distinct(t) && Elements(s) == Elements(t)
    ensures multiset(s) == multiset(t)
  {
    forall x ensures multiset(s)[x] == multiset(t)[x] {
      CountOnce(s, x);
      CountOnce(t, x);
      assert x in s <==> x in Elements(s);
      assert x in t <==> x in Elements(t);
      assert x in s <==> x in multiset(s);
      assert x in t <==> x in multiset(t);
    }
  }

  /** The emitted transactions are the taken ones, each emitted once. */
  lemma {:induction false} EmittedOnce(g: Graph, anc: Links, unit: nat, initial: map<Id, real>, picks: seq<Pick>)
    requires Dag(g, anc) && ValidPicks(g, anc, unit, initial, picks)
    ensures Distinct(EmittedIds(picks)) && Elements(EmittedIds(picks)) == Gone(picks)
  {
    if picks != [] {
      var n := |picks| - 1;
      var before, p := picks[..n], picks[n];
      assert ValidPick(g, anc, unit, initial, before, p);
      EmittedStep(picks);
      hide *;
      PickInPool(g, anc, unit, initial, before, p);
      Prefix(g, anc, unit, initial, picks, n);
      EmittedOnce(g, anc, unit, initial, before);
      PoppingDistinct(p, |p.cluster|);
      assert p.cluster[|p.cluster| - |p.cluster|..] == p.cluster;
      DistinctAppend(EmittedIds(before), Popping(p, |p.cluster|));
    }
  }

  lemma EmittedStep(picks: seq<Pick>)
    requires picks != []
    ensures var n := |picks| - 1;
      && EmittedIds(picks) == EmittedIds(picks[..n]) + Popping(picks[n], |picks[n].cluster|)
      && Gone(picks) == Gone(picks[..n]) + Elements(picks[n].cluster)
  {
  }
}
