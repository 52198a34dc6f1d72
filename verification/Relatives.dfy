/** The pool of audit transactions shared by both block builders, with their cached ancestor data:
    building the caches (setRelatives) and keeping them up to date (updateDescendants). */
module Relatives {
  import opened Collections
  import opened PackageGraph

  /** The totals cached for a transaction: itself and the members of its ancestorMap. */
  datatype Totals = Totals(fee: int, size: int, sigops: int, score: real)

  /** Fee per vsize, for a size counted in "unit"-ths of a vbyte. */
  function Rate(unit: nat, fee: int, size: int): real
    requires size > 0
  {
    unit as real * fee as real / size as real
  }

  lemma RateOfMultiple(k: int, size: int)
    requires size > 0
    ensures Rate(4, k * size, size) == (4 * k) as real
  {
    assert (k * size) as real == k as real * size as real;
  }

  // ---------- what the caches mean ----------

  /** A fresh computation of the totals on the pool without "gone". */
  ghost function FreshTotals(g: Graph, anc: Links, unit: nat, x: Id, gone: set<Id>): Totals
  {
    TotalsOf(g, unit, Package(anc, x, gone))
  }

  ghost function TotalsOf(g: Graph, unit: nat, p: set<Id>): Totals {
    var fee, size := Total(Fees(g), p), Total(Sizes(g), p);
    Totals(fee, size, Total(Sigops(g), p), if size > 0 then Rate(unit, fee, size) else 0.0)
  }

  lemma SizePositive(g: Graph, p: set<Id>, x: Id)
    requires x in p && p <= g.Keys
    ensures Total(Sizes(g), p) > 0
  {
    TotalSplit(Sizes(g), p, x);
    TotalNonNegative(Sizes(g), p - {x});
  }

  /** A recorded child link leads to "x" out of "a" itself or out of a descendant "m" of "a". */
  ghost predicate LinkFrom(anc: Links, children: Links, x: Id, a: Id, m: Id) {
    m in children && m in anc && x in anc && x in children[m] && m in anc[x] && (m == a || a in anc[m])
  }

  ghost predicate Linked(anc: Links, children: Links, x: Id, ancestors: set<Id>) {
    forall a :: a in ancestors ==> exists m :: LinkFrom(anc, children, x, a, m)
  }

  ghost predicate InPool(anc: Links, links: Links) {
    links.Keys == anc.Keys && forall x :: x in links ==> links[x] <= anc.Keys
  }

  ghost predicate Grows(children: Links, children': Links) {
    children.Keys == children'.Keys && forall m :: m in children ==> children[m] <= children'[m]
  }

  lemma LinkedGrows(anc: Links, children: Links, children': Links, x: Id, ancestors: set<Id>)
    requires Linked(anc, children, x, ancestors) && Grows(children, children')
    ensures Linked(anc, children', x, ancestors)
  {
    forall a | a in ancestors ensures exists m :: LinkFrom(anc, children', x, a, m) {
      var m :| LinkFrom(anc, children, x, a, m);
      assert LinkFrom(anc, children', x, a, m);
    }
  }

  // ---------- invariants of setRelatives ----------

  /** "x" is set: its caches are exact, so are its links, and all its ancestors are set too. */
  ghost predicate Ready(anc: Links, ancestorMap: Links, children: Links, isSet: set<Id>, x: Id) {
    && x in ancestorMap && x in anc && ancestorMap[x] == anc[x]
    && Linked(anc, children, x, anc[x])
    && anc[x] <= isSet
  }

  ghost predicate SetSoundly(anc: Links, ancestorMap: Links, children: Links, isSet: set<Id>) {
    && ancestorMap.Keys == anc.Keys && InPool(anc, children)
    && forall x :: x in isSet ==> Ready(anc, ancestorMap, children, isSet, x)
  }

  ghost predicate Blank(ancestorMap: Links, unset: set<Id>) {
    forall a :: a in ancestorMap && a in unset ==> ancestorMap[a] == {}
  }

  ghost predicate Agree<T>(m: map<Id, T>, m': map<Id, T>, on: set<Id>) {
    m.Keys == m'.Keys && forall x :: x in m && x in on ==> m'[x] == m[x]
  }

  /** "x" is being set: it has inherited an ancestor-closed, linked part of its ancestors. */
  ghost predicate Inheriting(anc: Links, ancestorMap: Links, children: Links, isSet: set<Id>, x: Id) {
    && SetSoundly(anc, ancestorMap, children, isSet)
    && x in anc && x !in isSet
    && Blank(ancestorMap, anc[x] - isSet)
    && ancestorMap[x] <= anc[x]
    && (forall a {:trigger a in ancestorMap[x]} :: a in ancestorMap[x] ==> a in anc && anc[a] <= ancestorMap[x])
    && Linked(anc, children, x, ancestorMap[x])
  }

  /** Setting is not disturbed by new child links nor by changes to an unset transaction. */
  lemma StillSound(anc: Links, ancestorMap: Links, children: Links, isSet: set<Id>, ancestorMap': Links, children': Links)
    requires SetSoundly(anc, ancestorMap, children, isSet)
    requires Agree(ancestorMap, ancestorMap', isSet) && Grows(children, children') && InPool(anc, children')
    ensures SetSoundly(anc, ancestorMap', children', isSet)
  {
    forall x | x in isSet ensures Ready(anc, ancestorMap', children', isSet, x) {
      assert Ready(anc, ancestorMap, children, isSet, x);
      LinkedGrows(anc, children, children', x, anc[x]);
    }
  }

  lemma LinkedThrough(anc: Links, children: Links, children': Links, x: Id, p: Id, inherited: set<Id>)
    requires Linked(anc, children, x, inherited) && Grows(children, children')
    requires x in anc && p in anc[x] && p in anc && p in children' && x in children'[p]
    ensures Linked(anc, children', x, inherited + {p} + anc[p])
  {
    LinkedGrows(anc, children, children', x, inherited);
    forall a | a in inherited + {p} + anc[p] ensures exists m :: LinkFrom(anc, children', x, a, m) {
      if a in {p} + anc[p] {
        assert LinkFrom(anc, children', x, a, p);
      }
    }
  }

  /** Once every input has been dealt with, all ancestors have been inherited. */
  lemma AllInherited(g: Graph, anc: Links, am: Links, ch: Links, isSet: set<Id>, x: Id)
    requires Dag(g, anc) && Generated(g, anc) && x in g && Inheriting(anc, am, ch, isSet, x)
    requires forall j :: 0 <= j < |g[x].inputs| && g[x].inputs[j] in g ==> g[x].inputs[j] in am[x]
    ensures am[x] == anc[x]
  {
    forall a | a in anc[x] ensures a in am[x] {
      assert ThroughParent(g, anc, x, a);
      var p :| IsParent(g, p, x) && (p == a || (p in anc && a in anc[p]));
    }
  }

  lemma StartInheriting(g: Graph, anc: Links, am: Links, ch: Links, isSet: set<Id>, x: Id)
    requires Dag(g, anc) && x in g && x !in isSet && SetSoundly(anc, am, ch, isSet) && Blank(am, {x} + anc[x] - isSet)
    ensures x in am && Inheriting(anc, am, ch, isSet, x) && am[x] == {} && SetMore(anc, am, ch, isSet, am, ch, isSet, {x}, am[x])
  {
  }

  ghost predicate TotalsSet(g: Graph, anc: Links, unit: nat, totals: map<Id, Totals>, isSet: set<Id>)
  {
    && totals.Keys == g.Keys && isSet <= g.Keys
    && forall x :: x in isSet ==> totals[x] == FreshTotals(g, anc, unit, x, {})
  }

  /** The transactions in "more" have been set, and apart from "open" no other ancestorMap changed. */
  ghost predicate SetMore(anc: Links, ancestorMap: Links, children: Links, isSet: set<Id>,
                          ancestorMap': Links, children': Links, isSet': set<Id>, open: set<Id>, more: set<Id>)
  {
    && isSet' == isSet + more
    && Agree(ancestorMap, ancestorMap', (anc.Keys - more - open) + isSet)
    && Grows(children, children')
  }

  lemma LinkingSound(g: Graph, anc: Links, am: Links, ch: Links, isSet: set<Id>, x: Id, p: Id)
    requires Dag(g, anc) && Inheriting(anc, am, ch, isSet, x) && p in anc[x]
    ensures var am1, ch1 := am[x := am[x] + {p}], ch[p := ch[p] + {x}];
      SetSoundly(anc, am1, ch1, isSet) && Blank(am1, {p} + anc[p] - isSet) && Grows(ch, ch1)
  {
    StillSound(anc, am, ch, isSet, am[x := am[x] + {p}], ch[p := ch[p] + {x}]);
  }

  lemma SetMoreTwice(anc: Links, am: Links, ch: Links, isSet: set<Id>, am1: Links, ch1: Links, isSet1: set<Id>,
                     am2: Links, ch2: Links, isSet2: set<Id>, x: Id, more: set<Id>, more': set<Id>)
    requires SetMore(anc, am, ch, isSet, am1, ch1, isSet1, {x}, more) && x !in isSet1
    requires SetMore(anc, am1, ch1, isSet1, am2, ch2, isSet2, {x}, more')
    ensures SetMore(anc, am, ch, isSet, am2, ch2, isSet2, {x}, more + more')
  {
  }

  lemma ClosedUnion(g: Graph, anc: Links, x: Id, p: Id, s: set<Id>, s': set<Id>)
    requires Dag(g, anc) && x in anc && p in anc[x] && s <= anc[x] && s' == s + {p} + anc[p]
    requires forall a {:trigger a in s} :: a in s ==> a in anc && anc[a] <= s
    ensures s' <= anc[x] && forall a {:trigger a in s'} :: a in s' ==> a in anc && anc[a] <= s'
  {
  }

  /** One parent inherited; "am1", "ch1" and "isSet1" are the caches once that parent has been set. */
  lemma Inherited(g: Graph, anc: Links, am: Links, ch: Links, isSet: set<Id>, am1: Links, ch1: Links, isSet1: set<Id>, x: Id, p: Id)
    requires Dag(g, anc) && Inheriting(anc, am, ch, isSet, x) && p in anc[x]
    requires SetSoundly(anc, am1, ch1, isSet1) && p in isSet1
    requires SetMore(anc, am[x := am[x] + {p}], ch[p := ch[p] + {x}], isSet, am1, ch1, isSet1, {}, {p} + anc[p])
    ensures am1[x] + am1[p] == am[x] + {p} + anc[p]
    ensures Inheriting(anc, am1[x := am1[x] + am1[p]], ch1, isSet1, x)
    ensures SetMore(anc, am, ch, isSet, am1[x := am1[x] + am1[p]], ch1, isSet1, {x}, {p} + anc[p])
  {
    hide *;
    InheritingParts(g, anc, am, ch, isSet, x, p);
    SetMoreParts(anc, am, ch, isSet, am1, ch1, isSet1, x, p);
    ReadyAt(anc, am1, ch1, isSet1, p);
    var inherited := am1[x] + am1[p];
    assert inherited == am[x] + {p} + anc[p];
    AgreeElsewhere(am1, isSet1, x, inherited);
    StillSound(anc, am1, ch1, isSet1, am1[x := inherited], ch1);
    LinkedThrough(anc, ch, ch1, x, p, am[x]);
    ClosedUnion(g, anc, x, p, am[x], inherited);
    BlankAfter(g, anc, am, am1, isSet, isSet1, x, p, inherited);
    InheritingWhole(anc, am1[x := inherited], ch1, isSet1, x);
    SetMoreWhole(anc, am, ch, isSet, am1, ch1, isSet1, x, p, inherited);
  }

  lemma InheritingParts(g: Graph, anc: Links, am: Links, ch: Links, isSet: set<Id>, x: Id, p: Id)
    requires Dag(g, anc) && Inheriting(anc, am, ch, isSet, x) && p in anc[x]
    ensures x in anc && x !in isSet && x in am && p in anc && p in am && p in ch && p != x && x !in anc[p] && am.Keys == anc.Keys && InPool(anc, ch)
    ensures Blank(am, anc[x] - isSet) && am[x] <= anc[x] && Linked(anc, ch, x, am[x]) && anc[p] <= anc[x] && anc[x] <= anc.Keys
    ensures forall a {:trigger a in am[x]} :: a in am[x] ==> a in anc && anc[a] <= am[x]
  {
    hide Linked, Ready;
  }

  /** What setting the parent "p" left unchanged. */
  lemma SetMoreParts(anc: Links, am: Links, ch: Links, isSet: set<Id>, am1: Links, ch1: Links, isSet1: set<Id>, x: Id, p: Id)
    requires x in anc && x !in isSet && x in am && p in anc && p in ch && p != x && x !in anc[p] && am.Keys == anc.Keys && InPool(anc, ch)
    requires SetSoundly(anc, am1, ch1, isSet1)
    requires SetMore(anc, am[x := am[x] + {p}], ch[p := ch[p] + {x}], isSet, am1, ch1, isSet1, {}, {p} + anc[p])
    ensures am1.Keys == anc.Keys && am1[x] == am[x] + {p} && isSet1 == isSet + ({p} + anc[p]) && x !in isSet1
    ensures Grows(ch, ch1) && p in ch1 && x in ch1[p] && InPool(anc, ch1)
    ensures Agree(am[x := am[x] + {p}], am1, (anc.Keys - ({p} + anc[p]) - {}) + isSet)
  {
    hide Ready;
  }

  lemma ReadyAt(anc: Links, am: Links, ch: Links, isSet: set<Id>, p: Id)
    requires SetSoundly(anc, am, ch, isSet) && p in isSet
    ensures p in am && p in anc && am[p] == anc[p]
  {
    assert Ready(anc, am, ch, isSet, p);
  }

  lemma AgreeElsewhere(am: Links, isSet: set<Id>, x: Id, v: set<Id>)
    requires x in am && x !in isSet
    ensures Agree(am, am[x := v], isSet)
  {
  }

  lemma BlankAfter(g: Graph, anc: Links, am: Links, am1: Links, isSet: set<Id>, isSet1: set<Id>, x: Id, p: Id, v: set<Id>)
    requires x in anc && Dag(g, anc) && x in am && am.Keys == anc.Keys && am1.Keys == anc.Keys && Blank(am, anc[x] - isSet) && p in anc[x]
    requires isSet1 == isSet + ({p} + anc[p]) && Agree(am[x := am[x] + {p}], am1, (anc.Keys - ({p} + anc[p]) - {}) + isSet)
    ensures Blank(am1[x := v], anc[x] - isSet1)
  {
    var m := am1[x := v];
    forall a | a in m && a in anc[x] - isSet1 ensures m[a] == {} {
      assert a != x && a in am && am[a] == {};
      assert am[x := am[x] + {p}][a] == am[a];
    }
    hide Dag;
  }

  lemma InheritingWhole(anc: Links, am: Links, ch: Links, isSet: set<Id>, x: Id)
    requires SetSoundly(anc, am, ch, isSet) && x in anc && x in am && x !in isSet && Blank(am, anc[x] - isSet) && am[x] <= anc[x]
    requires forall a {:trigger a in am[x]} :: a in am[x] ==> a in anc && anc[a] <= am[x]
    requires Linked(anc, ch, x, am[x])
    ensures Inheriting(anc, am, ch, isSet, x)
  {
    hide SetSoundly, Linked, Blank;
  }

  lemma SetMoreWhole(anc: Links, am: Links, ch: Links, isSet: set<Id>, am1: Links, ch1: Links, isSet1: set<Id>, x: Id, p: Id, v: set<Id>)
    requires x in anc && x in am && am.Keys == anc.Keys == am1.Keys && p in anc && x !in isSet
    requires Grows(ch, ch1) && isSet1 == isSet + ({p} + anc[p])
    requires Agree(am[x := am[x] + {p}], am1, (anc.Keys - ({p} + anc[p]) - {}) + isSet)
    ensures SetMore(anc, am, ch, isSet, am1[x := v], ch1, isSet1, {x}, {p} + anc[p])
  {
    var on, m, m' := (anc.Keys - ({p} + anc[p]) - {x}) + isSet, am[x := am[x] + {p}], am1[x := v];
    forall a | a in am && a in on ensures m'[a] == am[a] {
      assert a != x && m[a] == am[a] && a in (anc.Keys - ({p} + anc[p]) - {}) + isSet;
    }
    hide Grows;
  }

  lemma InheritingKeys(g: Graph, anc: Links, am: Links, ch: Links, isSet: set<Id>, x: Id)
    requires Dag(g, anc) && Inheriting(anc, am, ch, isSet, x)
    ensures am.Keys == anc.Keys == g.Keys && x in am && x !in isSet
  {
    hide Ready, Linked;
  }

  lemma InputIsParent(g: Graph, anc: Links, p: Id, x: Id)
    requires Dag(g, anc) && x in g && p in g && p in g[x].inputs
    ensures IsParent(g, p, x) && p in anc
  {
  }

  lemma NowSet(g: Graph, anc: Links, unit: nat, am: Links, ch: Links, isSet: set<Id>, am1: Links, ch1: Links, isSet1: set<Id>,
               totals: map<Id, Totals>, x: Id)
    requires Dag(g, anc) && Inheriting(anc, am1, ch1, isSet1, x) && am1[x] == anc[x] && x !in isSet
    requires SetMore(anc, am, ch, isSet, am1, ch1, isSet1, {x}, anc[x])
    requires TotalsSet(g, anc, unit, totals, isSet1)
    ensures SetSoundly(anc, am1, ch1, isSet1 + {x})
    ensures SetMore(anc, am, ch, isSet, am1, ch1, isSet1 + {x}, {}, {x} + anc[x])
    ensures TotalsSet(g, anc, unit, totals[x := FreshTotals(g, anc, unit, x, {})], isSet1 + {x}) && totals.Keys == g.Keys
  {
    hide Total;
    assert Ready(anc, am1, ch1, isSet1 + {x}, x);
    forall y | y in isSet1 ensures Ready(anc, am1, ch1, isSet1 + {x}, y) {
      assert Ready(anc, am1, ch1, isSet1, y);
    }
  }

  // ---------- invariants of updateDescendants ----------

  /** Every cache is exact for the pool without "gone", and the child links reach every descendant. */
  ghost predicate Consistent(g: Graph, anc: Links, unit: nat, ancestorMap: Links, totals: map<Id, Totals>, gone: set<Id>)
  {
    && ancestorMap.Keys == totals.Keys == g.Keys
    && forall x {:trigger ancestorMap[x]} {:trigger totals[x]} :: x in g ==> Current(g, anc, unit, ancestorMap, totals, x, gone)
  }

  ghost predicate Current(g: Graph, anc: Links, unit: nat, ancestorMap: Links, totals: map<Id, Totals>, x: Id, gone: set<Id>)
  {
    && x in anc && x in ancestorMap && x in totals
    && ancestorMap[x] == anc[x] - gone
    && totals[x] == FreshTotals(g, anc, unit, x, gone)
  }

  ghost predicate FullyLinked(anc: Links, children: Links) {
    InPool(anc, children) && forall x :: x in anc ==> Linked(anc, children, x, anc[x])
  }

  /** The traversal from "root" has been everywhere it should: out of "root" and of each of its
      descendants among the visited ones, all child links lead to visited transactions. */
  ghost predicate Traversed(anc: Links, children: Links, root: Id, visited: set<Id>, processed: set<Id>) {
    && root in children && children[root] <= visited
    && forall m :: m in processed && m in anc && m in children && root in anc[m] ==> children[m] <= visited
  }

  lemma {:induction false} TraversalReaches(g: Graph, anc: Links, children: Links, root: Id, visited: set<Id>, x: Id)
    requires Dag(g, anc) && FullyLinked(anc, children) && Traversed(anc, children, root, visited, visited)
    requires x in anc && root in anc[x]
    ensures x in visited
    decreases anc[x]
  {
    var m := LinkInto(anc, children, x, root);
    if m != root {
      FewerLeft(g, anc, x, m);
      hide Dag, FullyLinked;
      TraversalReaches(g, anc, children, root, visited, m);
    }
  }

  lemma LinkInto(anc: Links, children: Links, x: Id, root: Id) returns (m: Id)
    requires FullyLinked(anc, children) && x in anc && root in anc[x]
    ensures LinkFrom(anc, children, x, root, m)
  {
    assert Linked(anc, children, x, anc[x]);
    m :| LinkFrom(anc, children, x, root, m);
  }

  lemma FewerLeft(g: Graph, anc: Links, x: Id, m: Id)
    requires Dag(g, anc) && x in anc && m in anc[x]
    ensures m in anc && anc[m] < anc[x]
  {
  }

  /** Taking "root" away from the ancestors of "x" takes its share out of each total. */
  lemma DropAncestor(g: Graph, anc: Links, x: Id, gone: set<Id>, root: Id)
    requires Dag(g, anc) && x in g && root in anc[x] - gone
    ensures var p, q := Package(anc, x, gone), Package(anc, x, gone + {root});
      && root in g
      && Total(Fees(g), q) == Total(Fees(g), p) - g[root].fee
      && Total(Sizes(g), q) == Total(Sizes(g), p) - g[root].size
      && Total(Sigops(g), q) == Total(Sigops(g), p) - g[root].sigops
      && Total(Sizes(g), q) > 0
  {
    var p, q := Package(anc, x, gone), Package(anc, x, gone + {root});
    assert q == p - {root};
    TotalSplit(Fees(g), p, root);
    TotalSplit(Sizes(g), p, root);
    TotalSplit(Sigops(g), p, root);
    SizePositive(g, q, x);
  }

  lemma UntouchedByDrop(g: Graph, anc: Links, unit: nat, ancestorMap: Links, totals: map<Id, Totals>, x: Id, gone: set<Id>, root: Id)
    requires Dag(g, anc) && x in g && x in ancestorMap && x in totals && root !in anc[x] - gone
    requires Current(g, anc, unit, ancestorMap, totals, x, gone)
    ensures Current(g, anc, unit, ancestorMap, totals, x, gone + {root})
  {
    assert anc[x] - gone == anc[x] - (gone + {root});
  }

  /** min, except that an unset (or zero) dependency rate is overwritten. */
  function Lowered(dependencyRate: real, clusterRate: real): real {
    if dependencyRate != 0.0 then (if dependencyRate <= clusterRate then dependencyRate else clusterRate) else clusterRate
  }

  /** The transactions that depend on "root". */
  ghost function Dependents(anc: Links, root: Id): set<Id> {
    set x | x in anc && root in anc[x]
  }

  /** "root" has been taken out of the caches of the "processed" transactions, and only of these. */
  ghost predicate DroppedFrom(g: Graph, anc: Links, unit: nat, ancestorMap: Links, totals: map<Id, Totals>, gone: set<Id>,
                              root: Id, processed: set<Id>)
  {
    && ancestorMap.Keys == totals.Keys == g.Keys
    && forall x {:trigger ancestorMap[x]} {:trigger totals[x]} :: x in g ==>
      Current(g, anc, unit, ancestorMap, totals, x, if x in processed then gone + {root} else gone)
  }

  ghost predicate RatesLowered(rate0: map<Id, real>, rate: map<Id, real>, clusterRate: real, lowered: set<Id>) {
    && rate.Keys == rate0.Keys
    && forall x :: x in rate ==> rate[x] == if x in lowered then Lowered(rate0[x], clusterRate) else rate0[x]
  }

  lemma DroppedOneMore(g: Graph, anc: Links, unit: nat, am: Links, totals: map<Id, Totals>, am': Links, totals': map<Id, Totals>,
                       gone: set<Id>, root: Id, processed: set<Id>, d: Id)
    requires Dag(g, anc) && d in g && d in am' && d in totals'
    requires DroppedFrom(g, anc, unit, am, totals, gone, root, processed)
    requires am' == am[d := am'[d]] && totals' == totals[d := totals'[d]]
    requires Current(g, anc, unit, am', totals', d, gone + {root})
    ensures DroppedFrom(g, anc, unit, am', totals', gone, root, processed + {d})
  {
    forall x | x in g
      ensures Current(g, anc, unit, am', totals', x, if x in processed + {d} then gone + {root} else gone)
    {
      if x != d {
        assert Current(g, anc, unit, am, totals, x, if x in processed then gone + {root} else gone);
      }
    }
  }

  lemma DroppedEverywhere(g: Graph, anc: Links, unit: nat, am: Links, totals: map<Id, Totals>, children: Links,
                          gone: set<Id>, root: Id, visited: set<Id>)
    requires Dag(g, anc) && FullyLinked(anc, children) && root !in gone
    requires DroppedFrom(g, anc, unit, am, totals, gone, root, visited)
    requires Traversed(anc, children, root, visited, visited)
    ensures Consistent(g, anc, unit, am, totals, gone + {root})
    ensures Dependents(anc, root) <= visited
  {
    forall x | x in anc && root in anc[x] ensures x in visited {
      TraversalReaches(g, anc, children, root, visited, x);
    }
    forall x | x in g ensures Current(g, anc, unit, am, totals, x, gone + {root}) {
      assert Current(g, anc, unit, am, totals, x, if x in visited then gone + {root} else gone);
      if x !in visited {
        UntouchedByDrop(g, anc, unit, am, totals, x, gone, root);
      }
    }
  }

  lemma InElements(s: seq<Id>, i: nat)
    requires i < |s|
    ensures s[i] in Elements(s)
  {
  }

  lemma DagKeys(g: Graph, anc: Links)
    requires Dag(g, anc)
    ensures anc.Keys == g.Keys
  {
  }

  lemma NothingSet(g: Graph, anc: Links, unit: nat, ancestorMap: Links, children: Links, totals: map<Id, Totals>)
    requires ancestorMap.Keys == totals.Keys == g.Keys == anc.Keys && Blank(ancestorMap, g.Keys) && InPool(anc, children)
    ensures SetSoundly(anc, ancestorMap, children, {}) && TotalsSet(g, anc, unit, totals, {}) && Blank(ancestorMap, g.Keys - {})
  {
  }

  lemma AllSet(g: Graph, anc: Links, unit: nat, ancestorMap: Links, children: Links, totals: map<Id, Totals>, isSet: set<Id>, txs: seq<Id>)
    requires Dag(g, anc) && SetSoundly(anc, ancestorMap, children, isSet) && TotalsSet(g, anc, unit, totals, isSet)
    requires Elements(txs) == g.Keys && forall j :: 0 <= j < |txs| ==> txs[j] in isSet
    ensures FullyLinked(anc, children) && Consistent(g, anc, unit, ancestorMap, totals, {}) && totals.Keys == g.Keys
  {
    forall x | x in g ensures x in isSet {
      assert x in Elements(txs);
    }
    forall x | x in g
      ensures Linked(anc, children, x, anc[x]) && Current(g, anc, unit, ancestorMap, totals, x, {})
    {
      assert Ready(anc, ancestorMap, children, isSet, x);
      assert anc[x] - {} == anc[x];
    }
  }

  /** The part of the audit transactions that updateDescendants changes. */
  datatype Caches = Caches(ancestorMap: Links, totals: map<Id, Totals>, dependencyRate: map<Id, real>,
                           modified: set<Id>, queued: set<Id>)

  ghost predicate Queues(anc: Links, c0: Caches, c: Caches, root: Id, byNode: bool, processed: set<Id>, pushed: seq<Id>) {
    && Distinct(pushed)
    && Elements(pushed) == processed * Dependents(anc, root) - (if byNode then c0.queued else c0.modified)
    && c.modified == c0.modified + Elements(pushed) && c.queued == c0.queued + Elements(pushed)
  }

  /** What the traversal has done to the caches "c0" once it has been to the "processed" transactions. */
  ghost predicate Walked(g: Graph, anc: Links, unit: nat, c0: Caches, c: Caches, gone: set<Id>, root: Id, clusterRate: real,
                         byNode: bool, processed: set<Id>, pushed: seq<Id>)
  {
    && DroppedFrom(g, anc, unit, c.ancestorMap, c.totals, gone, root, processed)
    && RatesLowered(c0.dependencyRate, c.dependencyRate, clusterRate, processed * Dependents(anc, root))
    && Queues(anc, c0, c, root, byNode, processed, pushed)
  }

  lemma QueuesOneMore(anc: Links, c0: Caches, c: Caches, root: Id, byNode: bool, processed: set<Id>, pushed: seq<Id>, d: Id)
    requires Queues(anc, c0, c, root, byNode, processed, pushed) && d in anc && d !in processed
    ensures var add := root in anc[d] && d !in (if byNode then c.queued else c.modified);
      && (add ==> Queues(anc, c0, c.(modified := c.modified + {d}, queued := c.queued + {d}), root, byNode, processed + {d}, pushed + [d]))
      && (!add ==> Queues(anc, c0, c, root, byNode, processed + {d}, pushed))
  {
    var add := root in anc[d] && d !in (if byNode then c.queued else c.modified);
    assert d !in Elements(pushed);
    if add {
      assert Elements(pushed + [d]) == Elements(pushed) + {d};
    }
  }

  lemma QueuesAlone(anc: Links, c0: Caches, c: Caches, c': Caches, root: Id, byNode: bool, processed: set<Id>, pushed: seq<Id>)
    requires Queues(anc, c0, c, root, byNode, processed, pushed) && c'.modified == c.modified && c'.queued == c.queued
    ensures Queues(anc, c0, c', root, byNode, processed, pushed)
  {
    hide Distinct, Elements, Dependents;
  }

  /** The stack holds the transactions that have been seen but not processed. */
  ghost predicate Stacked(g: Graph, anc: Links, children: Links, root: Id, seen: set<Id>, stack: seq<Id>, processed: set<Id>) {
    && Distinct(stack) && Elements(stack) !! processed
    && seen == processed + Elements(stack) && seen <= g.Keys
    && Traversed(anc, children, root, seen, processed)
  }

  lemma Popped(g: Graph, anc: Links, children: Links, root: Id, seen: set<Id>, stack: seq<Id>, processed: set<Id>)
    requires Stacked(g, anc, children, root, seen, stack, processed) && stack != []
    ensures var d, rest := stack[|stack| - 1], stack[..|stack| - 1];
      && d !in processed && d in g && d in seen && Distinct(rest) && d !in Elements(rest) && Elements(rest) !! processed
      && Elements(rest) <= seen && seen == processed + {d} + Elements(rest)
  {
    var d, rest := stack[|stack| - 1], stack[..|stack| - 1];
    assert d in stack;
    assert stack == rest + [d];
    assert Elements(stack) == Elements(rest) + {d};
  }

  /** Having popped "d" and, if it depends on "root", pushed its unseen children. */
  lemma StackedOneMore(g: Graph, anc: Links, children: Links, root: Id, seen: set<Id>, stack: seq<Id>, processed: set<Id>,
                       seen': set<Id>, stack': seq<Id>)
    requires Stacked(g, anc, children, root, seen, stack, processed) && stack != []
    requires InPool(anc, children) && anc.Keys == g.Keys
    requires var d := stack[|stack| - 1];
      var kids := if d in anc && d in children && root in anc[d] then children[d] else {};
      Distinct(stack') && seen' == seen + kids && Elements(stack') == Elements(stack[..|stack| - 1]) + (kids - seen)
    ensures Stacked(g, anc, children, root, seen', stack', processed + {stack[|stack| - 1]})
  {
    Popped(g, anc, children, root, seen, stack, processed);
  }

  lemma WalkedOneMore(g: Graph, anc: Links, unit: nat, c0: Caches, c: Caches, c': Caches, gone: set<Id>, root: Id, clusterRate: real,
                      byNode: bool, processed: set<Id>, d: Id, pushed: seq<Id>, pushed': seq<Id>)
    requires Dag(g, anc) && d in g && d !in processed && root !in gone
    requires Walked(g, anc, unit, c0, c, gone, root, clusterRate, byNode, processed, pushed)
    requires d in c'.ancestorMap && d in c'.totals && d in c.dependencyRate
    requires c'.ancestorMap == c.ancestorMap[d := c'.ancestorMap[d]] && c'.totals == c.totals[d := c'.totals[d]]
    requires Current(g, anc, unit, c'.ancestorMap, c'.totals, d, gone + {root})
    requires c'.dependencyRate == if root in anc[d] then c.dependencyRate[d := Lowered(c.dependencyRate[d], clusterRate)] else c.dependencyRate
    requires Queues(anc, c0, c', root, byNode, processed + {d}, pushed')
    ensures Walked(g, anc, unit, c0, c', gone, root, clusterRate, byNode, processed + {d}, pushed')
  {
    hide Dag, DroppedFrom, Queues, Current, RatesLowered;
    DroppedOneMore(g, anc, unit, c.ancestorMap, c.totals, c'.ancestorMap, c'.totals, gone, root, processed, d);
    InPoolToo(g, anc, d);
    LoweredOneMore(anc, c0.dependencyRate, c.dependencyRate, c'.dependencyRate, clusterRate, root, processed, d);
  }

  lemma ChildrenInPool(anc: Links, children: Links)
    requires FullyLinked(anc, children)
    ensures InPool(anc, children)
  {
  }

  lemma NoElements()
    ensures Distinct([]) && Elements([]) == {}
  {
  }

  lemma InChildren(g: Graph, anc: Links, children: Links, d: Id)
    requires Dag(g, anc) && InPool(anc, children) && d in g
    ensures d in anc && d in children && anc.Keys == g.Keys
  {
  }

  lemma InPoolToo(g: Graph, anc: Links, d: Id)
    requires Dag(g, anc) && d in g
    ensures d in anc
  {
  }

  lemma LoweredOneMore(anc: Links, rate0: map<Id, real>, rate: map<Id, real>, rate': map<Id, real>, clusterRate: real, root: Id,
                       processed: set<Id>, d: Id)
    requires d in anc && d in rate && d !in processed && RatesLowered(rate0, rate, clusterRate, processed * Dependents(anc, root))
    requires rate' == if root in anc[d] then rate[d := Lowered(rate[d], clusterRate)] else rate
    ensures RatesLowered(rate0, rate', clusterRate, (processed + {d}) * Dependents(anc, root))
  {
    hide Lowered;
    var was, now := processed * Dependents(anc, root), (processed + {d}) * Dependents(anc, root);
    assert d in now <==> root in anc[d];
    assert forall x :: x != d ==> (x in now <==> x in was);
    assert d !in was;
  }

  lemma WalkedAt(g: Graph, anc: Links, unit: nat, c0: Caches, c: Caches, gone: set<Id>, root: Id, clusterRate: real,
                 byNode: bool, processed: set<Id>, pushed: seq<Id>, d: Id)
    requires Dag(g, anc) && d in g && d !in processed && root !in gone && c0.dependencyRate.Keys == g.Keys
    requires Walked(g, anc, unit, c0, c, gone, root, clusterRate, byNode, processed, pushed)
    ensures d in anc && Current(g, anc, unit, c.ancestorMap, c.totals, d, gone) && d in c.dependencyRate
    ensures d in c.ancestorMap && d in c.totals && (root in anc[d] - gone <==> root in anc[d])
    ensures Queues(anc, c0, c, root, byNode, processed, pushed)
  {
    hide Queues, Current;
    assert Current(g, anc, unit, c.ancestorMap, c.totals, d, if d in processed then gone + {root} else gone);
  }

  lemma WalkStarts(g: Graph, anc: Links, unit: nat, c0: Caches, gone: set<Id>, root: Id, clusterRate: real, byNode: bool,
                   children: Links, seen: set<Id>, stack: seq<Id>)
    requires Dag(g, anc) && InPool(anc, children) && root in g && root !in gone
    requires Consistent(g, anc, unit, c0.ancestorMap, c0.totals, gone) && c0.dependencyRate.Keys == g.Keys
    requires seen == children[root] && Distinct(stack) && Elements(stack) == seen
    ensures Walked(g, anc, unit, c0, c0, gone, root, clusterRate, byNode, {}, [])
    ensures Stacked(g, anc, children, root, seen, stack, {})
  {
    hide Distinct, Elements, Dag, Current, Lowered;
    NoElements();
    InChildren(g, anc, children, root);
    forall x | x in g ensures Current(g, anc, unit, c0.ancestorMap, c0.totals, x, if x in {} then gone + {root} else gone) {
    }
  }

  lemma WalkEnds(g: Graph, anc: Links, unit: nat, c0: Caches, c: Caches, gone: set<Id>, root: Id, clusterRate: real, byNode: bool,
                 children: Links, seen: set<Id>, processed: set<Id>, pushed: seq<Id>)
    requires Dag(g, anc) && FullyLinked(anc, children) && root !in gone
    requires Walked(g, anc, unit, c0, c, gone, root, clusterRate, byNode, processed, pushed)
    requires Stacked(g, anc, children, root, seen, [], processed)
    ensures Consistent(g, anc, unit, c.ancestorMap, c.totals, gone + {root})
    ensures RatesLowered(c0.dependencyRate, c.dependencyRate, clusterRate, Dependents(anc, root))
    ensures Queues(anc, c0, c, root, byNode, g.Keys, pushed)
  {
    hide DroppedFrom, Consistent, Traversed, FullyLinked, RatesLowered, Dag, Distinct;
    NoneStacked(g, anc, children, root, seen, processed);
    DroppedEverywhere(g, anc, unit, c.ancestorMap, c.totals, children, gone, root, processed);
    DependentsInPool(g, anc, root);
    assert processed * Dependents(anc, root) == Dependents(anc, root) == g.Keys * Dependents(anc, root);
    hide Dependents;
  }

  lemma NoneStacked(g: Graph, anc: Links, children: Links, root: Id, seen: set<Id>, processed: set<Id>)
    requires Stacked(g, anc, children, root, seen, [], processed)
    ensures Traversed(anc, children, root, processed, processed)
  {
    assert seen == processed;
    hide Traversed;
  }

  lemma DependentsInPool(g: Graph, anc: Links, root: Id)
    requires Dag(g, anc)
    ensures Dependents(anc, root) <= g.Keys
  {
  }

  /** The audit transactions, field by field: each field of the source's records is a map from the
      transaction to its value, and each flag is the set of transactions that carry it. A
      dependencyRate of 0.0 is "unset": the code reads it only where 0 and undefined behave alike. */
  class AuditPool {
    const graph: Graph
    const unit: nat
    ghost const anc: Links
    var ancestorMap: Links
    var children: Links
    var totals: map<Id, Totals>
    var isSet: set<Id>
    var dependencyRate: map<Id, real>
    var used: set<Id>
    var modified: set<Id>
    var queued: set<Id>

    constructor (g: Graph, perVbyte: nat, rates: map<Id, real>)
      requires Acyclic(g) && rates.Keys == g.Keys
      ensures graph == g && unit == perVbyte && dependencyRate == rates
      ensures anc == Ancestry(graph) && Dag(graph, anc) && Generated(graph, anc)
      ensures ancestorMap.Keys == children.Keys == totals.Keys == graph.Keys
      ensures Blank(ancestorMap, graph.Keys) && InPool(anc, children)
      ensures isSet == used == modified == queued == {}
    {
      AncestryIsDag(g);
      graph, unit, dependencyRate := g, perVbyte, rates;
      anc := Ancestry(g);
      ancestorMap, children := map x | x in g :: {}, map x | x in g :: {};
      totals := map x | x in g :: Totals(0, 0, 0, 0.0);
      isSet, used, modified, queued := {}, {}, {}, {};
    }

    /** Builds the relatives graph and calculates the ancestor scores of the whole pool. */
    method SetAll(txs: seq<Id>)
      requires Dag(graph, anc) && Generated(graph, anc) && Elements(txs) == graph.Keys && isSet == {}
      requires ancestorMap.Keys == totals.Keys == graph.Keys && Blank(ancestorMap, graph.Keys) && InPool(anc, children)
      modifies this`ancestorMap, this`children, this`totals, this`isSet
      ensures FullyLinked(anc, children) && Consistent(graph, anc, unit, ancestorMap, totals, {}) && totals.Keys == graph.Keys
    {
      hide *;
      DagKeys(graph, anc);
      NothingSet(graph, anc, unit, ancestorMap, children, totals);
      for i := 0 to |txs|
        invariant SetSoundly(anc, ancestorMap, children, isSet) && TotalsSet(graph, anc, unit, totals, isSet)
        invariant Blank(ancestorMap, graph.Keys - isSet)
        invariant forall j :: 0 <= j < i ==> txs[j] in isSet
      {
        InElements(txs, i);
        SetNext(txs[i]);
      }
      AllSet(graph, anc, unit, ancestorMap, children, totals, isSet, txs);
    }

    method SetNext(x: Id)
      requires Dag(graph, anc) && Generated(graph, anc)
      requires SetSoundly(anc, ancestorMap, children, isSet) && TotalsSet(graph, anc, unit, totals, isSet)
      requires Blank(ancestorMap, graph.Keys - isSet)
      modifies this`ancestorMap, this`children, this`totals, this`isSet
      ensures SetSoundly(anc, ancestorMap, children, isSet) && TotalsSet(graph, anc, unit, totals, isSet)
      ensures Blank(ancestorMap, graph.Keys - isSet)
      ensures old(isSet) <= isSet && (x in graph ==> x in isSet)
    {
      if x in graph && x !in isSet {
        SetRelatives(x);
      }
    }

    /** Inherits the parent "p" of "x" and its ancestors, setting "p" first if it is not set yet. */
    method InheritFrom(x: Id, p: Id)
      requires Dag(graph, anc) && Generated(graph, anc) && IsParent(graph, p, x)
      requires Inheriting(anc, ancestorMap, children, isSet, x) && TotalsSet(graph, anc, unit, totals, isSet)
      modifies this`ancestorMap, this`children, this`totals, this`isSet
      ensures Inheriting(anc, ancestorMap, children, isSet, x) && TotalsSet(graph, anc, unit, totals, isSet)
      ensures SetMore(anc, old(ancestorMap), old(children), old(isSet), ancestorMap, children, isSet, {x}, {p} + anc[p])
      ensures ancestorMap[x] == old(ancestorMap[x]) + {p} + anc[p]
      decreases anc[x], 0, 0
    {
      ghost var am, ch, before := ancestorMap, children, isSet;
      assert p in anc[x] && p in anc && p in children && x in ancestorMap;
      hide *;
      LinkingSound(graph, anc, am, ch, isSet, x, p);
      ancestorMap := ancestorMap[x := ancestorMap[x] + {p}];
      children := children[p := children[p] + {x}];
      SetFirst(p);
      Inherited(graph, anc, am, ch, before, ancestorMap, children, isSet, x, p);
      ancestorMap := ancestorMap[x := ancestorMap[x] + ancestorMap[p]];
    }

    method SetFirst(p: Id)
      requires Dag(graph, anc) && Generated(graph, anc) && p in graph
      requires SetSoundly(anc, ancestorMap, children, isSet) && TotalsSet(graph, anc, unit, totals, isSet)
      requires Blank(ancestorMap, {p} + anc[p] - isSet)
      modifies this`ancestorMap, this`children, this`totals, this`isSet
      ensures SetSoundly(anc, ancestorMap, children, isSet) && TotalsSet(graph, anc, unit, totals, isSet)
      ensures p in isSet && ancestorMap.Keys == old(ancestorMap.Keys)
      ensures SetMore(anc, old(ancestorMap), old(children), old(isSet), ancestorMap, children, isSet, {}, {p} + anc[p])
      decreases anc[p], 2
    {
      if p !in isSet {
        SetRelatives(p);
      } else {
        assert Ready(anc, ancestorMap, children, isSet, p);
      }
    }

    /** Fills in the ancestors, child links, totals and score of "x", and first of every unset ancestor. */
    method SetRelatives(x: Id)
      requires Dag(graph, anc) && Generated(graph, anc) && x in graph && x !in isSet
      requires SetSoundly(anc, ancestorMap, children, isSet) && TotalsSet(graph, anc, unit, totals, isSet)
      requires Blank(ancestorMap, {x} + anc[x] - isSet)
      modifies this`ancestorMap, this`children, this`totals, this`isSet
      ensures SetSoundly(anc, ancestorMap, children, isSet) && TotalsSet(graph, anc, unit, totals, isSet)
      ensures SetMore(anc, old(ancestorMap), old(children), old(isSet), ancestorMap, children, isSet, {}, {x} + anc[x])
      decreases anc[x], 1
    {
      hide *;
      var inputs := graph[x].inputs;
      ghost var am, ch, before := ancestorMap, children, isSet;
      StartInheriting(graph, anc, am, ch, before, x);
      for i := 0 to |inputs|
        invariant x in ancestorMap
        invariant Inheriting(anc, ancestorMap, children, isSet, x) && TotalsSet(graph, anc, unit, totals, isSet)
        invariant SetMore(anc, am, ch, before, ancestorMap, children, isSet, {x}, ancestorMap[x])
        invariant forall j :: 0 <= j < i && inputs[j] in graph ==> inputs[j] in ancestorMap[x]
      {
        InheritInput(x, inputs[i], am, ch, before);
      }
      AllInherited(graph, anc, ancestorMap, children, isSet, x);
      ghost var totals1, isSet1 := totals, isSet;
      NowSet(graph, anc, unit, am, ch, before, ancestorMap, children, isSet1, totals1, x);
      SumAncestors(x);
    }

    /** One round of the loop over the inputs of "x". */
    method InheritInput(x: Id, parent: Id, ghost am: Links, ghost ch: Links, ghost before: set<Id>)
      requires Dag(graph, anc) && Generated(graph, anc) && x in graph && parent in graph[x].inputs
      requires Inheriting(anc, ancestorMap, children, isSet, x) && TotalsSet(graph, anc, unit, totals, isSet)
      requires SetMore(anc, am, ch, before, ancestorMap, children, isSet, {x}, ancestorMap[x])
      modifies this`ancestorMap, this`children, this`totals, this`isSet
      ensures Inheriting(anc, ancestorMap, children, isSet, x) && TotalsSet(graph, anc, unit, totals, isSet)
      ensures SetMore(anc, am, ch, before, ancestorMap, children, isSet, {x}, ancestorMap[x])
      ensures x in ancestorMap && old(ancestorMap[x]) <= ancestorMap[x] && (parent in graph ==> parent in ancestorMap[x])
      decreases anc[x], 0, 1
    {
      hide *;
      InheritingKeys(graph, anc, ancestorMap, children, isSet, x);
      if parent in ancestorMap && parent !in ancestorMap[x] {
        ghost var am1, ch1, isSet1 := ancestorMap, children, isSet;
        InputIsParent(graph, anc, parent, x);
        InheritFrom(x, parent);
        InheritingKeys(graph, anc, ancestorMap, children, isSet, x);
        SetMoreTwice(anc, am, ch, before, am1, ch1, isSet1, ancestorMap, children, isSet, x, am1[x], {parent} + anc[parent]);
        assert am1[x] + ({parent} + anc[parent]) == ancestorMap[x];
      }
    }

    /** The closing part of setRelatives: totals over the ancestors, then the score. */
    method SumAncestors(x: Id)
      requires Dag(graph, anc) && x in graph && x in ancestorMap && totals.Keys == graph.Keys
      requires ancestorMap[x] == anc[x]
      modifies this`totals, this`isSet
      ensures totals == old(totals)[x := FreshTotals(graph, anc, unit, x, {})]
      ensures isSet == old(isSet) + {x}
    {
      var fee, size, sigops := graph[x].fee, graph[x].size, graph[x].sigops;
      var rest := ancestorMap[x];
      ghost var done := {x};
      while rest != {}
        invariant totals == old(totals) && isSet == old(isSet)
        invariant rest <= ancestorMap[x] && done == {x} + (ancestorMap[x] - rest)
        invariant fee == Total(Fees(graph), done)
        invariant size == Total(Sizes(graph), done)
        invariant sigops == Total(Sigops(graph), done)
        decreases rest
      {
        NonEmpty(rest);
        var ancestor :| ancestor in rest;
        done := done + {ancestor};
        TotalSplit(Fees(graph), done, ancestor);
        TotalSplit(Sizes(graph), done, ancestor);
        TotalSplit(Sigops(graph), done, ancestor);
        assert done - {ancestor} == {x} + (ancestorMap[x] - rest);
        fee, size, sigops := fee + graph[ancestor].fee, size + graph[ancestor].size, sigops + graph[ancestor].sigops;
        rest := rest - {ancestor};
      }
      assert done == Package(anc, x, {});
      SizePositive(graph, done, x);
      totals := totals[x := Totals(fee, size, sigops, Rate(unit, fee, size))];
      isSet := isSet + {x};
    }

    /** Takes "root" out of the ancestorMap of "d", if it is there, and out of its cached totals. */
    method DropFrom(d: Id, root: Id, clusterRate: real, ghost gone: set<Id>) returns (dropped: bool)
      requires Dag(graph, anc) && d in graph && d in ancestorMap && d in totals && d in dependencyRate && root in graph
      requires Current(graph, anc, unit, ancestorMap, totals, d, gone)
      modifies this`ancestorMap, this`totals, this`dependencyRate
      ensures dropped == (root in anc[d] - gone)
      ensures d in ancestorMap && d in totals
      ensures ancestorMap == old(ancestorMap)[d := ancestorMap[d]] && totals == old(totals)[d := totals[d]]
      ensures Current(graph, anc, unit, ancestorMap, totals, d, gone + {root})
      ensures dependencyRate == if dropped then old(dependencyRate)[d := Lowered(old(dependencyRate)[d], clusterRate)] else old(dependencyRate)
    {
      dropped := root in ancestorMap[d];
      if dropped {
        DropAncestor(graph, anc, d, gone, root);
        ancestorMap := ancestorMap[d := ancestorMap[d] - {root}];
        assert anc[d] - gone - {root} == anc[d] - (gone + {root});
        var fee, size, sigops := totals[d].fee - graph[root].fee, totals[d].size - graph[root].size, totals[d].sigops - graph[root].sigops;
        totals := totals[d := Totals(fee, size, sigops, Rate(unit, fee, size))];
        dependencyRate := dependencyRate[d := Lowered(dependencyRate[d], clusterRate)];
      } else {
        UntouchedByDrop(graph, anc, unit, ancestorMap, totals, d, gone, root);
      }
    }

    ghost function View(): (c: Caches)
      reads this
      ensures c.ancestorMap == ancestorMap && c.totals == totals && c.dependencyRate == dependencyRate
      ensures c.modified == modified && c.queued == queued
    {
      Caches(ancestorMap, totals, dependencyRate, modified, queued)
    }

    /** Visits one transaction of the traversal. A dependent of "root" that is not waiting in the modified
        queue is flagged and pushed: the mini-miner asks for the modified flag, the worker ("byNode") for
        a live queue node. */
    method Visit(d: Id, root: Id, clusterRate: real, byNode: bool, pushed: seq<Id>, ghost gone: set<Id>, ghost c0: Caches, ghost processed: set<Id>)
      returns (dropped: bool, pushed': seq<Id>)
      requires Dag(graph, anc) && d in graph && d !in processed && root in graph && root !in gone
      requires Walked(graph, anc, unit, c0, View(), gone, root, clusterRate, byNode, processed, pushed)
      requires c0.dependencyRate.Keys == graph.Keys
      modifies this`ancestorMap, this`totals, this`dependencyRate, this`modified, this`queued
      ensures Walked(graph, anc, unit, c0, View(), gone, root, clusterRate, byNode, processed + {d}, pushed')
      ensures dropped == (root in anc[d])
    {
      hide *;
      ghost var c := View();
      WalkedAt(graph, anc, unit, c0, c, gone, root, clusterRate, byNode, processed, pushed, d);
      dropped := DropFrom(d, root, clusterRate, gone);
      QueuesOneMore(anc, c0, c, root, byNode, processed, pushed, d);
      pushed' := pushed;
      if dropped && d !in (if byNode then queued else modified) {
        modified, queued, pushed' := modified + {d}, queued + {d}, pushed + [d];
      }
      QueuesAlone(anc, c0, c.(modified := modified, queued := queued), View(), root, byNode, processed + {d}, pushed');
      WalkedOneMore(graph, anc, unit, c0, c, Caches(ancestorMap, totals, dependencyRate, modified, queued), gone, root, clusterRate,
                    byNode, processed, d, pushed, pushed');
    }

    /** One round of the traversal: pops a transaction, visits it, and pushes its unseen children. */
    method WalkOn(root: Id, clusterRate: real, byNode: bool, seen: set<Id>, stack: seq<Id>, pushed: seq<Id>,
                  ghost gone: set<Id>, ghost c0: Caches, ghost processed: set<Id>)
      returns (seen': set<Id>, stack': seq<Id>, pushed': seq<Id>)
      requires Dag(graph, anc) && InPool(anc, children) && root in graph && root !in gone && c0.dependencyRate.Keys == graph.Keys
      requires Stacked(graph, anc, children, root, seen, stack, processed) && stack != []
      requires Walked(graph, anc, unit, c0, View(), gone, root, clusterRate, byNode, processed, pushed)
      modifies this`ancestorMap, this`totals, this`dependencyRate, this`modified, this`queued
      ensures stack[|stack| - 1] in graph && stack[|stack| - 1] !in processed
      ensures Stacked(graph, anc, children, root, seen', stack', processed + {stack[|stack| - 1]})
      ensures Walked(graph, anc, unit, c0, View(), gone, root, clusterRate, byNode, processed + {stack[|stack| - 1]}, pushed')
    {
      hide *;
      var d := stack[|stack| - 1];
      Popped(graph, anc, children, root, seen, stack, processed);
      InChildren(graph, anc, children, d);
      var dropped;
      dropped, pushed' := Visit(d, root, clusterRate, byNode, pushed, gone, c0, processed);
      seen', stack' := PushUnvisited(if dropped then children[d] else {}, seen, stack[..|stack| - 1]);
      StackedOneMore(graph, anc, children, root, seen, stack, processed, seen', stack');
    }

    /** Takes "root" out of the caches of all its dependents, walking the child links with a stack. */
    method UpdateDescendants(root: Id, clusterRate: real, byNode: bool, ghost gone: set<Id>) returns (pushed: seq<Id>)
      requires Dag(graph, anc) && FullyLinked(anc, children) && root in graph && root !in gone
      requires Consistent(graph, anc, unit, ancestorMap, totals, gone) && dependencyRate.Keys == graph.Keys
      modifies this`ancestorMap, this`totals, this`dependencyRate, this`modified, this`queued
      ensures Consistent(graph, anc, unit, ancestorMap, totals, gone + {root})
      ensures RatesLowered(old(dependencyRate), dependencyRate, clusterRate, Dependents(anc, root))
      ensures Queues(anc, old(View()), View(), root, byNode, graph.Keys, pushed)
    {
      hide *;
      ghost var c0, processed: set<Id> := View(), {};
      ChildrenInPool(anc, children);
      InChildren(graph, anc, children, root);
      NoElements();
      pushed := [];
      var descendantSet, descendants := PushUnvisited(children[root], {}, []);
      WalkStarts(graph, anc, unit, c0, gone, root, clusterRate, byNode, children, descendantSet, descendants);
      while descendants != []
        invariant Stacked(graph, anc, children, root, descendantSet, descendants, processed)
        invariant Walked(graph, anc, unit, c0, View(), gone, root, clusterRate, byNode, processed, pushed)
        decreases graph.Keys - processed
      {
        ghost var d := descendants[|descendants| - 1];
        descendantSet, descendants, pushed :=
          WalkOn(root, clusterRate, byNode, descendantSet, descendants, pushed, gone, c0, processed);
        processed := processed + {d};
      }
      WalkEnds(graph, anc, unit, c0, View(), gone, root, clusterRate, byNode, children, descendantSet, processed, pushed);
    }
  }

  /** Pushes the members of "txs" not seen before, in any order, and marks them as seen. */
  method PushUnvisited(txs: set<Id>, visited: set<Id>, stack: seq<Id>) returns (visited': set<Id>, stack': seq<Id>)
    requires Distinct(stack) && Elements(stack) <= visited
    ensures visited' == visited + txs
    ensures Distinct(stack') && Elements(stack') == Elements(stack) + (txs - visited)
  {
    visited', stack' := visited, stack;
    var rest := txs;
    while rest != {}
      invariant rest <= txs && visited' == visited + (txs - rest)
      invariant Distinct(stack') && Elements(stack') == Elements(stack) + (txs - rest - visited)
      decreases rest
    {
      NonEmpty(rest);
      var x :| x in rest;
      if x !in visited' {
        assert Elements(stack' + [x]) == Elements(stack') + {x};
        visited', stack' := visited' + {x}, stack' + [x];
      }
      rest := rest - {x};
    }
  }
}
