/** When a template without limits reports a package below what it pays: a transaction's own rate caps its package, even if
    no ancestor asks for it. */
module RootRates {
  import opened Collections
  import opened PackageGraph
  import opened Relatives
  import opened Selection
  import opened Sorting
  import opened Packaging
  import opened RateCaps
  import opened Families
  import opened MiniMiner

  /** Package "k" is reported below what it pays, and not because of an input outside of it. */
  ghost predicate Undercut(g: Graph, picks: seq<Pick>, k: nat) {
    k < |picks| && !PaysExactly(Fees(g), Sizes(g), 1, picks[k]) && !AtInputRate(InputsIn(g), picks, k)
  }

  /** "x" depends on "a" and "b", neither of which depends on the other, and both depend on "c". */
  ghost predicate Diamond(anc: Links, x: Id, a: Id, b: Id, c: Id) {
    && x in anc && a in anc && b in anc && a in anc[x] && b in anc[x] && a != b && a !in anc[b] && b !in anc[a]
    && c in anc[a] && c in anc[b]
  }

  ghost predicate NoDiamond(anc: Links) {
    forall x, a, b, c :: !Diamond(anc, x, a, b, c)
  }

  /** A run without limits on fees that are not negative, or the beginning of one. */
  ghost predicate UnlimitedRun(g: Graph, limits: Limits, trace: seq<Choice>) {
    && NonNegativeFees(g, 1) && limits.maxBlocks <= 1 && Greedy(g, Ancestry(g), 1, limits, trace)
    && ValidPicks(g, Ancestry(g), 1, OwnRates(g), PicksOf(trace))
  }

  // ---------- without diamonds ----------

  /** "s" is what is left of some packages. */
  ghost predicate ClosedIn(anc: Links, gone: set<Id>, s: set<Id>) {
    forall y :: y in s ==> y in anc && y !in gone && anc[y] - gone <= s
  }

  lemma {:induction false} Top(anc: Links, s: set<Id>) returns (m: Id)
    requires s != {} && s <= anc.Keys
    ensures m in s && forall y :: y in s ==> |anc[y]| <= |anc[m]|
    decreases s
  {
    m := AnyOf(s);
    if s - {m} != {} {
      var n := Top(anc, s - {m});
      if |anc[n]| > |anc[m]| { m := n; }
    } else {
      assert s == {m};
    }
  }

  /** What is left without the package of a transaction on which nobody depends is still closed. */
  lemma StillClosed(g: Graph, anc: Links, gone: set<Id>, s: set<Id>, m: Id)
    requires Dag(g, anc) && NoDiamond(anc) && ClosedIn(anc, gone, s) && m in s
    requires (forall y :: y in s ==> |anc[y]| <= |anc[m]|) && exists x :: x in anc && s <= anc[x]
    ensures ClosedIn(anc, gone, s - Package(anc, m, gone)) && Package(anc, m, gone) <= s
  {
    var x :| x in anc && s <= anc[x];
    var rest := s - Package(anc, m, gone);
    forall y, z | y in rest && z in anc[y] - gone ensures z in rest {
      assert z in s;
      if m in anc[y] {
        FewerAncestors(g, anc, y, m);
        assert false;
      }
      assert z != m;
      assert y !in anc[m];
      assert !Diamond(anc, x, y, m, z);
    }
  }

  ghost predicate UpTo(fee: int, q: real, size: int) {
    fee as real <= q * size as real
  }

  ghost predicate Exactly(fee: int, q: real, size: int) {
    fee as real == q * size as real
  }

  ghost predicate PaysUpTo(g: Graph, q: real, s: set<Id>) {
    UpTo(Total(Fees(g), s), q, Total(Sizes(g), s))
  }

  lemma UpToUnion(g: Graph, q: real, s: set<Id>, t: set<Id>)
    requires s !! t && PaysUpTo(g, q, s) && PaysUpTo(g, q, t)
    ensures PaysUpTo(g, q, s + t)
  {
    TotalUnion(Fees(g), s, t);
    TotalUnion(Sizes(g), s, t);
    hide Total, PaysUpTo, UpTo;
    UpToIs(g, q, s);
    UpToIs(g, q, t);
    UpToSum(Total(Fees(g), s), Total(Fees(g), t), q, Total(Sizes(g), s), Total(Sizes(g), t));
    IsUpTo(g, q, s + t);
  }

  lemma UpToSum(fee: int, fee': int, q: real, size: int, size': int)
    requires UpTo(fee, q, size) && UpTo(fee', q, size')
    ensures UpTo(fee + fee', q, size + size')
  {
    assert q * (size + size') as real == q * size as real + q * size' as real;
  }

  lemma IsUpTo(g: Graph, q: real, s: set<Id>)
    requires UpTo(Total(Fees(g), s), q, Total(Sizes(g), s))
    ensures PaysUpTo(g, q, s)
  {
  }

  /** If no package in a closed set pays more than "q" a unit, neither does the set. */
  lemma {:induction false} SetPaysUpTo(g: Graph, anc: Links, gone: set<Id>, q: real, s: set<Id>)
    requires Dag(g, anc) && NoDiamond(anc) && ClosedIn(anc, gone, s) && exists x :: x in anc && s <= anc[x]
    requires forall y :: y in s ==> PaysUpTo(g, q, Package(anc, y, gone))
    ensures PaysUpTo(g, q, s)
    decreases s
  {
    if s == {} {
      assert Total(Fees(g), {}) == Total(Sizes(g), {}) == 0;
    } else {
      hide PaysUpTo, NoDiamond, Dag;
      var m := Top(anc, s);
      StillClosed(g, anc, gone, s, m);
      var p := Package(anc, m, gone);
      SetPaysUpTo(g, anc, gone, q, s - p);
      UpToUnion(g, q, s - p, p);
      assert s - p + p == s;
    }
  }

  lemma ScoreIs(g: Graph, anc: Links, x: Id, gone: set<Id>)
    requires Dag(g, anc) && x in g
    ensures var p, q := Package(anc, x, gone), FreshTotals(g, anc, 1, x, gone).score;
      && p <= g.Keys && Total(Sizes(g), p) > 0 && q == Total(Fees(g), p) as real / Total(Sizes(g), p) as real
      && Total(Fees(g), p) as real == q * Total(Sizes(g), p) as real
  {
    var p := Package(anc, x, gone);
    SizePositive(g, p, x);
    hide Total;
    var fee, size := Total(Fees(g), p) as real, Total(Sizes(g), p) as real;
    assert 1.0 * fee == fee;
    assert fee / size * size == fee;
  }

  lemma ScoredUpTo(g: Graph, anc: Links, y: Id, gone: set<Id>, q: real)
    requires Dag(g, anc) && y in g && FreshTotals(g, anc, 1, y, gone).score <= q
    ensures PaysUpTo(g, q, Package(anc, y, gone))
  {
    ScoreIs(g, anc, y, gone);
    hide FreshTotals, Total, Dag;
    var s, size := FreshTotals(g, anc, 1, y, gone).score, Total(Sizes(g), Package(anc, y, gone)) as real;
    assert (q - s) * size >= 0.0;
  }

  /** The best transaction pays at least what its package pays. */
  lemma BestPaysOwn(g: Graph, anc: Links, gone: set<Id>, x: Id)
    requires Dag(g, anc) && NoDiamond(anc) && x in g && x !in gone && (forall y :: y in gone && y in anc ==> anc[y] <= gone)
    requires BestOf(g, anc, 1, gone, {}, x)
    ensures Rate(1, g[x].fee, g[x].size) >= FreshTotals(g, anc, 1, x, gone).score
  {
    SameKeys(g, anc);
    hide *;
    var q, s := FreshTotals(g, anc, 1, x, gone).score, anc[x] - gone;
    AncestorsPayUpTo(g, anc, gone, x, q);
    UpToIs(g, q, s);
    PackagePays(g, anc, gone, x);
    PaysRest(q, Total(Fees(g), s), Total(Sizes(g), s), g[x].fee, g[x].size);
  }

  lemma PackageSums(g: Graph, anc: Links, gone: set<Id>, x: Id)
    requires Dag(g, anc) && x in g
    ensures Total(Fees(g), Package(anc, x, gone)) == Total(Fees(g), anc[x] - gone) + g[x].fee
    ensures Total(Sizes(g), Package(anc, x, gone)) == Total(Sizes(g), anc[x] - gone) + g[x].size
  {
    var s := anc[x] - gone;
    assert Package(anc, x, gone) == s + {x};
    TotalUnion(Fees(g), s, {x});
    TotalUnion(Sizes(g), s, {x});
    SingleTotal(Fees(g), x);
    SingleTotal(Sizes(g), x);
    hide Total;
  }

  lemma PackagePays(g: Graph, anc: Links, gone: set<Id>, x: Id)
    requires Dag(g, anc) && x in g
    ensures Exactly(Total(Fees(g), anc[x] - gone) + g[x].fee, FreshTotals(g, anc, 1, x, gone).score, Total(Sizes(g), anc[x] - gone) + g[x].size)
  {
    ScoreIs(g, anc, x, gone);
    PackageSums(g, anc, gone, x);
    hide Total, FreshTotals, Package, Dag;
  }

  lemma SameKeys(g: Graph, anc: Links)
    requires Dag(g, anc)
    ensures anc.Keys == g.Keys
  {
  }

  lemma UpToIs(g: Graph, q: real, s: set<Id>)
    requires PaysUpTo(g, q, s)
    ensures UpTo(Total(Fees(g), s), q, Total(Sizes(g), s))
  {
  }

  lemma AncestorsPayUpTo(g: Graph, anc: Links, gone: set<Id>, x: Id, q: real)
    requires Dag(g, anc) && NoDiamond(anc) && x in g && (forall y :: y in gone && y in anc ==> anc[y] <= gone)
    requires BestOf(g, anc, 1, gone, {}, x) && q == FreshTotals(g, anc, 1, x, gone).score
    ensures PaysUpTo(g, q, anc[x] - gone)
  {
    var s := anc[x] - gone;
    hide FreshTotals, NoDiamond, PaysUpTo;
    forall y | y in s ensures PaysUpTo(g, q, Package(anc, y, gone)) {
      ScoredUpTo(g, anc, y, gone, q);
    }
    assert ClosedIn(anc, gone, s);
    SetPaysUpTo(g, anc, gone, q, s);
  }

  lemma PaysRest(q: real, fees: int, sizes: int, fee: int, size: pos)
    requires UpTo(fees, q, sizes) && Exactly(fees + fee, q, sizes + size)
    ensures Rate(1, fee, size) >= q
  {
    assert q * (sizes + size) as real == q * sizes as real + q * size as real;
    assert fee as real >= q * size as real;
    var r := Rate(1, fee, size);
    assert r * size as real == fee as real by { assert 1.0 * fee as real == fee as real; }
    NotBelow(r, q, size as real);
  }

  lemma NotBelow(r: real, q: real, size: real)
    requires r * size >= q * size && size > 0.0
    ensures r >= q
  {
    assert (r - q) * size >= 0.0;
  }

  /** Without diamonds a template without limits reports no package below what it pays but for an input's sake. */
  lemma NeverUndercut(g: Graph, limits: Limits, trace: seq<Choice>, k: nat)
    requires Acyclic(g) && UnlimitedRun(g, limits, trace) && NoDiamond(Ancestry(g))
    ensures !Undercut(g, PicksOf(trace), k)
  {
    var anc, picks := Ancestry(g), PicksOf(trace);
    hide *;
    AncestryIsDag(g);
    RunParts(g, limits, trace);
    if k < |picks| {
      OwnRatesSign(g);
      UnboundedTakesBest(g, anc, 1, limits, trace);
      LeastWithoutLimits(g, anc, 1, OwnRates(g), picks, k);
      BestRootAt(g, anc, picks, k);
      PickIs(g, anc, 1, OwnRates(g), picks, k);
      RootInPool(g, anc, picks, k);
      BestPaysOwn(g, anc, Gone(picks[..k]), Root(picks[k]));
      OwnIsQuotient(g, anc, picks, k);
    }
    NotUndercut(g, picks, k);
  }

  lemma RunParts(g: Graph, limits: Limits, trace: seq<Choice>)
    requires UnlimitedRun(g, limits, trace)
    ensures NonNegativeFees(g, 1) && limits.maxBlocks <= 1 && Greedy(g, Ancestry(g), 1, limits, trace)
    ensures ValidPicks(g, Ancestry(g), 1, OwnRates(g), PicksOf(trace))
  {
  }

  lemma BestRootAt(g: Graph, anc: Links, picks: seq<Pick>, k: nat)
    requires BestRoots(g, anc, 1, picks) && k < |picks|
    ensures picks[k].cluster != [] && BestOf(g, anc, 1, Gone(picks[..k]), {}, Root(picks[k]))
  {
    hide BestOf, Gone;
  }

  lemma RootInPool(g: Graph, anc: Links, picks: seq<Pick>, k: nat)
    requires Dag(g, anc) && k < |picks| && picks[k].cluster != [] && Root(picks[k]) in anc
    ensures Root(picks[k]) in g
  {
  }

  lemma NotUndercut(g: Graph, picks: seq<Pick>, k: nat)
    requires k < |picks| ==> PaysExactly(Fees(g), Sizes(g), 1, picks[k]) || AtInputRate(InputsIn(g), picks, k)
    ensures !Undercut(g, picks, k)
  {
    hide PaysExactly, AtInputRate;
  }

  lemma OwnIsQuotient(g: Graph, anc: Links, picks: seq<Pick>, k: nat)
    requires Dag(g, anc) && ValidPicks(g, anc, 1, OwnRates(g), picks) && k < |picks| && picks[k].cluster != [] && Root(picks[k]) in g
    requires LeastPrice(InputsIn(g), Fees(g), Sizes(g), 1, OwnRates(g), picks, k)
    requires Rate(1, g[Root(picks[k])].fee, g[Root(picks[k])].size) >= FreshTotals(g, anc, 1, Root(picks[k]), Gone(picks[..k])).score
    ensures PaysExactly(Fees(g), Sizes(g), 1, picks[k]) || AtInputRate(InputsIn(g), picks, k)
  {
    var p := picks[k];
    hide *;
    QuotientIsScore(g, anc, picks, k);
    RateBelowQuotient(g, anc, picks, k);
    MembersInPool(g, anc, 1, OwnRates(g), picks, k);
    QuotientPays(g, 1, p);
    LeastIs(g, picks, k);
    if IsOwn(OwnRates(g), p) { OwnRateIs(g, p); }
  }

  lemma OwnRateIs(g: Graph, p: Pick)
    requires p.cluster != [] && Root(p) in g && IsOwn(OwnRates(g), p)
    ensures p.rate == Rate(1, g[Root(p)].fee, g[Root(p)].size)
  {
    hide Rate;
  }

  lemma LeastIs(g: Graph, picks: seq<Pick>, k: nat)
    requires k < |picks| && picks[k].cluster != [] && LeastPrice(InputsIn(g), Fees(g), Sizes(g), 1, OwnRates(g), picks, k)
    ensures PaysExactly(Fees(g), Sizes(g), 1, picks[k]) || IsOwn(OwnRates(g), picks[k]) || AtInputRate(InputsIn(g), picks, k)
  {
    hide PaysExactly, IsOwn, AtInputRate, Outside;
  }

  lemma QuotientIsScore(g: Graph, anc: Links, picks: seq<Pick>, k: nat)
    requires Dag(g, anc) && ValidPicks(g, anc, 1, OwnRates(g), picks) && k < |picks| && picks[k].cluster != []
    ensures Quotient(g, 1, picks[k]) == FreshTotals(g, anc, 1, Root(picks[k]), Gone(picks[..k])).score
  {
    assert ValidPick(g, anc, 1, OwnRates(g), picks[..k], picks[k]);
    hide DependencyRate, ValidPicks, ParentsFirst, Gone, Total, Dag, Distinct, Rate;
  }

  lemma RateBelowQuotient(g: Graph, anc: Links, picks: seq<Pick>, k: nat)
    requires Dag(g, anc) && ValidPicks(g, anc, 1, OwnRates(g), picks) && k < |picks|
    ensures picks[k].rate <= Quotient(g, 1, picks[k])
  {
    RateIsCapped(g, anc, 1, OwnRates(g), picks, k);
    hide *;
    CappedIs(DependencyRate(anc, picks[..k], InitialRate(OwnRates(g), Root(picks[k])), Root(picks[k])), Quotient(g, 1, picks[k]));
  }

  // ---------- with a diamond ----------

  /** Fees and sizes for which a diamond's lower corner is best, and pays less than its package: the upper corner is large
      and free, the two between pay for it. */
  ghost function Repriced(g: Graph, x: Id, a: Id, b: Id, c: Id, n: pos): Graph {
    map y | y in g ::
      TxInfo(if y == a || y == b then n else if y == x then 1 else 0, if y == c then n else 1, if y == c then 4 * n else 4, 0, g[y].order, g[y].inputs)
  }

  /** The same transactions with the same inputs. */
  ghost predicate SameShape(g: Graph, g': Graph) {
    g'.Keys == g.Keys && forall x :: x in g ==> g'[x].inputs == g[x].inputs
  }

  lemma SameAncestry(g: Graph, g': Graph)
    requires SameShape(g, g')
    ensures Ancestry(g') == Ancestry(g) && (Acyclic(g) ==> Acyclic(g'))
  {
    assert forall p, x :: IsParent(g', p, x) <==> IsParent(g, p, x);
    forall p ensures Path(g', p) <==> Path(g, p) {
      if Path(g, p) {
        forall i, j | 0 <= i < j < |p| && j == i + 1 ensures IsParent(g', p[j], p[i]) { assert IsParent(g, p[j], p[i]); }
      }
      if Path(g', p) {
        forall i, j | 0 <= i < j < |p| && j == i + 1 ensures IsParent(g, p[j], p[i]) { assert IsParent(g', p[j], p[i]); }
      }
    }
    hide IsParent, Path;
    forall x ensures Ancestors(g', x) == Ancestors(g, x) {
      forall y ensures IsAncestor(g', y, x) <==> IsAncestor(g, y, x) {
        if p :| PathBetween(g, p, x, y) { assert PathBetween(g', p, x, y); }
        if p :| PathBetween(g', p, x, y) { assert PathBetween(g, p, x, y); }
      }
    }
    hide Ancestors;
    if Acyclic(g) {
      var rank :| Ranked(g, rank);
      assert Ranked(g', rank);
    }
  }

  /** The lowest corner with the fewest ancestors. */
  ghost predicate Lowest(anc: Links, x: Id, a: Id, b: Id, c: Id) {
    Diamond(anc, x, a, b, c) && forall y :: y in anc && a in anc[y] && b in anc[y] ==> |anc[x]| <= |anc[y]|
  }

  lemma {:induction false} FindLowest(anc: Links, x: Id, a: Id, b: Id, c: Id) returns (z: Id)
    requires Diamond(anc, x, a, b, c)
    ensures Lowest(anc, z, a, b, c)
    decreases |anc[x]|
  {
    if y :| y in anc && a in anc[y] && b in anc[y] && |anc[y]| < |anc[x]| {
      z := FindLowest(anc, y, a, b, c);
    } else {
      z := x;
    }
  }

  ghost function One(y: Id, s: set<Id>): int {
    if y in s then 1 else 0
  }

  lemma {:induction false} RepricedTotals(g: Graph, x: Id, a: Id, b: Id, c: Id, n: pos, s: set<Id>)
    requires s <= g.Keys && x != a && x != b && a != b
    ensures Total(Fees(Repriced(g, x, a, b, c, n)), s) == n * One(a, s) + n * One(b, s) + One(x, s)
    ensures Total(Sizes(Repriced(g, x, a, b, c, n)), s) == |s| + (n - 1) * One(c, s)
    decreases s
  {
    if s != {} {
      var y := AnyOf(s);
      RepricedTotals(g, x, a, b, c, n, s - {y});
      TotalSplit(Fees(Repriced(g, x, a, b, c, n)), s, y);
      TotalSplit(Sizes(Repriced(g, x, a, b, c, n)), s, y);
      hide Total;
      assert n * 1 == n && n * 0 == 0 && (n - 1) * 1 == n - 1 && (n - 1) * 0 == 0;
    }
  }

  /** The lowest corner's package pays more than its size, every other package at most that. */
  lemma RepricedPackages(g: Graph, anc: Links, x: Id, a: Id, b: Id, c: Id, n: pos, y: Id)
    requires Dag(g, anc) && Lowest(anc, x, a, b, c) && n == |anc[x]| && y in g
    ensures var g', p := Repriced(g, x, a, b, c, n), Package(anc, y, {});
      if y == x then Total(Fees(g'), p) == 2 * n + 1 && Total(Sizes(g'), p) == 2 * n else Total(Fees(g'), p) <= Total(Sizes(g'), p)
  {
    var p := Package(anc, y, {});
    assert p == anc[y] + {y} && |p| == |anc[y]| + 1;
    RepricedTotals(g, x, a, b, c, n, p);
    Corners(g, anc, x, a, b, c, y);
    hide Total, Dag, Lowest, Diamond;
  }

  lemma Corners(g: Graph, anc: Links, x: Id, a: Id, b: Id, c: Id, y: Id)
    requires Dag(g, anc) && Lowest(anc, x, a, b, c) && y in g
    ensures x != a && x != b && a != b && y in anc && y !in anc[y]
    ensures var p := Package(anc, y, {});
      && (a in p || b in p ==> c in p) && (x in p ==> a in p && b in p)
      && (a in p && b in p ==> |anc[y]| >= |anc[x]| && (x in p && x != y ==> |anc[y]| > |anc[x]|))
  {
    if x in anc[y] { FewerAncestors(g, anc, y, x); }
  }

  lemma RepricedIs(g: Graph, anc: Links, x: Id, a: Id, b: Id, c: Id, n: pos)
    requires Dag(g, anc) && Lowest(anc, x, a, b, c)
    ensures var g' := Repriced(g, x, a, b, c, n);
      && Dag(g', anc) && SameShape(g, g') && NonNegativeFees(g', 1) && g'.Keys == g.Keys && x in g' && g'[x].fee == 1 && g'[x].size == 1
  {
  }

  ghost predicate ScoresExactly(g: Graph, anc: Links, x: Id) {
    var p := Package(anc, x, {});
    Total(Sizes(g), p) > 0 && Exactly(Total(Fees(g), p), FreshTotals(g, anc, 1, x, {}).score, Total(Sizes(g), p))
  }

  lemma ScoreExact(g: Graph, anc: Links, x: Id)
    requires Dag(g, anc) && x in g
    ensures ScoresExactly(g, anc, x)
  {
    ScoreIs(g, anc, x, {});
    hide Total, FreshTotals, Package, Dag;
  }

  /** The lowest corner is the only best transaction. */
  lemma RepricedBest(g: Graph, anc: Links, x: Id, a: Id, b: Id, c: Id, n: pos, y: Id)
    requires Dag(g, anc) && Lowest(anc, x, a, b, c) && n == |anc[x]| && y in g
    ensures var s := FreshTotals(Repriced(g, x, a, b, c, n), anc, 1, y, {}).score; if y == x then s > 1.0 else s <= 1.0
  {
    var g' := Repriced(g, x, a, b, c, n);
    RepricedIs(g, anc, x, a, b, c, n);
    RepricedPackages(g, anc, x, a, b, c, n, y);
    ScoreExact(g', anc, y);
    hide *;
    ScoreCompared(g', anc, y);
  }

  lemma ScoreCompared(g: Graph, anc: Links, y: Id)
    requires ScoresExactly(g, anc, y)
    ensures var p, s := Package(anc, y, {}), FreshTotals(g, anc, 1, y, {}).score;
      (Total(Fees(g), p) <= Total(Sizes(g), p) ==> s <= 1.0) && (Total(Fees(g), p) > Total(Sizes(g), p) ==> s > 1.0)
  {
    var p, s := Package(anc, y, {}), FreshTotals(g, anc, 1, y, {}).score;
    hide Total, FreshTotals, Package;
    Compared(s, Total(Fees(g), p), Total(Sizes(g), p));
  }

  lemma Compared(q: real, fee: int, size: int)
    requires size > 0 && Exactly(fee, q, size)
    ensures (fee <= size ==> q <= 1.0) && (fee > size ==> q > 1.0)
  {
    assert (1.0 - q) * size as real == (size - fee) as real;
  }

  /** A run that begins with the lowest corner, at its own rate: below what its package pays, and asked for by nobody. */
  lemma UndercutStart(g: Graph, x: Id, a: Id, b: Id, c: Id) returns (g': Graph, limits: Limits, trace: seq<Choice>)
    requires Acyclic(g) && Lowest(Ancestry(g), x, a, b, c)
    ensures SameShape(g, g') && UnlimitedRun(g', limits, trace) && Undercut(g', PicksOf(trace), 0)
  {
    var anc := Ancestry(g);
    hide *;
    AncestryIsDag(g);
    var n := CountOf(anc, x, a, b, c);
    g', limits := Repriced(g, x, a, b, c, n), Limits(1, None, None);
    RepricedIs(g, anc, x, a, b, c, n);
    SameAncestry(g, g');
    NothingPicked(g', anc, 1, OwnRates(g'));
    forall y | y in g' ensures var s := FreshTotals(g', anc, 1, y, {}).score; if y == x then s > 1.0 else s <= 1.0 {
      RepricedBest(g, anc, x, a, b, c, n, y);
    }
    RepricedPackages(g, anc, x, a, b, c, n, x);
    assert x !in Gone([]);
    var p := SomePick(g', anc, 1, OwnRates(g'), [], x);
    Extended(g', anc, 1, OwnRates(g'), [], p);
    assert [] + [p] == [p];
    PickIsPackage(g', anc, 1, OwnRates(g'), [], p);
    trace := [Took(p)];
    OnePick(p);
    StartIsGreedy(g', anc, limits, p, x);
    StartRate(g', anc, p, x);
    StartUndercut(g', p, n);
    IsUnlimitedRun(g', limits, trace);
  }

  lemma CountOf(anc: Links, x: Id, a: Id, b: Id, c: Id) returns (n: pos)
    requires Lowest(anc, x, a, b, c)
    ensures x in anc && n == |anc[x]|
  {
    assert a in anc[x];
    n := |anc[x]|;
  }

  lemma IsUnlimitedRun(g: Graph, limits: Limits, trace: seq<Choice>)
    requires NonNegativeFees(g, 1) && limits.maxBlocks <= 1 && Greedy(g, Ancestry(g), 1, limits, trace)
    requires ValidPicks(g, Ancestry(g), 1, OwnRates(g), PicksOf(trace))
    ensures UnlimitedRun(g, limits, trace)
  {
  }

  lemma OnePick(p: Pick)
    ensures PicksOf([Took(p)]) == [p]
  {
    TookOneMore(map[], [], p);
    assert [] + [Took(p)] == [Took(p)];
  }

  lemma StartIsGreedy(g: Graph, anc: Links, limits: Limits, p: Pick, x: Id)
    requires limits == Limits(1, None, None) && p.cluster != [] && Root(p) == x && x in g
    requires forall y :: y in g ==> var s := FreshTotals(g, anc, 1, y, {}).score; if y == x then s > 1.0 else s <= 1.0
    ensures Greedy(g, anc, 1, limits, [Took(p)])
  {
    var trace := [Took(p)];
    assert trace[..0] == [] && PicksOf([]) == [] && Gone([]) == {} && Aside(anc, []) == {};
    hide FreshTotals, Total, Gone, PicksOf, Aside;
    assert GreedyStep(g, anc, 1, limits, trace[..0], trace[0]);
  }

  lemma StartRate(g: Graph, anc: Links, p: Pick, x: Id)
    requires ValidPick(g, anc, 1, OwnRates(g), [], p) && Root(p) == x && x in g && g[x].fee == 1 && g[x].size == 1
    requires FreshTotals(g, anc, 1, x, {}).score > 1.0
    ensures p.rate == 1.0
  {
    assert Gone([]) == {} && OwnRates(g)[x] == 1.0;
    hide FreshTotals, ParentsFirst, Distinct, Package;
  }

  lemma StartUndercut(g: Graph, p: Pick, n: pos)
    requires p.rate == 1.0 && Total(Fees(g), Elements(p.cluster)) == 2 * n + 1 && Total(Sizes(g), Elements(p.cluster)) == 2 * n
    ensures Undercut(g, [p], 0)
  {
    hide Total, Outside;
  }

  /** For every fees and sizes a pool of this shape may have, no run without limits reports a package below what it pays,
      but for an input's sake, if and only if there is no diamond. */
  lemma NeverUndercutIff(g: Graph)
    requires Acyclic(g)
    ensures (forall g', limits, trace, k: nat :: SameShape(g, g') && UnlimitedRun(g', limits, trace) ==> !Undercut(g', PicksOf(trace), k))
       <==> NoDiamond(Ancestry(g))
  {
    hide SameShape, UnlimitedRun, Undercut, PicksOf, Acyclic, Ancestry, Diamond;
    if NoDiamond(Ancestry(g)) {
      forall g', limits, trace, k: nat | SameShape(g, g') && UnlimitedRun(g', limits, trace) ensures !Undercut(g', PicksOf(trace), k) {
        SameAncestry(g, g');
        NeverUndercut(g', limits, trace, k);
      }
    } else {
      var x, a, b, c :| Diamond(Ancestry(g), x, a, b, c);
      var z := FindLowest(Ancestry(g), x, a, b, c);
      var g', limits, trace := UndercutStart(g, z, a, b, c);
    }
  }
}
