/** Block templates of pools whose sizes are not rounded: whoever does not fit never will, and so no rate cap is ever
    broken, whatever the limits. */
module ExactSizes {
  import opened Collections
  import opened PackageGraph
  import opened Relatives
  import opened Selection
  import opened Packaging
  import opened MiniMiner
  import opened RateCaps

  /** Every size is exactly a quarter of the weight. */
  ghost predicate Exact(g: Graph) {
    forall x :: x in g ==> g[x].weight == 4 * g[x].size
  }

  lemma {:induction false} ExactTotals(g: Graph, s: set<Id>)
    requires Exact(g) && s <= g.Keys
    ensures Total(Weights(g), s) == 4 * Total(Sizes(g), s)
    decreases s
  {
    if s != {} {
      var x := AnyOf(s);
      TotalSplit(Weights(g), s, x);
      TotalSplit(Sizes(g), s, x);
      ExactTotals(g, s - {x});
    }
  }

  /** If it did not fit before a package was taken, it does not fit afterwards. */
  lemma StillTooBig(g: Graph, anc: Links, unit: nat, limits: Limits, before: seq<Pick>, p: Pick, c: Id)
    requires Dag(g, anc) && Exact(g) && c in g && Gone(before) <= g.Keys
    requires Elements(p.cluster) <= g.Keys && Elements(p.cluster) !! Gone(before) && c !in Elements(p.cluster)
    requires !FitsAt(g, anc, unit, limits, before, c)
    ensures !FitsAt(g, anc, unit, limits, before + [p], c)
  {
    var gone, taken := Gone(before), Elements(p.cluster);
    var q, q' := Package(anc, c, gone), Package(anc, c, gone + taken);
    assert (before + [p])[..|before|] == before;
    assert Gone(before + [p]) == gone + taken;
    assert q' == q - taken && q <= g.Keys;
    hide Gone, Package, Dag, Exact;
    ExactTotals(g, q);
    ExactTotals(g, q');
    RoomLost(Weights(g), q, q', gone, taken);
    RoomLost(Sigops(g), q, q', gone, taken);
    hide Total, Weights, Sigops, Sizes;
  }

  /** A package that fits has nobody inside it whose own package does not. */
  lemma NotInside(g: Graph, anc: Links, unit: nat, limits: Limits, before: seq<Pick>, root: Id, c: Id)
    requires Dag(g, anc) && root in g && FitsAt(g, anc, unit, limits, before, root) && !FitsAt(g, anc, unit, limits, before, c)
    ensures c !in Package(anc, root, Gone(before))
  {
    var gone := Gone(before);
    if c in Package(anc, root, gone) && c != root {
      assert anc[c] <= anc[root];
      assert Package(anc, c, gone) <= Package(anc, root, gone);
      TotalMonotone(Sizes(g), Package(anc, c, gone), Package(anc, root, gone));
      TotalMonotone(Sigops(g), Package(anc, c, gone), Package(anc, root, gone));
      hide Total, Package, Gone;
    }
  }

  // ---------- whoever was refused ----------

  ghost function Refusals(trace: seq<Choice>): set<Id> {
    if trace == [] then {} else
    Refusals(trace[..|trace| - 1]) + if trace[|trace| - 1].Refused? then {trace[|trace| - 1].root} else {}
  }

  lemma RefusalsStep(trace: seq<Choice>, c: Choice)
    ensures Refusals(trace + [c]) == Refusals(trace) + if c.Refused? then {c.root} else {}
  {
    assert (trace + [c])[..|trace|] == trace;
  }

  lemma {:induction false} AsideWasRefused(anc: Links, trace: seq<Choice>)
    ensures Aside(anc, trace) <= Refusals(trace)
  {
    if trace != [] {
      AsideWasRefused(anc, trace[..|trace| - 1]);
      hide Flagged, PicksOf;
    }
  }

  lemma {:induction false} RefusalsPrefix(trace: seq<Choice>, n: nat)
    requires n <= |trace|
    ensures Refusals(trace[..n]) <= Refusals(trace)
  {
    if n < |trace| {
      RefusalsPrefix(trace[..|trace| - 1], n);
      assert trace[..|trace| - 1][..n] == trace[..n];
    } else {
      assert trace[..n] == trace;
    }
  }

  lemma LastChoice(g: Graph, anc: Links, unit: nat, limits: Limits, trace: seq<Choice>)
    requires Greedy(g, anc, unit, limits, trace) && trace != []
    ensures var before, last := trace[..|trace| - 1], trace[|trace| - 1];
      && trace == before + [last] && Greedy(g, anc, unit, limits, before)
      && (last.Took? ==> last.pick.cluster != [] && Root(last.pick) in g && FitsAt(g, anc, unit, limits, PicksOf(before), Root(last.pick)))
      && (last.Refused? ==> last.root in g && last.root !in Gone(PicksOf(before)) && !FitsAt(g, anc, unit, limits, PicksOf(before), last.root))
  {
    hide BestOf, Exceeded, Aside, PicksOf, Gone, FitsAt, Greedy;
    var n := |trace| - 1;
    GreedyPrefix(g, anc, unit, limits, trace, n);
    StepAt(g, anc, unit, limits, trace, n);
  }

  lemma StepAt(g: Graph, anc: Links, unit: nat, limits: Limits, trace: seq<Choice>, n: nat)
    requires Greedy(g, anc, unit, limits, trace) && n < |trace|
    ensures GreedyStep(g, anc, unit, limits, trace[..n], trace[n])
  {
    hide GreedyStep;
  }

  lemma PickBefore(g: Graph, anc: Links, unit: nat, initial: map<Id, real>, before: seq<Choice>, p: Pick)
    requires Dag(g, anc) && ValidPicks(g, anc, unit, initial, PicksOf(before + [Took(p)]))
    ensures ValidPicks(g, anc, unit, initial, PicksOf(before)) && ValidPick(g, anc, unit, initial, PicksOf(before), p)
    ensures Gone(PicksOf(before)) <= g.Keys && PicksOf(before + [Took(p)]) == PicksOf(before) + [p]
  {
    TookOneMore(anc, before, p);
    var picks := PicksOf(before) + [p];
    assert picks[..|picks| - 1] == PicksOf(before);
    hide ValidPick;
    Prefix(g, anc, unit, initial, picks, |picks| - 1);
    TakenAncestors(g, anc, unit, initial, PicksOf(before));
  }

  /** Whoever was refused is not taken, and does not fit now either. */
  lemma {:induction false} NeverFits(g: Graph, anc: Links, unit: nat, initial: map<Id, real>, limits: Limits, trace: seq<Choice>, c: Id)
    requires Dag(g, anc) && Exact(g) && ValidPicks(g, anc, unit, initial, PicksOf(trace)) && Greedy(g, anc, unit, limits, trace)
    requires c in Refusals(trace)
    ensures c in g && c !in Gone(PicksOf(trace)) && !FitsAt(g, anc, unit, limits, PicksOf(trace), c)
  {
    assert trace != [];
    hide *;
    LastChoice(g, anc, unit, limits, trace);
    var n := |trace| - 1;
    var before := trace[..n];
    RefusalsStep(before, trace[n]);
    match trace[n]
    case Took(p) =>
      PickBefore(g, anc, unit, initial, before, p);
      NeverFits(g, anc, unit, initial, limits, before, c);
      NotInside(g, anc, unit, limits, PicksOf(before), Root(p), c);
      PickIsPackage(g, anc, unit, initial, PicksOf(before), p);
      PickInPool(g, anc, unit, initial, PicksOf(before), p);
      StillTooBig(g, anc, unit, limits, PicksOf(before), p, c);
      GoneWith(PicksOf(before), p);
    case Refused(x) =>
      RefusedOneMore(anc, before, x);
      if c != x { NeverFits(g, anc, unit, initial, limits, before, c); }
  }

  lemma GoneWith(picks: seq<Pick>, p: Pick)
    ensures Gone(picks + [p]) == Gone(picks) + Elements(p.cluster)
  {
    assert (picks + [p])[..|picks|] == picks;
  }

  // ---------- the caps ----------

  /** Where a pick stands in the record. */
  lemma {:induction false} ChoiceOf(trace: seq<Choice>, k: nat) returns (t: nat)
    requires k < |PicksOf(trace)|
    ensures t < |trace| && trace[t] == Took(PicksOf(trace)[k]) && PicksOf(trace[..t]) == PicksOf(trace)[..k]
  {
    var n := |trace| - 1;
    if k < |PicksOf(trace[..n])| {
      t := ChoiceOf(trace[..n], k);
      assert trace[..n][..t] == trace[..t];
      PicksPrefix(trace, n);
    } else {
      t := n;
    }
  }

  lemma MorePicks(trace: seq<Choice>, s: nat, t: nat)
    requires s <= t <= |trace|
    ensures |PicksOf(trace[..s])| <= |PicksOf(trace[..t])| && trace[..t][..s] == trace[..s]
  {
    PicksPrefix(trace[..t], s);
    assert trace[..t][..s] == trace[..s];
  }

  lemma Earlier(trace: seq<Choice>, s: nat, t: nat)
    requires s <= |trace| && t <= |trace| && |PicksOf(trace[..s])| < |PicksOf(trace[..t])|
    ensures s < t && trace[..t][..s] == trace[..s]
  {
    if t <= s {
      MorePicks(trace, t, s);
      assert false;
    }
  }

  /** The choice behind a pick. */
  lemma Chosen(g: Graph, anc: Links, unit: nat, limits: Limits, trace: seq<Choice>, t: nat, p: Pick)
    requires Greedy(g, anc, unit, limits, trace) && t < |trace| && trace[t] == Took(p)
    ensures p.cluster != [] && Root(p) in g && FitsAt(g, anc, unit, limits, PicksOf(trace[..t]), Root(p))
    ensures BestOf(g, anc, unit, Gone(PicksOf(trace[..t])), Aside(anc, trace[..t]), Root(p))
  {
    hide BestOf, Exceeded, Aside, PicksOf, Gone, FitsAt, Greedy;
    StepAt(g, anc, unit, limits, trace, t);
  }

  /** Once a package that pays nothing is taken, nothing that is taken later pays. */
  lemma NothingPaysAfterFree(g: Graph, anc: Links, unit: nat, initial: map<Id, real>, limits: Limits, trace: seq<Choice>, j: nat, k: nat)
    requires NonNegativeFees(g, unit) && Dag(g, anc) && Exact(g)
    requires ValidPicks(g, anc, unit, initial, PicksOf(trace)) && Greedy(g, anc, unit, limits, trace)
    requires j < k < |PicksOf(trace)| && Total(Fees(g), Elements(PicksOf(trace)[j].cluster)) == 0
    ensures Total(Fees(g), Elements(PicksOf(trace)[k].cluster)) == 0
  {
    hide *;
    var picks := PicksOf(trace);
    var s := ChoiceOf(trace, j);
    var t := ChoiceOf(trace, k);
    Earlier(trace, s, t);
    Chosen(g, anc, unit, limits, trace, s, picks[j]);
    Chosen(g, anc, unit, limits, trace, t, picks[k]);
    PickAt(g, anc, unit, initial, picks, j);
    PickAt(g, anc, unit, initial, picks, k);
    var x := Root(picks[k]);
    if x in Aside(anc, trace[..s]) {
      AsideWasRefused(anc, trace[..s]);
      RefusalsPrefix(trace[..t], s);
      GreedyPrefix(g, anc, unit, limits, trace, t);
      Prefix(g, anc, unit, initial, picks, k);
      NeverFits(g, anc, unit, initial, limits, trace[..t], x);
      assert false;
    } else {
      GoneMonotone(picks[..k], j);
      assert picks[..k][..j] == picks[..j];
      NoBetter(g, anc, unit, Gone(picks[..j]), Aside(anc, trace[..s]), Root(picks[j]), x);
      ScoreSign(g, anc, unit, Root(picks[j]), Gone(picks[..j]));
      ScoreSign(g, anc, unit, x, Gone(picks[..j]));
      FewerPay(g, anc, unit, x, Gone(picks[..j]), Gone(picks[..k]));
    }
  }

  lemma NoBetter(g: Graph, anc: Links, unit: nat, gone: set<Id>, aside: set<Id>, best: Id, x: Id)
    requires BestOf(g, anc, unit, gone, aside, best) && x in g && x !in gone && x !in aside
    ensures FreshTotals(g, anc, unit, x, gone).score <= FreshTotals(g, anc, unit, best, gone).score
  {
  }

  lemma PickAt(g: Graph, anc: Links, unit: nat, initial: map<Id, real>, picks: seq<Pick>, k: nat)
    requires ValidPicks(g, anc, unit, initial, picks) && k < |picks|
    ensures picks[k].cluster != [] && Root(picks[k]) in g && Root(picks[k]) !in Gone(picks[..k])
    ensures Elements(picks[k].cluster) == Package(anc, Root(picks[k]), Gone(picks[..k]))
  {
    assert ValidPick(g, anc, unit, initial, picks[..k], picks[k]);
  }

  /** Without rounding, a template under any limits respects all rate caps. */
  lemma ExactlyCapped(g: Graph, anc: Links, limits: Limits, trace: seq<Choice>)
    requires NonNegativeFees(g, 1) && Dag(g, anc) && Exact(g)
    requires ValidPicks(g, anc, 1, OwnRates(g), PicksOf(trace)) && Greedy(g, anc, 1, limits, trace)
    ensures CapsHold(anc, PicksOf(trace))
  {
    OwnRatesSign(g);
    hide *;
    CapsIffNoFreePackage(g, anc, 1, OwnRates(g), PicksOf(trace));
    forall j: nat, k: nat ensures !PaysAfterFree(g, anc, PicksOf(trace), j, k) {
      if PaysAfterFree(g, anc, PicksOf(trace), j, k) {
        PaysAfterFreeParts(g, anc, PicksOf(trace), j, k);
        NothingPaysAfterFree(g, anc, 1, OwnRates(g), limits, trace, j, k);
      }
    }
  }
}
