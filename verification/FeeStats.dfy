/** Average fee rates at weight percentiles, computed in a single pass. */
module FeeStats {
  import opened Collections

  /** A transaction's weight and the rates it may carry; a rate of 0 counts as absent. */
  datatype Tx = Tx(weight: real, rate: Option<real>, effectiveFeePerVsize: Option<real>, feePerVsize: Option<real>)

  datatype Band = Band(left: real, right: real)

  /** What a band has gathered. "min" is None for Infinity. */
  datatype Totals = Totals(fee: real, weight: real, min: Option<real>, max: real)

  datatype Entry = Entry(avg: real, min: Option<real>, max: real)

  datatype Stats = Stats(minFee: Option<real>, medianFee: real, maxFee: real, feeRange: seq<real>)

  function Or(x: Option<real>, y: real): real {
    if x.Some? && x.value != 0.0 then x.value else y
  }

  /** Absent, or 0. */
  ghost predicate Missing(x: Option<real>) {
    x == None || x == Some(0.0)
  }

  /** The rate of a transaction: "rate" first, then "effectiveFeePerVsize", then "feePerVsize", of those that are not missing. */
  function TxRate(tx: Tx): (r: real)
    ensures !Missing(tx.rate) ==> tx.rate == Some(r)
    ensures Missing(tx.rate) && !Missing(tx.effectiveFeePerVsize) ==> tx.effectiveFeePerVsize == Some(r)
    ensures Missing(tx.rate) && Missing(tx.effectiveFeePerVsize) && !Missing(tx.feePerVsize) ==> tx.feePerVsize == Some(r)
    ensures Missing(tx.rate) && Missing(tx.effectiveFeePerVsize) && Missing(tx.feePerVsize) ==> r == 0.0
  {
    Or(tx.rate, Or(tx.effectiveFeePerVsize, Or(tx.feePerVsize, 0.0)))
  }

  function Min(x: real, y: real): real {
    if x <= y then x else y
  }

  function Max(x: real, y: real): real {
    if x >= y then x else y
  }

  // ---------- the specification: each band on its own ----------

  ghost function Weight(txs: seq<Tx>): real {
    if txs == [] then 0.0 else Weight(txs[..|txs| - 1]) + txs[|txs| - 1].weight
  }

  /** How much of the stretch from "from" to "to" lies in the band. */
  ghost function Overlap(from: real, to: real, b: Band): real {
    Max(0.0, Min(to, b.right) - Max(from, b.left))
  }

  /** The fee of a stretch of the given weight. */
  function FeeFor(rate: real, weight: real): real {
    rate * weight
  }

  const NOTHING := Totals(0.0, 0.0, None, 0.0)

  ghost function Add(t: Totals, rate: real, w: real): Totals {
    if w > 0.0 then Totals(t.fee + FeeFor(rate, w), t.weight + w, Some(if t.min.None? then rate else Min(t.min.value, rate)), Max(t.max, rate)) else t
  }

  /** Every transaction counts with the part of it that lies in the band. */
  ghost function TotalsOf(txs: seq<Tx>, b: Band): Totals {
    if txs == [] then NOTHING else
    var before, tx := txs[..|txs| - 1], txs[|txs| - 1];
    Add(TotalsOf(before, b), TxRate(tx), Overlap(Weight(before), Weight(txs), b))
  }

  function EntryOf(t: Totals): Entry {
    Entry(if t.weight != 0.0 then t.fee / t.weight else 0.0, t.min, t.max)
  }

  /** What is reported for a band: zeros if no transaction reaches into it. */
  ghost function Report(t: Totals): Entry {
    if t.weight > 0.0 then EntryOf(t) else Entry(0.0, Some(0.0), 0.0)
  }

  ghost predicate Weighted(txs: seq<Tx>) {
    forall i :: 0 <= i < |txs| ==> txs[i].weight >= 0.0
  }

  lemma {:induction false} WeightNonNegative(txs: seq<Tx>)
    requires Weighted(txs)
    ensures Weight(txs) >= 0.0
  {
    if txs != [] { WeightNonNegative(txs[..|txs| - 1]); }
  }

  lemma OverlapAdds(a: real, b: real, c: real, band: Band)
    requires a <= b <= c && band.left <= band.right
    ensures Overlap(a, b, band) + Overlap(b, c, band) == Overlap(a, c, band) && Overlap(a, b, band) >= 0.0
  {
  }

  lemma AddTwice(t: Totals, rate: real, v: real, w: real)
    requires v >= 0.0 && w >= 0.0
    ensures Add(Add(t, rate, v), rate, w) == Add(t, rate, v + w)
  {
    Distribute(rate, v, w);
  }

  /** A band gathers exactly the weight of its part that the transactions cover. */
  lemma {:induction false} CoveredWeight(txs: seq<Tx>, b: Band)
    requires Weighted(txs) && 0.0 <= b.left <= b.right
    ensures TotalsOf(txs, b).weight == Overlap(0.0, Weight(txs), b)
  {
    if txs != [] {
      var before := txs[..|txs| - 1];
      CoveredWeight(before, b);
      WeightNonNegative(before);
      OverlapAdds(0.0, Weight(before), Weight(txs), b);
    }
  }

  /** The minimum and the maximum bound the sum, hence the average. */
  ghost predicate Between(t: Totals) {
    && t.weight >= 0.0 && (t.weight > 0.0 <==> t.min.Some?) && (t.weight == 0.0 ==> t == NOTHING)
    && (t.min.Some? ==> t.min.value * t.weight <= t.fee <= t.max * t.weight)
  }

  lemma {:induction false} SumBetween(txs: seq<Tx>, b: Band)
    ensures Between(TotalsOf(txs, b))
  {
    hide Overlap, TxRate, Between, Add;
    if txs == [] {
      NothingBetween();
    } else {
      var before, tx := txs[..|txs| - 1], txs[|txs| - 1];
      SumBetween(before, b);
      AddBetween(TotalsOf(before, b), TxRate(tx), Overlap(Weight(before), Weight(txs), b));
    }
  }

  lemma NothingBetween()
    ensures Between(NOTHING)
  {
  }

  lemma AddBetween(t: Totals, rate: real, w: real)
    requires Between(t)
    ensures Between(Add(t, rate, w))
  {
    if w > 0.0 {
      if t.min.Some? {
        BoundsSum(Min(t.min.value, rate), t.min.value, t.weight, t.fee, rate, w);
        BoundedSum(Max(t.max, rate), t.max, t.weight, t.fee, rate, w);
      } else {
        Scale(rate, Max(0.0, rate), w);
      }
    }
  }

  lemma BoundsSum(lo: real, min: real, weight: real, fee: real, rate: real, w: real)
    requires lo <= min && lo <= rate && weight >= 0.0 && w >= 0.0 && min * weight <= fee
    ensures lo * (weight + w) <= fee + rate * w
  {
    Scale(lo, min, weight);
    Scale(lo, rate, w);
    Distribute(lo, weight, w);
  }

  lemma BoundedSum(hi: real, max: real, weight: real, fee: real, rate: real, w: real)
    requires max <= hi && rate <= hi && weight >= 0.0 && w >= 0.0 && fee <= max * weight
    ensures fee + rate * w <= hi * (weight + w)
  {
    Scale(max, hi, weight);
    Scale(rate, hi, w);
    Distribute(hi, weight, w);
  }

  lemma Scale(x: real, y: real, w: real)
    requires x <= y && w >= 0.0
    ensures x * w <= y * w
  {
  }

  lemma Distribute(x: real, v: real, w: real)
    ensures x * (v + w) == x * v + x * w
  {
  }

  /** The reported average lies between the reported minimum and maximum. */
  lemma AverageBetween(txs: seq<Tx>, b: Band)
    ensures var r := Report(TotalsOf(txs, b)); r.min.Some? && r.min.value <= r.avg <= r.max
  {
    SumBetween(txs, b);
    ReportBetween(TotalsOf(txs, b));
    hide Between, TotalsOf, Report;
  }

  lemma ReportBetween(t: Totals)
    requires Between(t)
    ensures Report(t).min.Some? && Report(t).min.value <= Report(t).avg <= Report(t).max
  {
    if t.weight > 0.0 {
      Quotient(t.min.value, t.fee, t.weight);
      Quotient(t.max, t.fee, t.weight);
    }
  }

  lemma Quotient(x: real, fee: real, w: real)
    requires w > 0.0
    ensures x * w <= fee ==> x <= fee / w
    ensures x * w >= fee ==> x >= fee / w
  {
    var q := fee / w;
    assert q * w == fee;
    if x > q { assert (x - q) * w > 0.0; }
    if x < q { assert (q - x) * w > 0.0; }
  }

  /** A band that is wholly covered is averaged over its width. */
  lemma WholeBand(txs: seq<Tx>, b: Band)
    requires Weighted(txs) && 0.0 <= b.left < b.right <= Weight(txs)
    ensures TotalsOf(txs, b).weight == b.right - b.left
    ensures Report(TotalsOf(txs, b)).avg == TotalsOf(txs, b).fee / (b.right - b.left)
  {
    CoveredWeight(txs, b);
  }

  // ---------- fees in descending order ----------

  ghost predicate Touches(txs: seq<Tx>, i: int, b: Band) {
    0 <= i < |txs| && Overlap(Weight(txs[..i]), Weight(txs[..i + 1]), b) > 0.0
  }

  lemma TouchesPrefix(txs: seq<Tx>, i: int, b: Band)
    requires 0 <= i < |txs| - 1
    ensures Touches(txs[..|txs| - 1], i, b) == Touches(txs, i, b)
  {
    assert txs[..|txs| - 1][..i] == txs[..i] && txs[..|txs| - 1][..i + 1] == txs[..i + 1];
  }

  /** The minimum is the rate of some transaction in the band, and the maximum is too, or 0. */
  lemma {:induction false} Attained(txs: seq<Tx>, b: Band) returns (lo: int, hi: int)
    requires TotalsOf(txs, b).weight > 0.0
    ensures Touches(txs, lo, b) && TotalsOf(txs, b).min == Some(TxRate(txs[lo]))
    ensures (Touches(txs, hi, b) && TotalsOf(txs, b).max == TxRate(txs[hi])) || TotalsOf(txs, b).max == 0.0
    ensures Report(TotalsOf(txs, b)).min == TotalsOf(txs, b).min && Report(TotalsOf(txs, b)).max == TotalsOf(txs, b).max
  {
    var n := |txs| - 1;
    var before, t, rate := txs[..n], TotalsOf(txs[..n], b), TxRate(txs[n]);
    SumBetween(before, b);
    assert txs[..n + 1] == txs;
    assert TotalsOf(txs, b) == Add(t, rate, Overlap(Weight(before), Weight(txs), b));
    lo, hi := n, n;
    if t.weight > 0.0 {
      var lo', hi' := Attained(before, b);
      TouchesPrefix(txs, lo', b);
      if 0 <= hi' < n { TouchesPrefix(txs, hi', b); }
      if Overlap(Weight(before), Weight(txs), b) <= 0.0 || t.min.value <= rate { lo := lo'; }
      if Overlap(Weight(before), Weight(txs), b) <= 0.0 || t.max >= rate { hi := hi'; }
    }
    hide TotalsOf, TxRate, Overlap;
  }

  /** They bound the rates of all transactions in the band. */
  lemma {:induction false} Bounds(txs: seq<Tx>, b: Band, i: int)
    requires Touches(txs, i, b)
    ensures TotalsOf(txs, b).weight > 0.0
    ensures var r := Report(TotalsOf(txs, b)); r.min.Some? && r.min.value <= TxRate(txs[i]) <= r.max
  {
    var n := |txs| - 1;
    var before, t := txs[..n], TotalsOf(txs[..n], b);
    SumBetween(before, b);
    assert txs[..n + 1] == txs;
    if i < n {
      TouchesPrefix(txs, i, b);
      Bounds(before, b, i);
    }
    hide TotalsOf, TxRate, Overlap, FeeFor;
    assert TotalsOf(txs, b) == Add(t, TxRate(txs[n]), Overlap(Weight(before), Weight(txs), b)) by { TotalsMore(txs, b); }
  }

  lemma TotalsMore(txs: seq<Tx>, b: Band)
    requires txs != []
    ensures var n := |txs| - 1;
      TotalsOf(txs, b) == Add(TotalsOf(txs[..n], b), TxRate(txs[n]), Overlap(Weight(txs[..n]), Weight(txs), b))
  {
  }

  lemma {:induction false} WeightGrows(txs: seq<Tx>, i: int, j: int)
    requires Weighted(txs) && 0 <= i <= j <= |txs|
    ensures Weight(txs[..i]) <= Weight(txs[..j])
    decreases j - i
  {
    if i < j {
      WeightGrows(txs, i, j - 1);
      assert txs[..j][..j - 1] == txs[..j - 1];
    }
  }

  /** Transactions in an earlier band come no later than those in a later one. */
  lemma TouchOrder(txs: seq<Tx>, i: int, j: int, b: Band, c: Band)
    requires Weighted(txs) && Touches(txs, i, b) && Touches(txs, j, c) && b.right <= c.left
    ensures i <= j
  {
    if i > j {
      WeightGrows(txs, j + 1, i);
    }
  }

  /** When the transactions come in descending order of rate, an earlier band averages no less than a later one. */
  lemma DescendingAverages(txs: seq<Tx>, b: Band, c: Band)
    requires Weighted(txs) && b.right <= c.left && TotalsOf(txs, b).weight > 0.0
    requires forall i, j :: 0 <= i < j < |txs| ==> TxRate(txs[i]) >= TxRate(txs[j]) >= 0.0
    requires |txs| == 1 ==> TxRate(txs[0]) >= 0.0
    ensures Report(TotalsOf(txs, b)).avg >= Report(TotalsOf(txs, c)).avg
  {
    AverageBetween(txs, b);
    AverageBetween(txs, c);
    var lo, _ := Attained(txs, b);
    assert TxRate(txs[lo]) >= 0.0;
    if TotalsOf(txs, c).weight > 0.0 {
      var _, hi := Attained(txs, c);
      if TotalsOf(txs, c).max != 0.0 {
        TouchOrder(txs, lo, hi, b, c);
      }
    }
    hide TotalsOf, TxRate, Overlap;
  }

  // ---------- the bands ----------

  /** The weight at a percentage of the range. */
  function Share(p: real, maxWeight: real): real {
    p / 100.0 * maxWeight
  }

  function BandAt(percentiles: seq<real>, maxWeight: real, bandWidth: real, k: int): Band
    requires 0 <= k < |percentiles|
  {
    var left := Share(percentiles[k], maxWeight) - bandWidth / 2.0;
    Band(left, left + bandWidth)
  }

  ghost function Bands(percentiles: seq<real>, maxWeight: real, bandWidth: real): (r: seq<Band>)
    ensures |r| == |percentiles|
  {
    seq(|percentiles|, k requires 0 <= k < |percentiles| => BandAt(percentiles, maxWeight, bandWidth, k))
  }

  /** The bands are not empty, do not overlap, and come in order. */
  ghost predicate Spaced(bands: seq<Band>) {
    && (forall k :: 0 <= k < |bands| ==> 0.0 <= bands[k].left < bands[k].right)
    && forall j, k :: 0 <= j < k < |bands| ==> bands[j].right <= bands[k].left
  }

  /** Each band ends after the one before. */
  ghost predicate Rising(bands: seq<Band>) {
    && (forall k :: 0 <= k < |bands| ==> bands[k].left < bands[k].right && 0.0 < bands[k].right)
    && forall j, k :: 0 <= j < k < |bands| ==> bands[j].right < bands[k].right
  }

  ghost function End(bands: seq<Band>, k: int): real
    requires k <= |bands|
  {
    if k <= 0 then 0.0 else bands[k - 1].right
  }

  /** A band that overlaps the one before only gets what is left: it starts where that one ends. */
  ghost function Trimmed(bands: seq<Band>): (r: seq<Band>)
    ensures |r| == |bands|
  {
    seq(|bands|, k requires 0 <= k < |bands| => Band(Max(bands[k].left, End(bands, k)), bands[k].right))
  }

  lemma TrimmedBand(bands: seq<Band>, k: int)
    requires Rising(bands) && 0 <= k < |bands|
    ensures var b := Trimmed(bands)[k]; 0.0 <= b.left < b.right == bands[k].right && End(bands, k) <= b.left
  {
    assert k > 0 ==> 0.0 < bands[k - 1].right < bands[k].right;
  }

  lemma TrimmedSpaced(bands: seq<Band>)
    requires Rising(bands)
    ensures Spaced(Trimmed(bands))
  {
    hide *;
    var r := Trimmed(bands);
    forall k | 0 <= k < |r| ensures 0.0 <= r[k].left < r[k].right {
      TrimmedBand(bands, k);
    }
    forall j, k | 0 <= j < k < |r| ensures r[j].right <= r[k].left {
      TrimmedBand(bands, j);
      TrimmedBand(bands, k);
      Ends(bands, j, k);
    }
    SpacedIs(r);
  }

  lemma Ends(bands: seq<Band>, j: int, k: int)
    requires Rising(bands) && 0 <= j < k < |bands|
    ensures bands[j].right <= End(bands, k)
  {
    assert j < k - 1 ==> bands[j].right < bands[k - 1].right;
  }

  lemma SpacedIs(bands: seq<Band>)
    requires forall k :: 0 <= k < |bands| ==> 0.0 <= bands[k].left < bands[k].right
    requires forall j, k :: 0 <= j < k < |bands| ==> bands[j].right <= bands[k].left
    ensures Spaced(bands)
  {
  }

  /** Bands that do not overlap stay as they are. */
  lemma TrimmedSame(bands: seq<Band>)
    requires Spaced(bands)
    ensures Trimmed(bands) == bands
  {
    forall k | 0 <= k < |bands| ensures Trimmed(bands)[k] == bands[k] {
      assert k > 0 ==> bands[k - 1].right <= bands[k].left;
    }
  }

  /** The given percentiles, with one aligned to each end of the range. */
  function WithEnds(percentiles: seq<real>, widthPercent: real): seq<real> {
    [widthPercent / 2.0] + percentiles + [100.0 - widthPercent / 2.0]
  }

  const DEFAULT_WIDTH := 2.0
  const DEFAULT_PERCENTILES := [10.0, 25.0, 50.0, 75.0, 90.0]

  /** The band width in percent, and the percentiles, that the arguments of the constructor select. */
  function WidthPercent(given: Option<real>): real {
    if given.Some? then given.value else DEFAULT_WIDTH
  }

  function Percentiles(given: seq<real>): seq<real> {
    if given != [] then given else DEFAULT_PERCENTILES
  }

  ghost function BandsFor(maxWeight: real, width: Option<real>, given: seq<real>): seq<Band> {
    Bands(WithEnds(Percentiles(given), WidthPercent(width)), maxWeight, WidthOf(maxWeight, WidthPercent(width)))
  }

  /** Where the bands are: one for each percentile and one at either end of the range, all of the same width; the outer
      ones are aligned to the ends, and the others have their percentile in the middle. */
  lemma BandsPlaced(maxWeight: real, width: Option<real>, given: seq<real>, k: int)
    requires 0 <= k < |BandsFor(maxWeight, width, given)|
    ensures var bands, ps, w := BandsFor(maxWeight, width, given), (if given == [] then [10.0, 25.0, 50.0, 75.0, 90.0] else given),
                                if width == None then 2.0 else width.value;
      && |bands| == |ps| + 2 && bands[k].right - bands[k].left == maxWeight * (w / 100.0)
      && bands[0].left == 0.0 && bands[|ps| + 1].right == maxWeight
      && (0 < k <= |ps| ==> bands[k].left + bands[k].right == 2.0 * (ps[k - 1] / 100.0 * maxWeight))
  {
    var ps := WithEnds(Percentiles(given), WidthPercent(width));
    assert BandsFor(maxWeight, width, given)[k] == BandAt(ps, maxWeight, WidthOf(maxWeight, WidthPercent(width)), k);
  }

  function WidthOf(maxWeight: real, widthPercent: real): real {
    maxWeight * (widthPercent / 100.0)
  }

  /** The arguments make sense: a range and a width that are not empty, and percentiles in ascending order
      between the ends. Their bands may overlap. */
  ghost predicate Ascending(maxWeight: real, width: Option<real>, given: seq<real>) {
    var ps := WithEnds(Percentiles(given), WidthPercent(width));
    maxWeight > 0.0 && WidthPercent(width) > 0.0 && forall j, k :: 0 <= j < k < |ps| ==> ps[j] < ps[k]
  }

  lemma AscendingRises(maxWeight: real, width: Option<real>, given: seq<real>)
    requires Ascending(maxWeight, width, given)
    ensures Rising(BandsFor(maxWeight, width, given))
  {
    var ps, bands := WithEnds(Percentiles(given), WidthPercent(width)), BandsFor(maxWeight, width, given);
    var w := WidthOf(maxWeight, WidthPercent(width));
    assert w > 0.0;
    forall k | 0 <= k < |bands| ensures bands[k] == BandAt(ps, maxWeight, w, k) && 0.0 < bands[k].right {
      assert ps[0] > 0.0 && (k > 0 ==> ps[0] < ps[k]);
      SharesOrdered(0.0, ps[k], maxWeight);
    }
    forall j, k | 0 <= j < k < |bands| ensures bands[j].right < bands[k].right {
      SharesOrdered(ps[j], ps[k], maxWeight);
    }
  }

  lemma SharesOrdered(p: real, q: real, maxWeight: real)
    requires p <= q && maxWeight > 0.0
    ensures Share(p, maxWeight) <= Share(q, maxWeight) && (p < q ==> Share(p, maxWeight) < Share(q, maxWeight)) && Share(0.0, maxWeight) == 0.0
  {
    if p < q {
      assert (q / 100.0 - p / 100.0) * maxWeight > 0.0;
    }
  }

  // ---------- the single pass ----------

  datatype State = State(bandIndex: int, inBand: bool, band: Totals, feeRange: seq<Entry>, totalWeight: real)

  ghost function BandTotals(bands: seq<Band>, txs: seq<Tx>, k: int): Totals {
    if 0 <= k < |bands| then TotalsOf(txs, bands[k]) else NOTHING
  }

  /** After the transactions "txs": the bands before bandIndex are closed, and its own is as far as they reach. */
  ghost predicate Tracking(bands: seq<Band>, txs: seq<Tx>, s: State) {
    && s.totalWeight == Weight(txs) && Progress(bands, s, Weight(txs))
    && s.band == BandTotals(bands, txs, s.bandIndex)
    && forall j :: 0 <= j < s.bandIndex ==> s.feeRange[j] == EntryOf(BandTotals(bands, txs, s.bandIndex - 1 - j))
  }

  ghost predicate Progress(bands: seq<Band>, s: State, left: real) {
    && 0 <= s.bandIndex <= |bands| && |s.feeRange| == s.bandIndex
    && (forall k :: 0 <= k < s.bandIndex ==> bands[k].right <= left)
    && (s.bandIndex < |bands| ==> left < bands[s.bandIndex].right)
    && (s.inBand <==> s.bandIndex < |bands| && left > bands[s.bandIndex].left)
  }

  /** The totals of a band once the transaction after "txs" has been followed from "start" to "left". */
  ghost function Followed(bands: seq<Band>, txs: seq<Tx>, rate: real, start: real, left: real, k: int): Totals {
    if 0 <= k < |bands| then Add(TotalsOf(txs, bands[k]), rate, Overlap(start, left, bands[k])) else NOTHING
  }

  ghost predicate Following(bands: seq<Band>, txs: seq<Tx>, rate: real, start: real, right: real, s: State, left: real) {
    && start <= left <= right && s.totalWeight == start == Weight(txs) && Progress(bands, s, left)
    && s.band == Followed(bands, txs, rate, start, left, s.bandIndex)
    && forall j :: 0 <= j < s.bandIndex ==> s.feeRange[j] == EntryOf(Followed(bands, txs, rate, start, right, s.bandIndex - 1 - j))
  }

  /** Beyond its right end, or before its left one, a band gathers nothing. */
  lemma NoOverlap(bands: seq<Band>, txs: seq<Tx>, rate: real, start: real, x: real, y: real, k: int)
    requires Spaced(bands) && start <= x <= y
    requires 0 <= k < |bands| ==> bands[k].right <= x || y <= bands[k].left || x == y
    ensures Followed(bands, txs, rate, start, x, k) == Followed(bands, txs, rate, start, y, k)
  {
  }

  lemma NothingFollowed(bands: seq<Band>, txs: seq<Tx>, rate: real, start: real, k: int)
    requires Spaced(bands)
    ensures Followed(bands, txs, rate, start, start, k) == BandTotals(bands, txs, k)
  {
  }

  lemma FollowingStarts(bands: seq<Band>, txs: seq<Tx>, rate: real, right: real, s: State)
    requires Spaced(bands) && Tracking(bands, txs, s) && Weight(txs) <= right
    ensures Following(bands, txs, rate, Weight(txs), right, s, Weight(txs))
  {
    var start := Weight(txs);
    NothingFollowed(bands, txs, rate, start, s.bandIndex);
    forall j | 0 <= j < s.bandIndex ensures s.feeRange[j] == EntryOf(Followed(bands, txs, rate, start, right, s.bandIndex - 1 - j)) {
      var k := s.bandIndex - 1 - j;
      NothingFollowed(bands, txs, rate, start, k);
      NoOverlap(bands, txs, rate, start, start, right, k);
    }
    hide BandTotals, Followed, EntryOf;
  }

  lemma FollowingEnds(bands: seq<Band>, txs: seq<Tx>, tx: Tx, s: State)
    requires Spaced(bands) && Following(bands, txs, TxRate(tx), Weight(txs), Weight(txs) + tx.weight, s, Weight(txs) + tx.weight)
    ensures Tracking(bands, txs + [tx], s.(totalWeight := Weight(txs) + tx.weight))
  {
    hide *;
    var start, right, after := Weight(txs), Weight(txs) + tx.weight, txs + [tx];
    FollowingParts(bands, txs, TxRate(tx), start, right, s, right);
    WeightStep(txs, tx);
    FollowedAll(bands, txs, tx, s.bandIndex);
    forall j | 0 <= j < s.bandIndex ensures s.feeRange[j] == EntryOf(BandTotals(bands, after, s.bandIndex - 1 - j)) {
      FollowedAll(bands, txs, tx, s.bandIndex - 1 - j);
    }
    WeightAside(bands, s, right, right);
    TrackingWhole(bands, after, s.(totalWeight := right));
  }

  lemma WeightAside(bands: seq<Band>, s: State, w: real, left: real)
    ensures Progress(bands, s.(totalWeight := w), left) == Progress(bands, s, left)
  {
  }

  lemma WeightStep(txs: seq<Tx>, tx: Tx)
    ensures Weight(txs + [tx]) == Weight(txs) + tx.weight
  {
    assert (txs + [tx])[..|txs|] == txs;
  }

  lemma TrackingWhole(bands: seq<Band>, txs: seq<Tx>, s: State)
    requires s.totalWeight == Weight(txs) && Progress(bands, s, Weight(txs)) && 0 <= s.bandIndex && |s.feeRange| == s.bandIndex
    requires s.band == BandTotals(bands, txs, s.bandIndex)
    requires forall j :: 0 <= j < s.bandIndex ==> s.feeRange[j] == EntryOf(BandTotals(bands, txs, s.bandIndex - 1 - j))
    ensures Tracking(bands, txs, s)
  {
    hide BandTotals, EntryOf, Weight;
  }

  lemma FollowedAll(bands: seq<Band>, txs: seq<Tx>, tx: Tx, k: int)
    ensures Followed(bands, txs, TxRate(tx), Weight(txs), Weight(txs) + tx.weight, k) == BandTotals(bands, txs + [tx], k)
  {
    hide *;
    assert (txs + [tx])[..|txs|] == txs;
    WeightMore(txs, tx);
    FollowedIs(bands, txs, TxRate(tx), Weight(txs), Weight(txs) + tx.weight, k);
    BandTotalsAre(bands, txs + [tx], k);
    if 0 <= k < |bands| { TotalsMore(txs + [tx], bands[k]); }
  }

  lemma WeightMore(txs: seq<Tx>, tx: Tx)
    ensures Weight(txs + [tx]) == Weight(txs) + tx.weight
  {
    assert (txs + [tx])[..|txs|] == txs;
  }

  lemma FollowedIs(bands: seq<Band>, txs: seq<Tx>, rate: real, start: real, left: real, k: int)
    ensures Followed(bands, txs, rate, start, left, k)
            == if 0 <= k < |bands| then Add(TotalsOf(txs, bands[k]), rate, Overlap(start, left, bands[k])) else NOTHING
  {
    hide TotalsOf, Add, Overlap;
  }

  lemma BandTotalsAre(bands: seq<Band>, txs: seq<Tx>, k: int)
    ensures BandTotals(bands, txs, k) == if 0 <= k < |bands| then TotalsOf(txs, bands[k]) else NOTHING
  {
  }

  /** What one round of the loop gathers for the current band. */
  ghost function Gather(t: Totals, rate: real, left: real, right: real, b: Band): Totals {
    if right > b.left then
      var weight := Min(right, b.right) - Max(left, b.left);
      Totals(t.fee + FeeFor(rate, weight), t.weight + weight, Some(if t.min.None? then rate else Min(t.min.value, rate)), Max(t.max, rate))
    else t
  }

  lemma Gathered(bands: seq<Band>, txs: seq<Tx>, rate: real, start: real, left: real, right: real, k: int)
    requires Spaced(bands) && 0 <= k < |bands| && start <= left < right && left < bands[k].right
    ensures Gather(Followed(bands, txs, rate, start, left, k), rate, left, right, bands[k])
            == Followed(bands, txs, rate, start, Min(right, bands[k].right), k)
  {
    var b, stop := bands[k], Min(right, bands[k].right);
    var t := TotalsOf(txs, b);
    OverlapAdds(start, left, stop, b);
    AddTwice(t, rate, Overlap(start, left, b), Overlap(left, stop, b));
    GatherIsAdd(Add(t, rate, Overlap(start, left, b)), rate, left, right, b);
    hide TotalsOf, Add, Overlap, Gather;
  }

  lemma GatherIsAdd(t: Totals, rate: real, left: real, right: real, b: Band)
    requires left < right && left < b.right && b.left < b.right
    ensures Gather(t, rate, left, right, b) == Add(t, rate, Overlap(left, Min(right, b.right), b))
  {
    StretchInBand(left, right, b);
    hide Overlap, Min, Max;
  }

  lemma StretchInBand(left: real, right: real, b: Band)
    requires left < right && left < b.right && b.left < b.right
    ensures right > b.left ==> Overlap(left, Min(right, b.right), b) == Min(right, b.right) - Max(left, b.left) > 0.0
    ensures right <= b.left ==> Overlap(left, Min(right, b.right), b) == 0.0
  {
  }

  /** One round that does not reach the end of the band. */
  lemma RoundInside(bands: seq<Band>, txs: seq<Tx>, rate: real, start: real, right: real, s: State, left: real)
    requires Spaced(bands) && Following(bands, txs, rate, start, right, s, left) && left < right
    requires s.bandIndex < |bands| && right < bands[s.bandIndex].right
    ensures var b := bands[s.bandIndex];
      Following(bands, txs, rate, start, right, s.(band := Gather(s.band, rate, left, right, b), inBand := s.inBand || right > b.left), right)
  {
    Gathered(bands, txs, rate, start, left, right, s.bandIndex);
    hide Followed, EntryOf, Gather;
  }

  /** One round that closes the band. */
  lemma RoundClosing(bands: seq<Band>, txs: seq<Tx>, rate: real, start: real, right: real, s: State, left: real)
    requires Spaced(bands) && Following(bands, txs, rate, start, right, s, left) && left < right
    requires s.bandIndex < |bands| && right >= bands[s.bandIndex].right && Weighted(txs)
    ensures var b := bands[s.bandIndex];
      Following(bands, txs, rate, start, right,
                State(s.bandIndex + 1, false, NOTHING, [EntryOf(Gather(s.band, rate, left, right, b))] + s.feeRange, s.totalWeight), b.right)
  {
    hide *;
    FollowingParts(bands, txs, rate, start, right, s, left);
    var k, b := s.bandIndex, bands[s.bandIndex];
    var closed := Gather(s.band, rate, left, right, b);
    SpacedAt(bands, k);
    Gathered(bands, txs, rate, start, left, right, k);
    MinIs(right, b.right);
    NoOverlap(bands, txs, rate, start, b.right, right, k);
    NextBandEmpty(bands, txs, rate, start, b.right, k + 1);
    var s' := State(k + 1, false, NOTHING, [EntryOf(closed)] + s.feeRange, s.totalWeight);
    ProgressNext(bands, s, s', left, k);
    FollowingWhole(bands, txs, rate, start, right, s, s', left, closed);
  }

  lemma MinIs(x: real, y: real)
    requires x >= y
    ensures Min(x, y) == y
  {
  }

  lemma SpacedAt(bands: seq<Band>, k: int)
    requires Spaced(bands) && 0 <= k < |bands|
    ensures 0.0 <= bands[k].left < bands[k].right
    ensures k + 1 < |bands| ==> bands[k].right <= bands[k + 1].left < bands[k + 1].right
  {
  }

  lemma FollowingParts(bands: seq<Band>, txs: seq<Tx>, rate: real, start: real, right: real, s: State, left: real)
    requires Following(bands, txs, rate, start, right, s, left)
    ensures start <= left <= right && s.totalWeight == start == Weight(txs) && Progress(bands, s, left)
    ensures 0 <= s.bandIndex <= |bands| && |s.feeRange| == s.bandIndex && (s.bandIndex < |bands| ==> left < bands[s.bandIndex].right)
    ensures s.inBand <==> s.bandIndex < |bands| && left > bands[s.bandIndex].left
    ensures s.band == Followed(bands, txs, rate, start, left, s.bandIndex)
    ensures forall j :: 0 <= j < s.bandIndex ==> s.feeRange[j] == EntryOf(Followed(bands, txs, rate, start, right, s.bandIndex - 1 - j))
  {
    hide Followed, EntryOf;
  }

  lemma ProgressNext(bands: seq<Band>, s: State, s': State, left: real, k: int)
    requires Spaced(bands) && Progress(bands, s, left) && s.bandIndex == k < |bands|
    requires s'.bandIndex == k + 1 && !s'.inBand && |s'.feeRange| == k + 1
    ensures Progress(bands, s', bands[k].right)
  {
    assert k + 1 < |bands| ==> bands[k].right <= bands[k + 1].left < bands[k + 1].right;
  }

  lemma NextBandEmpty(bands: seq<Band>, txs: seq<Tx>, rate: real, start: real, left: real, k: int)
    requires Spaced(bands) && Weighted(txs) && start <= left && Weight(txs) <= left
    requires 0 <= k < |bands| ==> left <= bands[k].left
    ensures Followed(bands, txs, rate, start, left, k) == NOTHING
  {
    if 0 <= k < |bands| {
      BeforeBand(txs, bands[k]);
      assert Overlap(start, left, bands[k]) == 0.0;
      assert Add(NOTHING, rate, 0.0) == NOTHING;
    }
    hide TotalsOf;
  }

  /** A band the transactions do not reach has gathered nothing. */
  lemma BeforeBand(txs: seq<Tx>, b: Band)
    requires Weighted(txs) && Weight(txs) <= b.left <= b.right
    ensures TotalsOf(txs, b) == NOTHING
  {
    WeightNonNegative(txs);
    CoveredWeight(txs, b);
    SumBetween(txs, b);
  }

  lemma FollowingWhole(bands: seq<Band>, txs: seq<Tx>, rate: real, start: real, right: real, s: State, s': State, left: real, closed: Totals)
    requires start <= left < right && s.totalWeight == start == Weight(txs) && 0 <= s.bandIndex < |bands| && |s.feeRange| == s.bandIndex
    requires left < bands[s.bandIndex].right <= right
    requires forall j :: 0 <= j < s.bandIndex ==> s.feeRange[j] == EntryOf(Followed(bands, txs, rate, start, right, s.bandIndex - 1 - j))
    requires s' == State(s.bandIndex + 1, false, NOTHING, [EntryOf(closed)] + s.feeRange, s.totalWeight)
    requires Progress(bands, s', bands[s.bandIndex].right)
    requires closed == Followed(bands, txs, rate, start, right, s.bandIndex)
    requires Followed(bands, txs, rate, start, bands[s.bandIndex].right, s.bandIndex + 1) == NOTHING
    ensures Following(bands, txs, rate, start, right, s', bands[s.bandIndex].right)
  {
    hide Followed, EntryOf, Progress;
    forall j | 0 <= j < s'.bandIndex ensures s'.feeRange[j] == EntryOf(Followed(bands, txs, rate, start, right, s'.bandIndex - 1 - j)) {
      if j > 0 {
        assert s'.feeRange[j] == s.feeRange[j - 1];
      }
    }
  }

  /** A round past the last band. */
  lemma RoundBeyond(bands: seq<Band>, txs: seq<Tx>, rate: real, start: real, right: real, s: State, left: real)
    requires Spaced(bands) && Following(bands, txs, rate, start, right, s, left) && s.bandIndex == |bands|
    ensures Following(bands, txs, rate, start, right, s, right)
  {
    hide TotalsOf, EntryOf, Overlap, Add;
  }

  /** The early return: the transaction ends before the next band. */
  lemma RoundBefore(bands: seq<Band>, txs: seq<Tx>, rate: real, start: real, right: real, s: State)
    requires Spaced(bands) && Following(bands, txs, rate, start, right, s, start)
    requires s.bandIndex < |bands| ==> right <= bands[s.bandIndex].left
    ensures Following(bands, txs, rate, start, right, s, right)
  {
    hide Followed, EntryOf, Overlap, Spaced;
    FollowingParts(bands, txs, rate, start, right, s, start);
    NoOverlap(bands, txs, rate, start, start, right, s.bandIndex);
    if s.bandIndex < |bands| { SpacedAt(bands, s.bandIndex); }
  }

  /** One round of the loop, as it changes the state. */
  ghost function NextState(s: State, rate: real, left: real, right: real, bounds: Option<Band>): State {
    if bounds.None? then s else
    var b := bounds.value;
    var t := Gather(s.band, rate, left, right, b);
    if Min(right, b.right) >= b.right then State(s.bandIndex + 1, false, NOTHING, [EntryOf(t)] + s.feeRange, s.totalWeight)
    else s.(band := t, inBand := s.inBand || right > b.left)
  }

  ghost function NextLeft(right: real, bounds: Option<Band>): real {
    if bounds.None? then right else Min(right, bounds.value.right)
  }

  lemma Round(bands: seq<Band>, txs: seq<Tx>, rate: real, start: real, right: real, s: State, left: real, bounds: Option<Band>)
    requires Spaced(bands) && Weighted(txs) && Following(bands, txs, rate, start, right, s, left) && left < right
    requires bounds == if 0 <= s.bandIndex < |bands| then Some(bands[s.bandIndex]) else None
    ensures var s', left' := NextState(s, rate, left, right, bounds), NextLeft(right, bounds);
      && Following(bands, txs, rate, start, right, s', left') && 0 <= s'.bandIndex <= |bands|
      && (s'.bandIndex > s.bandIndex || (s'.bandIndex == s.bandIndex && left' == right)) && left' <= right
  {
    hide Following, Spaced, Weighted, Gather, EntryOf;
    FollowingParts(bands, txs, rate, start, right, s, left);
    if bounds.None? {
      RoundBeyond(bands, txs, rate, start, right, s, left);
    } else if right >= bounds.value.right {
      RoundClosing(bands, txs, rate, start, right, s, left);
    } else {
      RoundInside(bands, txs, rate, start, right, s, left);
    }
  }

  /** Where the loop stands, a band and its trimmed form gather the same. */
  lemma SameRound(bands: seq<Band>, s: State, rate: real, left: real, right: real)
    requires 0 <= s.bandIndex < |bands| && 0.0 <= left < right && Progress(Trimmed(bands), s, left)
    ensures var b, c := Some(bands[s.bandIndex]), Some(Trimmed(bands)[s.bandIndex]);
      NextState(s, rate, left, right, b) == NextState(s, rate, left, right, c) && NextLeft(right, b) == NextLeft(right, c)
  {
    var k := s.bandIndex;
    var b, c := bands[k], Trimmed(bands)[k];
    assert k > 0 ==> Trimmed(bands)[k - 1].right <= left;
    assert End(bands, k) <= left;
    assert Max(left, b.left) == Max(left, c.left) && (right > b.left <==> right > c.left);
    hide EntryOf, FeeFor, Trimmed;
  }

  // ---------- the results ----------

  /** The entries of the bands, the last band's first: each is what the band gathers on its own. */
  ghost predicate Reports(bands: seq<Band>, txs: seq<Tx>, feeRange: seq<Entry>) {
    |feeRange| == |bands| && forall k :: 0 <= k < |bands| ==> feeRange[|bands| - 1 - k] == Report(TotalsOf(txs, bands[k]))
  }

  lemma ReportsSize(bands: seq<Band>, txs: seq<Tx>, feeRange: seq<Entry>)
    requires Reports(bands, txs, feeRange)
    ensures |feeRange| == |bands|
  {
  }

  /** The reported minimum of a band is never Infinity. */
  lemma LowestReported(bands: seq<Band>, txs: seq<Tx>, feeRange: seq<Entry>)
    requires Reports(bands, txs, feeRange) && |bands| > 0
    ensures |feeRange| == |bands| && feeRange[0].min.Some?
  {
    var last := |bands| - 1;
    assert feeRange[|bands| - 1 - last] == Report(TotalsOf(txs, bands[last]));
    AverageBetween(txs, bands[last]);
    hide Report, TotalsOf;
  }

  function Averages(feeRange: seq<Entry>): (r: seq<real>)
    ensures |r| == |feeRange|
  {
    seq(|feeRange|, i requires 0 <= i < |feeRange| => feeRange[i].avg)
  }

  /** The summary of the entries: the extremes are those of the first and the last, the median is the average at index
      |feeRange| / 2. */
  ghost predicate Summarizes(stats: Stats, feeRange: seq<Entry>) {
    && feeRange != [] && stats.minFee == feeRange[0].min && stats.medianFee == feeRange[|feeRange| / 2].avg
    && stats.maxFee == feeRange[|feeRange| - 1].max
    && |stats.feeRange| == |feeRange| && forall j :: 0 <= j < |feeRange| ==> stats.feeRange[j] == feeRange[j].avg
  }

  lemma StatsSummarize(feeRange: seq<Entry>)
    requires |feeRange| > 0
    ensures Summarizes(StatsOf(feeRange), feeRange)
  {
  }

  function StatsOf(feeRange: seq<Entry>): Stats
    requires |feeRange| > 0
  {
    Stats(feeRange[0].min, feeRange[|feeRange| / 2].avg, feeRange[|feeRange| - 1].max, Averages(feeRange))
  }

  ghost function Larger(x: int, y: int): int {
    if x >= y then x else y
  }

  ghost function Padding(n: nat): seq<Entry> {
    seq(n, _ => Entry(0.0, Some(0.0), 0.0))
  }

  lemma PadOnce(n: int, some: seq<Entry>)
    requires n >= 0
    ensures [Entry(0.0, Some(0.0), 0.0)] + (Padding(n) + some) == Padding(n + 1) + some
  {
  }

  lemma StartPadding(some: seq<Entry>)
    ensures some == Padding(0) + some
    ensures forall n :: |some| <= Larger(|some|, n) && (n > |some| ==> Larger(|some|, n) == n) && (n <= |some| ==> Larger(|some|, n) == |some|)
  {
  }

  /** The entries once the open band is closed and the missing ones are zero. */
  ghost function Finished(s: State, m: int): seq<Entry> {
    var some := if s.band.weight > 0.0 then [EntryOf(s.band)] + s.feeRange else s.feeRange;
    Padding(if |some| < m then m - |some| else 0) + some
  }

  lemma FinishedIs(s: State, some: seq<Entry>, feeRange: seq<Entry>, m: int)
    requires some == if s.band.weight > 0.0 then [EntryOf(s.band)] + s.feeRange else s.feeRange
    requires |some| <= |feeRange| <= Larger(|some|, m) && feeRange == Padding(|feeRange| - |some|) + some && |feeRange| >= m
    ensures feeRange == Finished(s, m)
  {
    hide EntryOf;
  }

  lemma FinishedReports(bands: seq<Band>, txs: seq<Tx>, s: State)
    requires Spaced(bands) && Weighted(txs) && Tracking(bands, txs, s)
    ensures Reports(bands, txs, Finished(s, |bands|))
  {
    var m, b, r := |bands|, s.bandIndex, Finished(s, |bands|);
    FinishedSize(bands, txs, s);
    forall k | 0 <= k < m ensures r[m - 1 - k] == Report(TotalsOf(txs, bands[k])) {
      if k < b {
        ClosedEntry(bands, txs, s, k);
      } else {
        LaterEntry(bands, txs, s, k);
      }
    }
    hide *;
    ReportsAre(bands, txs, r);
  }

  lemma ReportsAre(bands: seq<Band>, txs: seq<Tx>, r: seq<Entry>)
    requires |r| == |bands| && forall k :: 0 <= k < |bands| ==> r[|bands| - 1 - k] == Report(TotalsOf(txs, bands[k]))
    ensures Reports(bands, txs, r)
  {
    hide Report, TotalsOf;
  }

  lemma FinishedSize(bands: seq<Band>, txs: seq<Tx>, s: State)
    requires Spaced(bands) && Weighted(txs) && Tracking(bands, txs, s)
    ensures |Finished(s, |bands|)| == |bands| && |s.feeRange| == s.bandIndex <= |bands|
    ensures s.bandIndex == |bands| ==> s.band == NOTHING
  {
    hide TotalsOf, EntryOf;
  }

  lemma ClosedEntry(bands: seq<Band>, txs: seq<Tx>, s: State, k: int)
    requires Spaced(bands) && Weighted(txs) && Tracking(bands, txs, s) && 0 <= k < s.bandIndex
    ensures |Finished(s, |bands|)| == |bands| && Finished(s, |bands|)[|bands| - 1 - k] == Report(TotalsOf(txs, bands[k]))
  {
    FinishedSize(bands, txs, s);
    SpacedAt(bands, k);
    WholeBand(txs, bands[k]);
    var r, j := Finished(s, |bands|), s.bandIndex - 1 - k;
    assert s.feeRange[j] == EntryOf(BandTotals(bands, txs, s.bandIndex - 1 - j));
    assert r[|r| - |s.feeRange| + j] == s.feeRange[j];
    hide TotalsOf, EntryOf;
  }

  lemma LaterEntry(bands: seq<Band>, txs: seq<Tx>, s: State, k: int)
    requires Spaced(bands) && Weighted(txs) && Tracking(bands, txs, s) && s.bandIndex <= k < |bands|
    ensures |Finished(s, |bands|)| == |bands| && Finished(s, |bands|)[|bands| - 1 - k] == Report(TotalsOf(txs, bands[k]))
  {
    FinishedSize(bands, txs, s);
    if k > s.bandIndex {
      SpacedAt(bands, k);
      assert bands[s.bandIndex].right <= bands[k].left;
      BeforeBand(txs, bands[k]);
    }
    hide TotalsOf, EntryOf;
  }

  /** Reading the results closes the open band for good, so reading them twice adds an entry exactly when a band is open. */
  lemma ReadTwice(bands: seq<Band>, txs: seq<Tx>, s: State)
    requires Spaced(bands) && Weighted(txs) && Tracking(bands, txs, s)
    ensures |Finished(s.(feeRange := Finished(s, |bands|)), |bands|)| == |bands| <==> s.band.weight <= 0.0
  {
    FinishedSize(bands, txs, s);
    hide EntryOf, Tracking;
  }

  /** The default percentiles give bands that do not overlap. */
  lemma DefaultSpaced(maxWeight: real)
    requires maxWeight > 0.0
    ensures Spaced(BandsFor(maxWeight, None, []))
  {
    var ps, bands := [1.0, 10.0, 25.0, 50.0, 75.0, 90.0, 99.0], BandsFor(maxWeight, None, []);
    assert WithEnds(Percentiles([]), WidthPercent(None)) == ps;
    forall k | 0 <= k < |ps| ensures bands[k] == BandAt(ps, maxWeight, WidthOf(maxWeight, 2.0), k) && ps[k] >= 1.0 {
    }
    assert |bands| == |ps|;
    DefaultGaps(ps);
    hide *;
    forall k | 0 <= k < |bands| ensures bands[k] == Band(Share(ps[k] - 1.0, maxWeight), Share(ps[k] + 1.0, maxWeight)) {
      Centered(ps, maxWeight, k);
    }
    forall k | 0 <= k < |bands| ensures 0.0 <= bands[k].left < bands[k].right {
      SharesOrdered(0.0, ps[k] - 1.0, maxWeight);
      SharesOrdered(ps[k] - 1.0, ps[k] + 1.0, maxWeight);
    }
    forall j, k | 0 <= j < k < |bands| ensures bands[j].right <= bands[k].left {
      SharesOrdered(ps[j] + 1.0, ps[k] - 1.0, maxWeight);
    }
    SpacedIs(bands);
  }

  lemma DefaultGaps(ps: seq<real>)
    requires ps == [1.0, 10.0, 25.0, 50.0, 75.0, 90.0, 99.0]
    ensures forall j, k :: 0 <= j < k < |ps| ==> ps[j] + 1.0 <= ps[k] - 1.0
  {
  }

  lemma Centered(ps: seq<real>, maxWeight: real, k: int)
    requires 0 <= k < |ps|
    ensures BandAt(ps, maxWeight, WidthOf(maxWeight, 2.0), k) == Band(Share(ps[k] - 1.0, maxWeight), Share(ps[k] + 1.0, maxWeight))
  {
  }

  lemma TrackingStarts(bands: seq<Band>)
    requires Spaced(bands)
    ensures Tracking(bands, [], State(0, false, NOTHING, [], 0.0)) && Weighted([])
  {
  }

  lemma OneMoreWeighted(txs: seq<Tx>, tx: Tx)
    requires Weighted(txs) && tx.weight >= 0.0
    ensures Weighted(txs + [tx])
  {
  }

  class OnlineFeeStatsCalculator {
    const maxWeight: real
    const bandWidth: real
    const percentiles: seq<real>
    var bandIndex: int
    /** None for bounds at Infinity */
    var bounds: Option<Band>
    var inBand: bool
    var totalBandFee: real
    var totalBandWeight: real
    var minBandRate: Option<real>
    var maxBandRate: real
    var feeRange: seq<Entry>
    var totalWeight: real
    /** the transactions processed so far */
    ghost var seen: seq<Tx>

    ghost function View(): (s: State)
      reads this
      ensures s == State(bandIndex, inBand, Totals(totalBandFee, totalBandWeight, minBandRate, maxBandRate), feeRange, totalWeight)
    {
      State(bandIndex, inBand, Totals(totalBandFee, totalBandWeight, minBandRate, maxBandRate), feeRange, totalWeight)
    }

    /** the bands as they are configured */
    ghost function Configured(): (r: seq<Band>)
      ensures r == Bands(percentiles, maxWeight, bandWidth) && |r| == |percentiles|
    {
      Bands(percentiles, maxWeight, bandWidth)
    }

    /** the stretches that the bands gather from */
    ghost function AllBands(): (r: seq<Band>)
      ensures r == Trimmed(Configured()) && |r| == |percentiles|
    {
      Trimmed(Configured())
    }

    ghost predicate BoundsSet()
      reads this`bandIndex, this`bounds
    {
      bounds == if 0 <= bandIndex < |percentiles| then Some(Configured()[bandIndex]) else None
    }

    ghost predicate Valid()
      reads this
    {
      |percentiles| >= 2 && Spaced(AllBands()) && Weighted(seen) && Tracking(AllBands(), seen, View()) && BoundsSet()
    }

    constructor (max: real, percentileBandWidth: Option<real>, given: seq<real>)
      ensures seen == [] && Configured() == BandsFor(max, percentileBandWidth, given)
      ensures Rising(BandsFor(max, percentileBandWidth, given)) ==> Valid()
    {
      maxWeight := max;
      bandWidth := WidthOf(max, WidthPercent(percentileBandWidth));
      percentiles := WithEnds(Percentiles(given), WidthPercent(percentileBandWidth));
      bandIndex, inBand, totalBandFee, totalBandWeight, minBandRate, maxBandRate := 0, false, 0.0, 0.0, None, 0.0;
      feeRange, totalWeight, seen := [], 0.0, [];
      new;
      SetNextBounds();
      if Rising(BandsFor(max, percentileBandWidth, given)) {
        TrimmedSpaced(Configured());
        TrackingStarts(AllBands());
      }
    }

    method SetNextBounds()
      requires 0 <= bandIndex
      modifies this`bounds
      ensures BoundsSet()
    {
      if bandIndex < |percentiles| {
        bounds := Some(BandAt(percentiles, maxWeight, bandWidth, bandIndex));
      } else {
        bounds := None;
      }
    }

    /** Gathers what of the stretch lies in the band. */
    method GatherIn(rate: real, left: real, right: real, b: Band)
      modifies this`inBand, this`totalBandFee, this`totalBandWeight, this`maxBandRate, this`minBandRate
      ensures View() == old(View()).(band := Gather(old(View()).band, rate, left, right, b), inBand := old(inBand) || right > b.left)
    {
      if right > b.left {
        inBand := true;
        var weight := Min(right, b.right) - Max(left, b.left);
        totalBandFee := totalBandFee + FeeFor(rate, weight);
        totalBandWeight := totalBandWeight + weight;
        maxBandRate := Max(maxBandRate, rate);
        minBandRate := Some(if minBandRate.None? then rate else Min(minBandRate.value, rate));
      }
    }

    /** The body of the loop that follows a transaction from "left" to "right". */
    method FollowRound(rate: real, left: real, right: real) returns (left': real)
      requires 0 <= bandIndex && BoundsSet()
      modifies this`inBand, this`totalBandFee, this`totalBandWeight, this`maxBandRate, this`minBandRate, this`feeRange, this`bandIndex, this`bounds
      ensures View() == NextState(old(View()), rate, left, right, old(bounds)) && left' == NextLeft(right, old(bounds)) && BoundsSet()
    {
      hide BoundsSet, EntryOf;
      ghost var s := View();
      if bounds.None? {
        return right;
      }
      var b := bounds.value;
      GatherIn(rate, left, right, b);
      hide Gather;
      left' := Min(right, b.right);
      if left' >= b.right {
        inBand := false;
        feeRange := [EntryOf(Totals(totalBandFee, totalBandWeight, minBandRate, maxBandRate))] + feeRange;
        bandIndex := bandIndex + 1;
        SetNextBounds();
        totalBandFee, totalBandWeight, minBandRate, maxBandRate := 0.0, 0.0, None, 0.0;
      }
    }

    method ProcessNext(tx: Tx)
      requires Valid() && tx.weight >= 0.0
      modifies this
      ensures Valid() && seen == old(seen) + [tx]
    {
      hide *;
      ghost var bands, txs, rate := AllBands(), seen, TxRate(tx);
      UnfoldValid();
      var left := totalWeight;
      var right := totalWeight + tx.weight;
      TrackingWeight(bands, txs, View());
      FollowingStarts(bands, txs, rate, right, View());
      FollowingParts(bands, txs, rate, left, right, View(), left);
      BoundsAre();
      TrimmedAt(Configured(), bandIndex);
      if !inBand && (bounds.None? || right <= bounds.value.left) {
        RoundBefore(bands, txs, rate, left, right, View());
      } else {
        Follow(TxRate(tx), left, right);
      }
      FollowingEnds(bands, txs, tx, View());
      totalWeight := totalWeight + tx.weight;
      seen := seen + [tx];
      OneMoreWeighted(txs, tx);
      FoldValid();
    }

    /** The loop that follows a transaction through the bands. */
    method Follow(rate: real, start: real, right: real)
      requires Spaced(AllBands()) && Weighted(seen) && BoundsSet() && Following(AllBands(), seen, rate, start, right, View(), start) && start <= right
      modifies this`inBand, this`totalBandFee, this`totalBandWeight, this`maxBandRate, this`minBandRate, this`feeRange, this`bandIndex, this`bounds
      ensures BoundsSet() && Following(AllBands(), seen, rate, start, right, View(), right)
    {
      hide *;
      var left := start;
      FollowingParts(AllBands(), seen, rate, start, right, View(), left);
      while left < right
        invariant left <= right && BoundsSet() && 0 <= bandIndex <= |percentiles|
        invariant Following(AllBands(), seen, rate, start, right, View(), left)
        decreases |percentiles| - bandIndex, if left < right then 1 else 0
      {
        BoundsAre();
        FollowingParts(AllBands(), seen, rate, start, right, View(), left);
        WeightNonNegative(seen);
        if bounds.Some? {
          SameRound(Configured(), View(), rate, left, right);
        }
        Round(AllBands(), seen, rate, start, right, View(), left, if bounds.Some? then Some(AllBands()[bandIndex]) else None);
        left := FollowRound(rate, left, right);
      }
    }

    /** Closes the band that is still open and fills up with zeros; every percentile has one entry, the last first.
        Bands that do not overlap are reported as they were configured. */
    method GetRawFeeStats() returns (stats: Stats)
      requires Valid()
      modifies this`feeRange
      ensures |feeRange| == |percentiles| >= 2 && Reports(AllBands(), seen, feeRange) && Summarizes(stats, feeRange)
      ensures feeRange == Finished(old(View()), |percentiles|)
      ensures Spaced(Configured()) ==> Reports(Configured(), seen, feeRange)
    {
      hide *;
      UnfoldValid();
      if Spaced(Configured()) { TrimmedSame(Configured()); }
      ghost var s := View();
      FinishedReports(AllBands(), seen, s);
      if totalBandWeight > 0.0 {
        feeRange := [EntryOf(Totals(totalBandFee, totalBandWeight, minBandRate, maxBandRate))] + feeRange;
      }
      ghost var some := feeRange;
      StartPadding(some);
      while |feeRange| < |percentiles|
        invariant |some| <= |feeRange| <= Larger(|some|, |percentiles|) && feeRange == Padding(|feeRange| - |some|) + some
      {
        PadOnce(|feeRange| - |some|, some);
        feeRange := [Entry(0.0, Some(0.0), 0.0)] + feeRange;
      }
      FinishedIs(s, some, feeRange, |percentiles|);
      ReportsSize(AllBands(), seen, feeRange);
      StatsSummarize(feeRange);
      stats := StatsOf(feeRange);
    }

    method GetFeeStats() returns (stats: Stats)
      requires Valid()
      modifies this`feeRange
      ensures |feeRange| == |percentiles| >= 2 && Reports(AllBands(), seen, feeRange)
      ensures var m := |percentiles|;
        && feeRange[0].min.Some? && stats.minFee == feeRange[0].min && stats.medianFee == feeRange[m / 2].avg
        && stats.maxFee == feeRange[m - 1].max && |stats.feeRange| == m
        && stats.feeRange[0] == feeRange[0].min.value && stats.feeRange[m - 1] == feeRange[m - 1].max
        && forall j :: 0 < j < m - 1 ==> stats.feeRange[j] == feeRange[j].avg
    {
      stats := GetRawFeeStats();
      LowestReported(AllBands(), seen, feeRange);
      hide Reports;
      stats := stats.(feeRange := stats.feeRange[0 := stats.minFee.value]);
      stats := stats.(feeRange := stats.feeRange[|stats.feeRange| - 1 := stats.maxFee]);
    }

    lemma BoundsAre()
      requires BoundsSet()
      ensures bounds == if 0 <= bandIndex < |AllBands()| then Some(Configured()[bandIndex]) else None
    {
    }

    lemma UnfoldValid()
      requires Valid()
      ensures |percentiles| >= 2 && Spaced(AllBands()) && Weighted(seen) && Tracking(AllBands(), seen, View()) && BoundsSet()
    {
    }

    lemma FoldValid()
      requires |percentiles| >= 2 && Spaced(AllBands()) && Weighted(seen) && Tracking(AllBands(), seen, View()) && BoundsSet()
      ensures Valid()
    {
    }
  }

  lemma TrimmedAt(bands: seq<Band>, k: int)
    ensures 0 <= k < |bands| ==> bands[k].left <= Trimmed(bands)[k].left && bands[k].right == Trimmed(bands)[k].right
  {
  }

  lemma TrackingWeight(bands: seq<Band>, txs: seq<Tx>, s: State)
    requires Tracking(bands, txs, s)
    ensures s.totalWeight == Weight(txs)
  {
  }
}
