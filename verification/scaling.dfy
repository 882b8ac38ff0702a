/** Area scaling beyond the 100 m2 reference of assets/calc.js: the linear
    multiplier (`'factor'`), the stepped-differential method (`'philippe'`),
    the reference-pair searches the latter needs, and the tagged result. */
module Scaling {
  import opened Wrappers
  import opened Money
  import opened Domain
  import opened Areas
  import opened Bundles

  /** `state.scalingMethod`: anything but `'philippe'` is the multiplier. */
  datatype ScalingMethod = Factor | Philippe

  /** `{ basePrice, diffPrice, stepArea }`; `stepArea` is `None` for `null`. */
  datatype ReferencePair = ReferencePair(basePrice: real, diffPrice: real, stepArea: Option<real>)

  /** The `adjustment` tag of a scaled amount. */
  datatype Adjustment =
    | FactorAdjustment(factor: real)
    | PhilippeAdjustment(diffPrice: real, stepArea: real, steps: real, extraArea: real)

  /** `{ price, adjustment }`; `adjustment` is `None` for `null`. */
  datatype ScaledAmount = ScaledAmount(price: real, adjustment: Option<Adjustment>)

  /** The stepped method can use the pair: a positive price difference over a
      positive step width (`asNumber(null)` is 0). */
  predicate Usable(info: Option<ReferencePair>) {
    info.Some? && info.value.diffPrice > 0.0 && info.value.stepArea.GetOr(0.0) > 0.0
  }

  // ---------------------------------------------------------------------------
  // getPhilippeInfoForDiag

  /** The packs tried below F5, from the nearest down: `PACK_SEQUENCE` walked
      from index 3 to 0. */
  const DiagReferenceOrder: seq<Pack> := [F4, F3, F2, F1]

  /** `asNumber(pricesByPack?.[pack]?.[purpose], 0)`. */
  function RowPrice(row: map<Pack, Entry>, p: Pack, purpose: Purpose): real {
    if p in row then row[p].Get(purpose).GetOr(0.0) else 0.0
  }

  /** A lower pack the stepped method may measure against: its price is
      positive and strictly below the F5 price, and its area bound is below
      100 m2 (which holds for every pack below F5). */
  predicate IsDiagCandidate(row: map<Pack, Entry>, p: Pack, purpose: Purpose, base: real)
    requires p != F6Plus
  {
    0.0 < RowPrice(row, p, purpose) && PackAreaLimit(p) < PackAreaLimit(F5)
    && RowPrice(row, p, purpose) < base
  }

  /** The loop of `getPhilippeInfoForDiag` over the packs in `order`: the first
      candidate gives the price difference to it and the area between its
      bound and 100 m2; with no candidate the difference is 0 and the step is
      null. */
  function SearchDiagPair(row: map<Pack, Entry>, purpose: Purpose, base: real, order: seq<Pack>): (r: ReferencePair)
    requires forall k | 0 <= k < |order| :: order[k] != F6Plus
    ensures r.basePrice == base
    ensures r.stepArea.None? <==> forall k | 0 <= k < |order| :: !IsDiagCandidate(row, order[k], purpose, base)
    ensures r.stepArea.None? ==> r.diffPrice == 0.0
    ensures r.stepArea.Some? ==> exists k | 0 <= k < |order| ::
      && IsDiagCandidate(row, order[k], purpose, base)
      && (forall i | 0 <= i < k :: !IsDiagCandidate(row, order[i], purpose, base))
      && r.diffPrice == base - RowPrice(row, order[k], purpose)
      && r.stepArea.value == PackAreaLimit(F5) - PackAreaLimit(order[k])
  {
    if order == [] then ReferencePair(base, 0.0, None)
    else
      var p := order[0];
      var candidate := RowPrice(row, p, purpose);
      if candidate <= 0.0 || PackAreaLimit(p) >= PackAreaLimit(F5) || base - candidate <= 0.0 then
        var r := SearchDiagPair(row, purpose, base, order[1..]);
        SkipNonCandidate(row, purpose, base, order, r);
        r
      else
        ReferencePair(base, base - candidate, Some(PackAreaLimit(F5) - PackAreaLimit(p)))
  }

  /** Skipping a first pack that is not a candidate: what the search finds in
      the rest of the order is what it finds in the whole order. */
  lemma SkipNonCandidate(row: map<Pack, Entry>, purpose: Purpose, base: real, order: seq<Pack>, r: ReferencePair)
    requires |order| > 0 && forall k | 0 <= k < |order| :: order[k] != F6Plus
    requires !IsDiagCandidate(row, order[0], purpose, base)
    requires r.stepArea.None? <==> forall k | 0 <= k < |order[1..]| :: !IsDiagCandidate(row, order[1..][k], purpose, base)
    requires r.stepArea.Some? ==> exists k | 0 <= k < |order[1..]| ::
      && IsDiagCandidate(row, order[1..][k], purpose, base)
      && (forall i | 0 <= i < k :: !IsDiagCandidate(row, order[1..][i], purpose, base))
      && r.diffPrice == base - RowPrice(row, order[1..][k], purpose)
      && r.stepArea.value == PackAreaLimit(F5) - PackAreaLimit(order[1..][k])
    ensures r.stepArea.None? <==> forall k | 0 <= k < |order| :: !IsDiagCandidate(row, order[k], purpose, base)
    ensures r.stepArea.Some? ==> exists k | 0 <= k < |order| ::
      && IsDiagCandidate(row, order[k], purpose, base)
      && (forall i | 0 <= i < k :: !IsDiagCandidate(row, order[i], purpose, base))
      && r.diffPrice == base - RowPrice(row, order[k], purpose)
      && r.stepArea.value == PackAreaLimit(F5) - PackAreaLimit(order[k])
  {
    assert forall k | 0 < k < |order| :: order[k] == order[1..][k - 1];
    if r.stepArea.Some? {
      var k :| 0 <= k < |order[1..]|
        && IsDiagCandidate(row, order[1..][k], purpose, base)
        && (forall i | 0 <= i < k :: !IsDiagCandidate(row, order[1..][i], purpose, base))
        && r.diffPrice == base - RowPrice(row, order[1..][k], purpose)
        && r.stepArea.value == PackAreaLimit(F5) - PackAreaLimit(order[1..][k]);
      assert IsDiagCandidate(row, order[k + 1], purpose, base);
    }
  }

  /** `getPhilippeInfoForDiag`: null when the diagnostic has no row or its F5
      price is not positive; otherwise the F5 price with the pair found by the
      search over F4, F3, F2, F1. */
  function PhilippeInfoForDiag(prices: PriceTable, id: string, purpose: Purpose): Option<ReferencePair> {
    if id !in prices then None
    else
      var row := prices[id];
      var base := RowPrice(row, F5, purpose);
      if base <= 0.0 then None
      else Some(SearchDiagPair(row, purpose, base, DiagReferenceOrder))
  }

  /** The diagnostic pair is usable exactly when the diagnostic has a row, a
      positive F5 price, and some pack below F5 priced strictly between 0 and
      it; the step width is then 100 minus that pack's bound. */
  lemma DiagPairUsable(prices: PriceTable, id: string, purpose: Purpose)
    ensures var info := PhilippeInfoForDiag(prices, id, purpose);
      Usable(info) <==>
        && id in prices
        && RowPrice(prices[id], F5, purpose) > 0.0
        && exists k | 0 <= k < |DiagReferenceOrder| ::
             IsDiagCandidate(prices[id], DiagReferenceOrder[k], purpose, RowPrice(prices[id], F5, purpose))
    ensures var info := PhilippeInfoForDiag(prices, id, purpose);
      Usable(info) ==> info.value.stepArea.value in {20.0, 40.0, 55.0, 70.0}
    ensures var info := PhilippeInfoForDiag(prices, id, purpose);
      info.Some? ==> info.value.basePrice == RowPrice(prices[id], F5, purpose) > 0.0
  {
    var info := PhilippeInfoForDiag(prices, id, purpose);
    if info.Some? && info.value.stepArea.Some? {
      var row := prices[id];
      var base := RowPrice(row, F5, purpose);
      var k :| 0 <= k < |DiagReferenceOrder|
        && IsDiagCandidate(row, DiagReferenceOrder[k], purpose, base)
        && info.value.diffPrice == base - RowPrice(row, DiagReferenceOrder[k], purpose)
        && info.value.stepArea.value == PackAreaLimit(F5) - PackAreaLimit(DiagReferenceOrder[k]);
      assert info.value.diffPrice > 0.0;
    }
  }

  // ---------------------------------------------------------------------------
  // getPhilippeInfoForBundle

  /** The bands tried below band_100, nearest first. */
  const BundleReferenceOrder: seq<Band> := [Band80, Band45]

  /** The loop of `getPhilippeInfoForBundle` over the bands in `order`: the
      first band whose price for the same purpose and count is positive and
      strictly below the band_100 price. */
  function SearchBundlePair(purpose: Purpose, count: int, base: real, order: seq<Band>): (r: ReferencePair)
    ensures r.basePrice == base
    ensures r.stepArea.None? ==> r.diffPrice == 0.0
  {
    if order == [] then ReferencePair(base, 0.0, None)
    else
      var band := order[0];
      var lower := BundlePrice(band, purpose, count).GetOr(0.0);
      if lower <= 0.0 || lower >= base || BandAreaLimit(band) >= BandAreaLimit(Band100) then
        SearchBundlePair(purpose, count, base, order[1..])
      else
        ReferencePair(base, base - lower, Some(BandAreaLimit(Band100) - BandAreaLimit(band)))
  }

  /** `getPhilippeInfoForBundle`: null when band_100 has no positive price for
      this purpose and count, otherwise the band_100 price with the pair found
      by the search over band_80 then band_45. */
  function PhilippeInfoForBundle(count: int, purpose: Purpose): Option<ReferencePair> {
    var base := BundlePrice(Band100, purpose, count).GetOr(0.0);
    if base <= 0.0 then None
    else Some(SearchBundlePair(purpose, count, base, BundleReferenceOrder))
  }

  /** With the fixed bundle table, every count that has a band_100 bundle
      finds its pair at band_80: the difference to the band_80 price over a
      20 m2 step. Counts without a bundle get no pair. */
  lemma BundlePairAlwaysAtBand80(count: int, purpose: Purpose)
    ensures BundlePrice(Band100, purpose, count).None? ==> PhilippeInfoForBundle(count, purpose).None?
    ensures BundlePrice(Band100, purpose, count).Some? ==>
      var top := BundlePrice(Band100, purpose, count).value;
      var mid := BundlePrice(Band80, purpose, count).value;
      PhilippeInfoForBundle(count, purpose) == Some(ReferencePair(top, top - mid, Some(20.0)))
    ensures BundlePrice(Band100, purpose, count).Some? ==> Usable(PhilippeInfoForBundle(count, purpose))
  {
    BundleDomain(Band100, purpose, count);
    if BundlePrice(Band100, purpose, count).Some? {
      BundleIncreasesWithBand(purpose, count);
      BundleDomain(Band80, purpose, count);
    }
  }

  // ---------------------------------------------------------------------------
  // computeScaledAmount

  /** `computeScaledAmount`. Up to 100 m2 the base is only rounded. Above, the
      stepped method applies when it was asked for and the pair is usable;
      otherwise the multiplier applies, and since its factor exceeds 1 there
      the result is always tagged `factor`, also when the stepped method was
      asked for. */
  function ComputeScaledAmount(area: real, scaling: ScalingMethod, base: real, info: Option<ReferencePair>): (r: ScaledAmount)
    ensures area <= 100.0 ==> r == ScaledAmount(Round2(base), None)
    ensures area > 100.0 && scaling == Philippe && Usable(info) ==>
      var step := info.value.stepArea.value;
      && r.price == Round2(base + info.value.diffPrice * ((area - 100.0) / step))
      && r.adjustment == Some(PhilippeAdjustment(info.value.diffPrice, step, (area - 100.0) / step, area - 100.0))
    ensures area > 100.0 && !(scaling == Philippe && Usable(info)) ==>
      r == ScaledAmount(Round2(base * (area / 100.0)), Some(FactorAdjustment(area / 100.0)))
    ensures area > 100.0 ==> r.adjustment.Some?
  {
    var extraArea := if area - 100.0 > 0.0 then area - 100.0 else 0.0;
    if extraArea <= 0.0 then
      ScaledAmount(Round2(base), None)
    else if scaling == Philippe && info.Some? && info.value.diffPrice > 0.0 && info.value.stepArea.GetOr(0.0) > 0.0 then
      // here extraArea is area - 100 and the step width is present
      var steps := (area - 100.0) / info.value.stepArea.value;
      ScaledAmount(Round2(base + info.value.diffPrice * steps),
                   Some(PhilippeAdjustment(info.value.diffPrice, info.value.stepArea.value, steps, area - 100.0)))
    else
      assert area / 100.0 > 1.0 by { assert (area / 100.0) * 100.0 == area; }
      ScaledAmount(Round2(base * (area / 100.0)), if area / 100.0 > 1.0 then Some(FactorAdjustment(area / 100.0)) else None)
  }

  /** Multiplying by a non-negative factor keeps order. */
  lemma MulMonotone(c: real, x: real, y: real)
    requires c >= 0.0 && x <= y
    ensures c * x <= c * y
  {
    assert c * y - c * x == c * (y - x);
  }

  /** Dividing by a positive width keeps order. */
  lemma DivMonotone(x: real, y: real, s: real)
    requires s > 0.0 && x <= y
    ensures x / s <= y / s
  {
    assert y / s - x / s == (y - x) / s;
  }

  /** The amount before rounding, for the area in each of the three cases. */
  ghost function Unrounded(area: real, scaling: ScalingMethod, base: real, info: Option<ReferencePair>): real {
    if area <= 100.0 then base
    else if scaling == Philippe && Usable(info) then
      base + info.value.diffPrice * ((area - 100.0) / info.value.stepArea.value)
    else base * (area / 100.0)
  }

  /** The unrounded amount grows with the area. */
  lemma UnroundedMonotone(a: real, b: real, scaling: ScalingMethod, base: real, info: Option<ReferencePair>)
    requires a <= b && base >= 0.0
    ensures Unrounded(a, scaling, base, info) <= Unrounded(b, scaling, base, info)
  {
    if b > 100.0 {
      if scaling == Philippe && Usable(info) {
        SteppedMonotone(a, b, base, info.value.diffPrice, info.value.stepArea.value);
      } else {
        FactorMonotone(a, b, base);
      }
    }
  }

  /** Above 100 m2 the stepped amount grows with the area, and it starts from
      the base. */
  lemma SteppedMonotone(a: real, b: real, base: real, d: real, s: real)
    requires a <= b && b > 100.0 && d > 0.0 && s > 0.0
    ensures (if a <= 100.0 then base else base + d * ((a - 100.0) / s)) <= base + d * ((b - 100.0) / s)
  {
    var lo := if a <= 100.0 then 0.0 else a - 100.0;
    DivMonotone(0.0, lo, s);
    DivMonotone(lo, b - 100.0, s);
    MulMonotone(d, lo / s, (b - 100.0) / s);
    MulMonotone(d, 0.0, lo / s);
    assert 0.0 / s == 0.0;
  }

  /** Above 100 m2 the multiplied amount grows with the area, and it starts
      from the base. */
  lemma FactorMonotone(a: real, b: real, base: real)
    requires a <= b && b > 100.0 && base >= 0.0
    ensures (if a <= 100.0 then base else base * (a / 100.0)) <= base * (b / 100.0)
  {
    var lo := if a <= 100.0 then 100.0 else a;
    DivMonotone(lo, b, 100.0);
    MulMonotone(base, lo / 100.0, b / 100.0);
    assert 100.0 / 100.0 == 1.0;
  }

  /** For a non-negative base and a fixed scaling method and pair, the scaled
      price never decreases as the area grows. */
  lemma ScaledPriceMonotone(a: real, b: real, scaling: ScalingMethod, base: real, info: Option<ReferencePair>)
    requires a <= b && base >= 0.0
    ensures ComputeScaledAmount(a, scaling, base, info).price <= ComputeScaledAmount(b, scaling, base, info).price
  {
    UnroundedMonotone(a, b, scaling, base, info);
    Round2Monotone(Unrounded(a, scaling, base, info), Unrounded(b, scaling, base, info));
  }

  // ---------------------------------------------------------------------------
  // The unreachable "stepped method unavailable" note

  /** The condition under which assets/calc.js pushes the "Methode Philippe
      indisponible - retour au multiplicateur" note, as written: the stepped
      method was asked for above 100 m2 and the scaled result has no
      adjustment. */
  predicate FallbackNoteAsWritten(scaling: ScalingMethod, area: real, s: ScaledAmount) {
    scaling == Philippe && area > 100.0 && s.adjustment.None?
  }

  /** The intended condition: the stepped method was asked for above 100 m2
      but the result was not computed by it. */
  predicate FallbackNote(scaling: ScalingMethod, area: real, s: ScaledAmount) {
    scaling == Philippe && area > 100.0 && !(s.adjustment.Some? && s.adjustment.value.PhilippeAdjustment?)
  }

  /** As written, the fallback note can never be produced: above 100 m2 the
      multiplier branch always tags its result. */
  lemma FallbackNoteAsWrittenNeverFires(area: real, scaling: ScalingMethod, base: real, info: Option<ReferencePair>)
    ensures !FallbackNoteAsWritten(scaling, area, ComputeScaledAmount(area, scaling, base, info))
    ensures var example := ComputeScaledAmount(120.0, Philippe, 130.0, None);
      FallbackNote(Philippe, 120.0, example) && !FallbackNoteAsWritten(Philippe, 120.0, example)
  {
  }

  /** The corrected note fires exactly when the stepped method was asked for
      above 100 m2 and no usable pair exists. */
  lemma FallbackNoteExact(area: real, scaling: ScalingMethod, base: real, info: Option<ReferencePair>)
    ensures FallbackNote(scaling, area, ComputeScaledAmount(area, scaling, base, info))
      <==> scaling == Philippe && area > 100.0 && !Usable(info)
  {
  }
}
