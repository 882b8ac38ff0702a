/** `calculateTotal` of assets/calc.js: the quote for one request. The form
    values (purpose, area, job type, studette and agent options, property
    type, scaling method) arrive as a `Request`; the selection is the output
    of `getSelectedDiagnostics` and the price table is `state.prices`. */
module Engine {
  import opened Wrappers
  import opened Money
  import opened Domain
  import opened Areas
  import opened Bundles
  import opened Scaling

  /** The `jobType` radio: `'parking'`, `'cave'`, anything else is normal. */
  datatype JobType = Normal | Parking | Cave

  datatype Request = Request(
    rawArea: real,
    purpose: Purpose,
    job: JobType,
    studette: bool,
    agent: bool,
    propType: PropType,
    scaling: ScalingMethod)

  /** One priced line of the quote. */
  datatype Line = Line(
    name: string,
    pack: Pack,
    purpose: Purpose,
    base: real,
    factor: real,
    price: real,
    adjustment: Option<Adjustment>)

  /** What a scaling note is about: the bundle of `count` diagnostics or one
      diagnostic by display name. */
  datatype NoteSubject = BundleOf(count: nat) | ItemNamed(name: string)

  /** A `philippeNotes` entry: the stepped computation that was applied, or
      the notice that the stepped method was unavailable. */
  datatype Note =
    | SteppedNote(subject: NoteSubject, adjustment: Adjustment)
    | UnavailableNote(subject: NoteSubject)

  /** `packSummary.adjustment`: the bundle's own adjustment (with its note
      when stepped), the collected notes, or the plain multiplier. */
  datatype SummaryAdjustment =
    | FromBundle(adjustment: Adjustment, notes: seq<Note>)
    | FromNotes(notes: seq<Note>)
    | FromFactor(factor: real)

  /** `packSummary`; `base` is the bundle's table price when a bundle is used. */
  datatype Summary = Summary(
    names: seq<string>,
    count: nat,
    price: real,
    bundle: bool,
    base: Option<real>,
    adjustment: Option<SummaryAdjustment>)

  datatype Quote = Quote(
    area: real,
    pack: Pack,
    purpose: Purpose,
    factor: real,
    lines: seq<Line>,
    total: real,
    summary: Summary,
    erpSelected: bool,
    notes: seq<Note>)

  const FlatJobBase: real := 170.0
  const HouseSurcharge: real := 50.0
  const ErpFallback: real := 40.0
  const ParkingLineName: string := "Parking (amiante + termites)"
  const CaveLineName: string := "Cave uniquement"
  const HouseLineName: string := "Majoration maison / pavillon"
  const ParkingSummaryNames: seq<string> := ["AMIANTE", "TERMITES"]
  const CaveSummaryNames: seq<string> := ["CAVE"]

  /** The ERP line's label: offered when the agent option is on. */
  function ErpLineName(agent: bool): string {
    if agent then "ERP (mandataire - offert)" else "ERP avec nuisances sonores aeriennes"
  }

  /** The ceiling on the diagnostics subtotal for small lots. */
  function CapFor(purpose: Purpose): real {
    match purpose
    case Sale => 300.0
    case Rent => 250.0
  }

  /** `Math.max(0, area)`. */
  function ClampArea(raw: real): (area: real)
    ensures area >= 0.0
    ensures raw >= 0.0 ==> area == raw
    ensures raw < 0.0 ==> area == 0.0
  {
    if raw > 0.0 then raw else 0.0
  }

  /** The multiplier reported on the quote: 1 up to 100 m2, area / 100 above. */
  function AreaFactor(area: real): (f: real)
    ensures area <= 100.0 ==> f == 1.0
    ensures area > 100.0 ==> f > 1.0 && f * 100.0 == area
  {
    if area <= 100.0 then 1.0 else area / 100.0
  }

  // ---------------------------------------------------------------------------
  // The ERP split

  /** `selectedAll.some(s => s.id === 'ERP')`. */
  predicate HasErp(selected: seq<Diagnostic>) {
    exists i | 0 <= i < |selected| :: selected[i].id == ErpId
  }

  /** `selectedAll.filter(s => s.id !== 'ERP')`: the selection without the
      ERP report, order kept. */
  function NonErp(selected: seq<Diagnostic>): (r: seq<Diagnostic>)
    ensures |r| <= |selected|
    ensures forall d | d in r :: d in selected && d.id != ErpId
    ensures forall d | d in selected && d.id != ErpId :: d in r
  {
    if selected == [] then []
    else if selected[0].id == ErpId then NonErp(selected[1..])
    else [selected[0]] + NonErp(selected[1..])
  }

  /** Filtering distributes over concatenation, so it keeps the order. */
  lemma {:induction false} NonErpAppend(a: seq<Diagnostic>, b: seq<Diagnostic>)
    ensures NonErp(a + b) == NonErp(a) + NonErp(b)
  {
    if a == [] {
      assert a + b == b;
    } else {
      assert (a + b)[1..] == a[1..] + b;
      NonErpAppend(a[1..], b);
    }
  }

  /** A selection without the ERP report passes the filter unchanged. */
  lemma {:induction false} NonErpOfClean(sel: seq<Diagnostic>)
    requires forall i | 0 <= i < |sel| :: sel[i].id != ErpId
    ensures NonErp(sel) == sel && !HasErp(sel)
  {
    if sel != [] {
      NonErpOfClean(sel[1..]);
      assert [sel[0]] + sel[1..] == sel;
    }
  }

  /** ERP is selected exactly when filtering removes something. */
  lemma {:induction false} HasErpIffFilterShrinks(selected: seq<Diagnostic>)
    ensures HasErp(selected) <==> |NonErp(selected)| < |selected|
  {
    if selected != [] {
      HasErpIffFilterShrinks(selected[1..]);
      if HasErp(selected[1..]) {
        var i :| 0 <= i < |selected[1..]| && selected[1..][i].id == ErpId;
        assert selected[i + 1].id == ErpId;
      }
      if HasErp(selected) && selected[0].id != ErpId {
        var i :| 0 <= i < |selected| && selected[i].id == ErpId;
        assert selected[1..][i - 1].id == ErpId;
      }
    }
  }

  /** `selectedNonERP.map(s => s.name)`. */
  function Names(items: seq<Diagnostic>): (names: seq<string>)
    ensures |names| == |items|
    ensures forall i | 0 <= i < |items| :: names[i] == items[i].name
  {
    seq(|items|, i requires 0 <= i < |items| => items[i].name)
  }

  // ---------------------------------------------------------------------------
  // Line sums

  /** The sum of the line prices. */
  function SumPrices(lines: seq<Line>): real {
    if lines == [] then 0.0 else lines[0].price + SumPrices(lines[1..])
  }

  lemma {:induction false} SumPricesAppend(a: seq<Line>, b: seq<Line>)
    ensures SumPrices(a + b) == SumPrices(a) + SumPrices(b)
  {
    if a == [] {
      assert a + b == b;
    } else {
      assert (a + b)[1..] == a[1..] + b;
      SumPricesAppend(a[1..], b);
    }
  }

  // ---------------------------------------------------------------------------
  // The diagnostics part: bundle or per item

  /** What the diagnostics part contributes before the small-lot cap. */
  datatype DiagnosticsPart = DiagnosticsPart(
    lines: seq<Line>,
    subtotal: real,
    bundle: bool,
    bundleBase: Option<real>,
    bundleAdjustment: Option<Adjustment>,
    notes: seq<Note>)

  /** Which condition decides the "stepped method unavailable" note: the one
      assets/calc.js has (`Scaling.FallbackNoteAsWritten`, which never holds)
      or the corrected one (`Scaling.FallbackNote`). */
  datatype NoteRule = AsWritten | Corrected

  predicate FallbackUnder(rule: NoteRule, scaling: ScalingMethod, area: real, s: ScaledAmount) {
    match rule
    case AsWritten => FallbackNoteAsWritten(scaling, area, s)
    case Corrected => FallbackNote(scaling, area, s)
  }

  /** The scaling note for one scaled amount: the stepped computation when it
      was applied, the unavailability notice when the rule's condition holds,
      nothing otherwise. */
  function ScalingNotes(rule: NoteRule, subject: NoteSubject, area: real, scaling: ScalingMethod, s: ScaledAmount): (notes: seq<Note>)
    ensures |notes| <= 1
    ensures (exists a :: SteppedNote(subject, a) in notes) <==> s.adjustment.Some? && s.adjustment.value.PhilippeAdjustment?
    ensures UnavailableNote(subject) in notes <==> FallbackUnder(rule, scaling, area, s)
  {
    if s.adjustment.Some? && s.adjustment.value.PhilippeAdjustment? then [SteppedNote(subject, s.adjustment.value)]
    else if FallbackUnder(rule, scaling, area, s) then [UnavailableNote(subject)]
    else []
  }

  /** The bundle price scaled with the bundle's own reference pair. */
  function BundleScaled(count: nat, area: real, purpose: Purpose, scaling: ScalingMethod, bundleBase: real): ScaledAmount {
    ComputeScaledAmount(area, scaling, bundleBase, PhilippeInfoForBundle(count, purpose))
  }

  /** The bundle branch: one zero-priced line per diagnostic, the bundle
      price scaled with the bundle's reference pair as subtotal. */
  function BundlePart(items: seq<Diagnostic>, area: real, pack: Pack, purpose: Purpose, scaling: ScalingMethod, bundleBase: real): (part: DiagnosticsPart)
    ensures part.bundle && part.bundleBase == Some(bundleBase)
    ensures |part.lines| == |items|
    ensures forall i | 0 <= i < |items| ::
      part.lines[i] == Line(items[i].name, pack, purpose, 0.0, 1.0, 0.0, None)
    ensures SumPrices(part.lines) == 0.0
    ensures var s := ComputeScaledAmount(area, scaling, bundleBase, PhilippeInfoForBundle(|items|, purpose));
      part.subtotal == s.price && part.bundleAdjustment == s.adjustment
    ensures area <= 100.0 ==> part.subtotal == Round2(bundleBase) && part.bundleAdjustment.None? && part.notes == []
    ensures area > 100.0 ==> part.bundleAdjustment.Some?
  {
    var lines := seq(|items|, i requires 0 <= i < |items| => Line(items[i].name, pack, purpose, 0.0, 1.0, 0.0, None));
    ZeroLinesSum(lines);
    var s := BundleScaled(|items|, area, purpose, scaling, bundleBase);
    DiagnosticsPart(lines, s.price, true, Some(bundleBase), s.adjustment, ScalingNotes(AsWritten, BundleOf(|items|), area, scaling, s))
  }

  lemma {:induction false} ZeroLinesSum(lines: seq<Line>)
    requires forall i | 0 <= i < |lines| :: lines[i].price == 0.0
    ensures SumPrices(lines) == 0.0
  {
    if lines != [] {
      ZeroLinesSum(lines[1..]);
    }
  }

  /** The row a per-item price is read from: F5 above 100 m2 (the scaling
      starts from the 100 m2 price), the area's own pack otherwise. */
  function PricePack(area: real, pack: Pack): Pack {
    if area > 100.0 then F5 else pack
  }

  /** The scaled price of one diagnostic: the table price (0 when absent),
      rounded, and above 100 m2 scaled with the diagnostic's reference pair. */
  function ItemScaled(d: Diagnostic, area: real, pack: Pack, purpose: Purpose, scaling: ScalingMethod, prices: PriceTable): ScaledAmount {
    var base := PriceOr(prices, d.id, PricePack(area, pack), purpose, 0.0);
    if area > 100.0 then ComputeScaledAmount(area, scaling, base, PhilippeInfoForDiag(prices, d.id, purpose))
    else ScaledAmount(Round2(base), None)
  }

  /** The line of one diagnostic on the per-item branch. */
  function ItemLine(d: Diagnostic, area: real, pack: Pack, purpose: Purpose, scaling: ScalingMethod, prices: PriceTable): Line {
    var pricePack := PricePack(area, pack);
    var s := ItemScaled(d, area, pack, purpose, scaling, prices);
    Line(d.name, pricePack, purpose, PriceOr(prices, d.id, pricePack, purpose, 0.0), AreaFactor(area), s.price, s.adjustment)
  }

  /** The per-item lines, one per diagnostic in order. */
  function ItemLines(items: seq<Diagnostic>, area: real, pack: Pack, purpose: Purpose, scaling: ScalingMethod, prices: PriceTable): (lines: seq<Line>)
    ensures |lines| == |items|
    ensures forall i | 0 <= i < |items| :: lines[i] == ItemLine(items[i], area, pack, purpose, scaling, prices)
  {
    if items == [] then []
    else [ItemLine(items[0], area, pack, purpose, scaling, prices)] + ItemLines(items[1..], area, pack, purpose, scaling, prices)
  }

  /** The scaling notes of the per-item branch under a note rule, in item
      order. */
  function ItemNotes(rule: NoteRule, items: seq<Diagnostic>, area: real, pack: Pack, purpose: Purpose, scaling: ScalingMethod, prices: PriceTable): (notes: seq<Note>)
    ensures forall n | n in notes :: exists i | 0 <= i < |items| ::
      n in ScalingNotes(rule, ItemNamed(items[i].name), area, scaling, ItemScaled(items[i], area, pack, purpose, scaling, prices))
    ensures forall i | 0 <= i < |items| ::
      forall n | n in ScalingNotes(rule, ItemNamed(items[i].name), area, scaling, ItemScaled(items[i], area, pack, purpose, scaling, prices)) :: n in notes
  {
    if items == [] then []
    else
      var head := ScalingNotes(rule, ItemNamed(items[0].name), area, scaling, ItemScaled(items[0], area, pack, purpose, scaling, prices));
      var rest := ItemNotes(rule, items[1..], area, pack, purpose, scaling, prices);
      assert forall i | 1 <= i < |items| :: items[1..][i - 1] == items[i];
      head + rest
  }

  /** The per-item branch: the subtotal is the plain sum of the item prices. */
  function ItemsPart(items: seq<Diagnostic>, area: real, pack: Pack, purpose: Purpose, scaling: ScalingMethod, prices: PriceTable): (part: DiagnosticsPart)
    ensures !part.bundle && part.bundleBase.None? && part.bundleAdjustment.None?
    ensures part.lines == ItemLines(items, area, pack, purpose, scaling, prices)
    ensures part.subtotal == SumPrices(part.lines)
    ensures part.notes == ItemNotes(AsWritten, items, area, pack, purpose, scaling, prices)
  {
    var lines := ItemLines(items, area, pack, purpose, scaling, prices);
    DiagnosticsPart(lines, SumPrices(lines), false, None, None, ItemNotes(AsWritten, items, area, pack, purpose, scaling, prices))
  }

  /** The bundle for the selection's size in the area's band, if any. */
  function BundleFor(items: seq<Diagnostic>, area: real, purpose: Purpose): Option<real> {
    if |items| >= 2 then BundlePrice(AreaBand(area), purpose, |items|) else None
  }

  /** The notes of the diagnostics part under a note rule: the bundle's
      note on the bundle branch, the per-item notes otherwise. */
  function PartNotes(rule: NoteRule, items: seq<Diagnostic>, area: real, pack: Pack, purpose: Purpose, scaling: ScalingMethod, prices: PriceTable): seq<Note> {
    var bundle := BundleFor(items, area, purpose);
    if bundle.Some? then ScalingNotes(rule, BundleOf(|items|), area, scaling, BundleScaled(|items|, area, purpose, scaling, bundle.value))
    else ItemNotes(rule, items, area, pack, purpose, scaling, prices)
  }

  /** The bundle branch when a bundle exists for the count, the per-item
      branch otherwise. */
  function DiagnosticsOf(items: seq<Diagnostic>, area: real, pack: Pack, purpose: Purpose, scaling: ScalingMethod, prices: PriceTable): (part: DiagnosticsPart)
    ensures part.bundle <==> BundleFor(items, area, purpose).Some?
    ensures !part.bundle ==> part.lines == ItemLines(items, area, pack, purpose, scaling, prices)
    ensures !part.bundle ==> part.subtotal == SumPrices(part.lines)
    ensures part.bundle ==>
      var s := ComputeScaledAmount(area, scaling, BundleFor(items, area, purpose).value, PhilippeInfoForBundle(|items|, purpose));
      part.subtotal == s.price && part.bundleAdjustment == s.adjustment
    ensures part.notes == PartNotes(AsWritten, items, area, pack, purpose, scaling, prices)
  {
    var bundle := BundleFor(items, area, purpose);
    if bundle.Some? then BundlePart(items, area, pack, purpose, scaling, bundle.value)
    else ItemsPart(items, area, pack, purpose, scaling, prices)
  }

  /** A bundle is used exactly for 2..6 (rent) or 2..7 (sale) diagnostics. */
  lemma BundleForIff(items: seq<Diagnostic>, area: real, purpose: Purpose)
    ensures BundleFor(items, area, purpose).Some? <==> 2 <= |items| <= MaxBundleCount(purpose)
  {
    BundleDomain(AreaBand(area), purpose, |items|);
  }

  // ---------------------------------------------------------------------------
  // Cap, add-ons, summary

  /** The small-lot ceiling: when it applies the subtotal is lowered to the
      cap if it exceeds it; it never raises a subtotal. */
  function Capped(subtotal: real, applies: bool, purpose: Purpose): (r: real)
    ensures r <= subtotal
    ensures applies ==> r <= CapFor(purpose)
    ensures !applies ==> r == subtotal
    ensures r == subtotal || r == CapFor(purpose)
    ensures r == subtotal <==> !(applies && subtotal > CapFor(purpose))
  {
    if applies && subtotal > CapFor(purpose) then CapFor(purpose) else subtotal
  }

  /** The ERP add-on price: offered (0) under the agent option, otherwise the
      rounded table price, 40 when the cell is absent. */
  function NormalErpPrice(area: real, pack: Pack, purpose: Purpose, agent: bool, prices: PriceTable): real {
    if agent then 0.0 else Round2(PriceOr(prices, ErpId, PricePack(area, pack), purpose, ErpFallback))
  }

  /** The add-on lines: the house surcharge, then the ERP line. */
  function AddonLines(area: real, pack: Pack, req: Request, erp: bool, prices: PriceTable): seq<Line> {
    var pricePack := PricePack(area, pack);
    (if req.propType == House then [Line(HouseLineName, pack, req.purpose, HouseSurcharge, 1.0, HouseSurcharge, None)] else [])
    + (if erp then [Line(ErpLineName(req.agent), pricePack, req.purpose,
                         PriceOr(prices, ErpId, pricePack, req.purpose, ErpFallback), 1.0,
                         NormalErpPrice(area, pack, req.purpose, req.agent, prices), None)]
       else [])
  }

  /** `addonsSubtotal`: 50 for a house plus the ERP price when selected. */
  function AddonsSubtotal(area: real, pack: Pack, req: Request, erp: bool, prices: PriceTable): real {
    (if req.propType == House then HouseSurcharge else 0.0)
    + (if erp then NormalErpPrice(area, pack, req.purpose, req.agent, prices) else 0.0)
  }

  /** The add-on counter is the sum of the add-on lines' prices. */
  lemma AddonLinesSum(area: real, pack: Pack, req: Request, erp: bool, prices: PriceTable)
    ensures SumPrices(AddonLines(area, pack, req, erp, prices)) == AddonsSubtotal(area, pack, req, erp, prices)
  {
    var addons := AddonLines(area, pack, req, erp, prices);
    var houseLines := if req.propType == House then [Line(HouseLineName, pack, req.purpose, HouseSurcharge, 1.0, HouseSurcharge, None)] else [];
    var erpLines := addons[|houseLines|..];
    assert addons == houseLines + erpLines;
    SumPricesAppend(houseLines, erpLines);
  }

  /** `packSummary.adjustment`. Above 100 m2: the bundle's adjustment, else
      the collected notes, else the multiplier; up to 100 m2: none. */
  function SummaryAdjustmentOf(area: real, part: DiagnosticsPart): (r: Option<SummaryAdjustment>)
    ensures r.Some? <==> area > 100.0
    ensures area > 100.0 && part.bundleAdjustment.Some? ==>
      var a := part.bundleAdjustment.value;
      r == Some(FromBundle(a, if a.PhilippeAdjustment? then part.notes else []))
    ensures area > 100.0 && part.bundleAdjustment.None? && part.notes != [] ==> r == Some(FromNotes(part.notes))
    ensures area > 100.0 && part.bundleAdjustment.None? && part.notes == [] ==> r == Some(FromFactor(area / 100.0))
  {
    if area > 100.0 then
      if part.bundleAdjustment.Some? then
        var a := part.bundleAdjustment.value;
        Some(FromBundle(a, if a.PhilippeAdjustment? then part.notes else []))
      else if |part.notes| > 0 then Some(FromNotes(part.notes))
      else if AreaFactor(area) > 1.0 then Some(FromFactor(AreaFactor(area)))
      else None
    else if AreaFactor(area) > 1.0 then Some(FromFactor(AreaFactor(area)))
    else None
  }

  /** The normal job. */
  function NormalQuote(area: real, pack: Pack, req: Request, items: seq<Diagnostic>, erp: bool, prices: PriceTable): Quote {
    var part := DiagnosticsOf(items, area, pack, req.purpose, req.scaling, prices);
    var subtotal := Capped(part.subtotal, req.studette || area < 20.0, req.purpose);
    Quote(area, pack, req.purpose, AreaFactor(area),
          part.lines + AddonLines(area, pack, req, erp, prices),
          Round2(subtotal + AddonsSubtotal(area, pack, req, erp, prices)),
          Summary(Names(items), |items|, subtotal, part.bundle, part.bundleBase, SummaryAdjustmentOf(area, part)),
          erp, part.notes)
  }

  /** The parking and cave jobs: a flat 170 with the ERP report added at its
      unrounded table price for the area's own pack (40 when absent), offered
      under the agent option. */
  function FlatQuote(area: real, pack: Pack, purpose: Purpose, name: string, names: seq<string>, bundle: bool,
                     erp: bool, agent: bool, prices: PriceTable): Quote
  {
    var erpBase := PriceOr(prices, ErpId, pack, purpose, ErpFallback);
    var erpPrice := if agent then 0.0 else erpBase;
    var lines := [Line(name, pack, purpose, FlatJobBase, 1.0, FlatJobBase, None)]
      + (if erp then [Line(ErpLineName(agent), pack, purpose, erpBase, 1.0, erpPrice, None)] else []);
    Quote(area, pack, purpose, 1.0, lines, Round2(FlatJobBase + (if erp then erpPrice else 0.0)),
          Summary(names, |names|, FlatJobBase, bundle, None, None), erp, [])
  }

  /** `calculateTotal`. */
  function CalculateTotal(req: Request, selected: seq<Diagnostic>, prices: PriceTable): (q: Quote)
    ensures q.area == ClampArea(req.rawArea) && q.pack == DerivePackFromArea(q.area)
    ensures q.erpSelected == HasErp(selected)
    ensures IsCents(q.total)
  {
    var area := ClampArea(req.rawArea);
    var pack := DerivePackFromArea(area);
    var erp := HasErp(selected);
    match req.job
    case Parking => FlatQuote(area, pack, req.purpose, ParkingLineName, ParkingSummaryNames, true, erp, req.agent, prices)
    case Cave => FlatQuote(area, pack, Sale, CaveLineName, CaveSummaryNames, false, erp, req.agent, prices)
    case Normal => NormalQuote(area, pack, req, NonErp(selected), erp, prices)
  }

  // ---------------------------------------------------------------------------
  // Properties of the quote

  /** A normal job is the normal quote of the non-ERP selection. */
  lemma NormalQuoteIs(req: Request, selected: seq<Diagnostic>, prices: PriceTable)
    requires req.job == Normal
    ensures var area := ClampArea(req.rawArea);
      CalculateTotal(req, selected, prices) == NormalQuote(area, DerivePackFromArea(area), req, NonErp(selected), HasErp(selected), prices)
  {
  }

  /** `LinesAddUpToTotal` for the normal quote of a non-ERP selection. */
  lemma NormalLinesAddUp(area: real, pack: Pack, req: Request, items: seq<Diagnostic>, erp: bool, prices: PriceTable)
    requires BundleFor(items, area, req.purpose).None?
    requires !((req.studette || area < 20.0)
               && SumPrices(ItemLines(items, area, pack, req.purpose, req.scaling, prices)) > CapFor(req.purpose))
    ensures var q := NormalQuote(area, pack, req, items, erp, prices);
      q.total == Round2(SumPrices(q.lines))
  {
    var part := DiagnosticsOf(items, area, pack, req.purpose, req.scaling, prices);
    AddonLinesSum(area, pack, req, erp, prices);
    QuoteSumsUp(NormalQuote(area, pack, req, items, erp, prices), part.lines,
                AddonLines(area, pack, req, erp, prices), AddonsSubtotal(area, pack, req, erp, prices));
  }

  /** A quote whose summary price is the sum of its diagnostic lines and
      whose total rounds that price plus the add-on lines' sum has the
      rounded sum of all its lines as total. */
  lemma QuoteSumsUp(q: Quote, items: seq<Line>, addons: seq<Line>, extra: real)
    requires q.lines == items + addons
    requires q.summary.price == SumPrices(items) && SumPrices(addons) == extra
    requires q.total == Round2(q.summary.price + extra)
    ensures q.total == Round2(SumPrices(q.lines))
  {
    SumPricesAppend(items, addons);
    Round2Congruent(q.summary.price + extra, SumPrices(q.lines));
  }

  /** Without the ERP report the add-ons are the house surcharge alone. */
  lemma TotalWithoutErp(req: Request, selected: seq<Diagnostic>, prices: PriceTable)
    requires req.job == Normal && !HasErp(selected)
    ensures var q := CalculateTotal(req, selected, prices);
      q.total == Round2(q.summary.price + (if req.propType == House then HouseSurcharge else 0.0))
  {
    var area := ClampArea(req.rawArea);
    var pack := DerivePackFromArea(area);
    var q := CalculateTotal(req, selected, prices);
    NormalQuoteParts(req, selected, prices);
    Round2Congruent(q.summary.price + AddonsSubtotal(area, pack, req, false, prices),
                    q.summary.price + (if req.propType == House then HouseSurcharge else 0.0));
  }

  /** A normal quote lists the diagnostics part's lines, then the add-on
      lines. */
  lemma NormalQuoteLines(req: Request, selected: seq<Diagnostic>, prices: PriceTable)
    requires req.job == Normal
    ensures var area := ClampArea(req.rawArea);
      var pack := DerivePackFromArea(area);
      CalculateTotal(req, selected, prices).lines
        == DiagnosticsOf(NonErp(selected), area, pack, req.purpose, req.scaling, prices).lines
           + AddonLines(area, pack, req, HasErp(selected), prices)
  {
  }

  /** A normal quote is assembled from its diagnostics part, the cap and the
      add-on counter. */
  lemma NormalQuoteParts(req: Request, selected: seq<Diagnostic>, prices: PriceTable)
    requires req.job == Normal
    ensures var area := ClampArea(req.rawArea);
      var pack := DerivePackFromArea(area);
      var part := DiagnosticsOf(NonErp(selected), area, pack, req.purpose, req.scaling, prices);
      var q := CalculateTotal(req, selected, prices);
      && q.summary.bundle == part.bundle
      && q.summary.count == |NonErp(selected)|
      && q.summary.price == Capped(part.subtotal, req.studette || area < 20.0, req.purpose)
      && q.total == Round2(q.summary.price + AddonsSubtotal(area, pack, req, HasErp(selected), prices))
      && q.summary.adjustment == SummaryAdjustmentOf(area, part)
  {
    var area := ClampArea(req.rawArea);
    NormalQuoteTotal(req, selected, prices);
    NormalQuoteIs(req, selected, prices);
    NormalQuoteFields(area, DerivePackFromArea(area), req, NonErp(selected), HasErp(selected), prices);
  }

  /** A normal quote's total is its summary price plus the add-ons, rounded. */
  lemma NormalQuoteTotal(req: Request, selected: seq<Diagnostic>, prices: PriceTable)
    requires req.job == Normal
    ensures var area := ClampArea(req.rawArea);
      var q := CalculateTotal(req, selected, prices);
      q.total == Round2(q.summary.price + AddonsSubtotal(area, DerivePackFromArea(area), req, HasErp(selected), prices))
  {
  }

  /** The fields of a normal quote, read off its diagnostics part. */
  lemma NormalQuoteFields(area: real, pack: Pack, req: Request, items: seq<Diagnostic>, erp: bool, prices: PriceTable)
    ensures var part := DiagnosticsOf(items, area, pack, req.purpose, req.scaling, prices);
      var q := NormalQuote(area, pack, req, items, erp, prices);
      && q.summary.bundle == part.bundle
      && q.summary.count == |items|
      && q.summary.price == Capped(part.subtotal, req.studette || area < 20.0, req.purpose)
      && q.total == Round2(q.summary.price + AddonsSubtotal(area, pack, req, erp, prices))
      && q.summary.adjustment == SummaryAdjustmentOf(area, part)
  {
  }

  /** On a normal job the bundle is used exactly when the non-ERP selection
      has 2..6 (rent) or 2..7 (sale) diagnostics; its table price is then the
      summary's base and every diagnostic line is priced 0. */
  lemma BundleUsedIff(req: Request, selected: seq<Diagnostic>, prices: PriceTable)
    requires req.job == Normal
    ensures var q := CalculateTotal(req, selected, prices);
      q.summary.bundle <==> 2 <= |NonErp(selected)| <= MaxBundleCount(req.purpose)
    ensures var q := CalculateTotal(req, selected, prices);
      q.summary.bundle ==>
        && q.summary.base == BundlePrice(AreaBand(q.area), req.purpose, |NonErp(selected)|)
        && forall i | 0 <= i < |NonErp(selected)| :: q.lines[i].price == 0.0
    ensures var q := CalculateTotal(req, selected, prices);
      var n := |NonErp(selected)|;
      q.summary.bundle ==>
        q.summary.price == Capped(
          ComputeScaledAmount(q.area, req.scaling, BundlePrice(AreaBand(q.area), req.purpose, n).value, PhilippeInfoForBundle(n, req.purpose)).price,
          req.studette || q.area < 20.0, req.purpose)
  {
    var area := ClampArea(req.rawArea);
    BundleForIff(NonErp(selected), area, req.purpose);
  }

  /** The summary counts and names only the non-ERP diagnostics, in order, so
      adding or removing the ERP report never changes it. */
  lemma SummaryIgnoresErp(req: Request, a: seq<Diagnostic>, b: seq<Diagnostic>, prices: PriceTable)
    requires req.job == Normal && NonErp(a) == NonErp(b)
    ensures CalculateTotal(req, a, prices).summary == CalculateTotal(req, b, prices).summary
    ensures CalculateTotal(req, a, prices).summary.count == |NonErp(a)|
    ensures CalculateTotal(req, a, prices).summary.names == Names(NonErp(a))
  {
  }

  /** On a normal job the total is the capped diagnostics subtotal plus the
      add-ons (50 for a house, the ERP price when selected), rounded; the
      subtotal never exceeds the cap when the small-lot rule applies. */
  lemma NormalTotalDecomposes(req: Request, selected: seq<Diagnostic>, prices: PriceTable)
    requires req.job == Normal
    ensures var q := CalculateTotal(req, selected, prices);
      var house := if req.propType == House then HouseSurcharge else 0.0;
      var erp := if HasErp(selected) then NormalErpPrice(q.area, q.pack, req.purpose, req.agent, prices) else 0.0;
      q.total == Round2(q.summary.price + house + erp)
    ensures var q := CalculateTotal(req, selected, prices);
      (req.studette || q.area < 20.0) ==> q.summary.price <= CapFor(req.purpose)
  {
    var area := ClampArea(req.rawArea);
    var pack := DerivePackFromArea(area);
    var q := CalculateTotal(req, selected, prices);
    var erp := HasErp(selected);
    NormalQuoteParts(req, selected, prices);
    Round2Congruent(q.summary.price + AddonsSubtotal(area, pack, req, erp, prices),
                    q.summary.price + (if req.propType == House then HouseSurcharge else 0.0)
                    + (if erp then NormalErpPrice(area, pack, req.purpose, req.agent, prices) else 0.0));
  }

  /** Without a bundle and without the cap biting, the total is exactly the
      rounded sum of the quote's lines. */
  lemma LinesAddUpToTotal(req: Request, selected: seq<Diagnostic>, prices: PriceTable)
    requires req.job == Normal
    requires BundleFor(NonErp(selected), ClampArea(req.rawArea), req.purpose).None?
    requires var area := ClampArea(req.rawArea);
      !((req.studette || area < 20.0)
        && SumPrices(ItemLines(NonErp(selected), area, DerivePackFromArea(area), req.purpose, req.scaling, prices)) > CapFor(req.purpose))
    ensures var q := CalculateTotal(req, selected, prices);
      q.total == Round2(SumPrices(q.lines))
  {
    var area := ClampArea(req.rawArea);
    var pack := DerivePackFromArea(area);
    var items := NonErp(selected);
    var erp := HasErp(selected);
    NormalQuoteIs(req, selected, prices);
    NormalLinesAddUp(area, pack, req, items, erp, prices);
  }

  /** On a normal job the quote has one line per non-ERP diagnostic, then
      the house line for a house, then an ERP line exactly when ERP is
      selected. The ERP line costs 0 under the agent option and otherwise the
      rounded ERP price of the F5 row above 100 m2 or of the area's pack
      below, never of F6+. */
  lemma ErpLineIffSelected(req: Request, selected: seq<Diagnostic>, prices: PriceTable)
    requires req.job == Normal
    ensures var q := CalculateTotal(req, selected, prices);
      var house := if req.propType == House then 1 else 0;
      |q.lines| == |NonErp(selected)| + house + (if HasErp(selected) then 1 else 0)
    ensures var q := CalculateTotal(req, selected, prices);
      HasErp(selected) ==>
        var erpLine := q.lines[|q.lines| - 1];
        && erpLine.name == ErpLineName(req.agent)
        && erpLine.pack == PricePack(q.area, q.pack) != F6Plus
        && erpLine.price ==
             (if req.agent then 0.0 else Round2(PriceOr(prices, ErpId, PricePack(q.area, q.pack), req.purpose, ErpFallback)))
  {
    var area := ClampArea(req.rawArea);
    PackThresholds(area);
  }

  /** Parking: a flat 170 plus, when ERP is selected and the agent option is
      off, the ERP price of the area's own pack, unrounded before the total. */
  lemma ParkingTotal(req: Request, selected: seq<Diagnostic>, prices: PriceTable)
    requires req.job == Parking
    ensures var q := CalculateTotal(req, selected, prices);
      && q.total == Round2(FlatJobBase + (if HasErp(selected) && !req.agent then PriceOr(prices, ErpId, q.pack, req.purpose, ErpFallback) else 0.0))
      && q.summary == Summary(ParkingSummaryNames, 2, FlatJobBase, true, None, None)
      && q.notes == []
  {
  }

  /** Cave: always priced for sale, a flat 170 plus the ERP sale price of the
      area's own pack when selected and not offered. */
  lemma CaveTotal(req: Request, selected: seq<Diagnostic>, prices: PriceTable)
    requires req.job == Cave
    ensures var q := CalculateTotal(req, selected, prices);
      && q.purpose == Sale
      && q.total == Round2(FlatJobBase + (if HasErp(selected) && !req.agent then PriceOr(prices, ErpId, q.pack, Sale, ErpFallback) else 0.0))
      && q.summary == Summary(CaveSummaryNames, 1, FlatJobBase, false, None, None)
  {
  }

  /** Above 100 m2 the summary always reports an adjustment on a normal job,
      and never at or below 100 m2. */
  lemma SummaryAdjustedIffLarge(req: Request, selected: seq<Diagnostic>, prices: PriceTable)
    requires req.job == Normal
    ensures var q := CalculateTotal(req, selected, prices);
      q.summary.adjustment.Some? <==> q.area > 100.0
  {
  }

  // ---------------------------------------------------------------------------
  // The "stepped method unavailable" note, as written and corrected

  /** As written, no quote ever carries the "stepped method unavailable"
      note: every note is a stepped note. */
  lemma AsWrittenNotesAllStepped(req: Request, selected: seq<Diagnostic>, prices: PriceTable)
    ensures forall n | n in CalculateTotal(req, selected, prices).notes :: n.SteppedNote?
  {
    if req.job == Normal {
      var area := ClampArea(req.rawArea);
      NormalQuoteIs(req, selected, prices);
      AsWrittenPartNotesStepped(NonErp(selected), area, DerivePackFromArea(area), req.purpose, req.scaling, prices);
    }
  }

  /** The diagnostics part's notes as written are all stepped notes. */
  lemma AsWrittenPartNotesStepped(items: seq<Diagnostic>, area: real, pack: Pack, purpose: Purpose, scaling: ScalingMethod, prices: PriceTable)
    ensures forall n | n in PartNotes(AsWritten, items, area, pack, purpose, scaling, prices) :: n.SteppedNote?
  {
    var bundle := BundleFor(items, area, purpose);
    if bundle.Some? {
      FallbackNoteAsWrittenNeverFires(area, scaling, bundle.value, PhilippeInfoForBundle(|items|, purpose));
    } else {
      var notes := ItemNotes(AsWritten, items, area, pack, purpose, scaling, prices);
      forall n | n in notes
        ensures n.SteppedNote?
      {
        var i :| 0 <= i < |items|
          && n in ScalingNotes(AsWritten, ItemNamed(items[i].name), area, scaling, ItemScaled(items[i], area, pack, purpose, scaling, prices));
        var d := items[i];
        FallbackNoteAsWrittenNeverFires(area, scaling, PriceOr(prices, d.id, PricePack(area, pack), purpose, 0.0), PhilippeInfoForDiag(prices, d.id, purpose));
      }
    }
  }

  /** A single diagnostic without a usable reference pair, priced with the
      stepped method above 100 m2: calc.js falls back to the multiplier
      without saying so, leaving no note and reporting the plain factor. */
  lemma FallbackLeavesNoTrace(req: Request, d: Diagnostic, prices: PriceTable)
    requires req.job == Normal && req.scaling == Philippe && ClampArea(req.rawArea) > 100.0
    requires d.id != ErpId && !Usable(PhilippeInfoForDiag(prices, d.id, req.purpose))
    ensures var q := CalculateTotal(req, [d], prices);
      && q.notes == []
      && q.summary.adjustment == Some(FromFactor(q.area / 100.0))
      && q.lines[0].adjustment == Some(FactorAdjustment(q.area / 100.0))
  {
    var area := ClampArea(req.rawArea);
    var pack := DerivePackFromArea(area);
    NonErpOfClean([d]);
    assert BundleFor([d], area, req.purpose).None?;
    var s := ItemScaled(d, area, pack, req.purpose, req.scaling, prices);
    assert ScalingNotes(AsWritten, ItemNamed(d.name), area, req.scaling, s) == [];
    assert [d][1..] == [];
    assert ItemNotes(AsWritten, [d], area, pack, req.purpose, req.scaling, prices)
      == ScalingNotes(AsWritten, ItemNamed(d.name), area, req.scaling, s) + ItemNotes(AsWritten, [], area, pack, req.purpose, req.scaling, prices);
  }

  /** The quote under the corrected note rule: lines, prices and total as
      calculated, with the notes and the summary's adjustment recomputed
      so that a stepped method that fell back says so. */
  function CorrectedQuote(req: Request, selected: seq<Diagnostic>, prices: PriceTable): (q: Quote)
    ensures var c := CalculateTotal(req, selected, prices);
      q.(notes := [], summary := q.summary.(adjustment := None)) == c.(notes := [], summary := c.summary.(adjustment := None))
    ensures req.job != Normal ==> q == CalculateTotal(req, selected, prices)
  {
    var c := CalculateTotal(req, selected, prices);
    if req.job != Normal then c
    else
      var area := ClampArea(req.rawArea);
      var pack := DerivePackFromArea(area);
      var items := NonErp(selected);
      var part := DiagnosticsOf(items, area, pack, req.purpose, req.scaling, prices);
      var notes := PartNotes(Corrected, items, area, pack, req.purpose, req.scaling, prices);
      c.(notes := notes, summary := c.summary.(adjustment := SummaryAdjustmentOf(area, part.(notes := notes))))
  }

  /** Under the corrected rule, on the per-item branch a diagnostic gets the
      "stepped method unavailable" note exactly when the stepped method was
      asked for above 100 m2 and the diagnostic has no usable reference
      pair, and that note reaches the quote. */
  lemma CorrectedUnavailableNoteIff(req: Request, selected: seq<Diagnostic>, prices: PriceTable, d: Diagnostic)
    requires req.job == Normal && d in NonErp(selected)
    requires !CalculateTotal(req, selected, prices).summary.bundle
    ensures var q := CorrectedQuote(req, selected, prices);
      (UnavailableNote(ItemNamed(d.name)) in ScalingNotes(Corrected, ItemNamed(d.name), q.area, req.scaling, ItemScaled(d, q.area, q.pack, req.purpose, req.scaling, prices)))
        <==> req.scaling == Philippe && q.area > 100.0 && !Usable(PhilippeInfoForDiag(prices, d.id, req.purpose))
    ensures var q := CorrectedQuote(req, selected, prices);
      (req.scaling == Philippe && q.area > 100.0 && !Usable(PhilippeInfoForDiag(prices, d.id, req.purpose)))
        ==> UnavailableNote(ItemNamed(d.name)) in q.notes
  {
    var area := ClampArea(req.rawArea);
    var pack := DerivePackFromArea(area);
    var items := NonErp(selected);
    var base := PriceOr(prices, d.id, PricePack(area, pack), req.purpose, 0.0);
    if area > 100.0 {
      FallbackNoteExact(area, req.scaling, base, PhilippeInfoForDiag(prices, d.id, req.purpose));
    }
    var i :| 0 <= i < |items| && items[i] == d;
  }

  /** The example of the corrected rule: the single diagnostic above now
      carries the note, and the summary reports the notes instead of the
      plain factor. */
  lemma CorrectedFallbackIsReported(req: Request, d: Diagnostic, prices: PriceTable)
    requires req.job == Normal && req.scaling == Philippe && ClampArea(req.rawArea) > 100.0
    requires d.id != ErpId && !Usable(PhilippeInfoForDiag(prices, d.id, req.purpose))
    ensures var q := CorrectedQuote(req, [d], prices);
      && q.notes == [UnavailableNote(ItemNamed(d.name))]
      && q.summary.adjustment == Some(FromNotes(q.notes))
  {
    var area := ClampArea(req.rawArea);
    var pack := DerivePackFromArea(area);
    NonErpOfClean([d]);
    assert BundleFor([d], area, req.purpose).None?;
    var base := PriceOr(prices, d.id, PricePack(area, pack), req.purpose, 0.0);
    FallbackNoteExact(area, req.scaling, base, PhilippeInfoForDiag(prices, d.id, req.purpose));
    var s := ItemScaled(d, area, pack, req.purpose, req.scaling, prices);
    assert ScalingNotes(Corrected, ItemNamed(d.name), area, req.scaling, s) == [UnavailableNote(ItemNamed(d.name))];
    assert [d][1..] == [];
    assert ItemNotes(Corrected, [d], area, pack, req.purpose, req.scaling, prices)
      == ScalingNotes(Corrected, ItemNamed(d.name), area, req.scaling, s) + ItemNotes(Corrected, [], area, pack, req.purpose, req.scaling, prices);
  }
}
