/** The older monolithic revision, assets/app.js. Its quote follows its own
    rules and is kept apart from `Engine`: the catalogue has no ERP entry,
    the ERP report is a flat 40 on every quote unless the agent option is
    on, and above 100 m2 every price is scaled linearly. The form values
    arrive as a `Request`, the selection is the output of the selection
    filter and the price table is `state.prices`. Lines reuse `Engine.Line`
    with no adjustment. */
module Legacy {
  import opened Wrappers
  import opened Money
  import opened Domain
  import Areas
  import Bundles
  import Scaling
  import State
  import Selection
  import Engine

  /** `DEFAULT_DIAGNOSTICS` of this revision: the seven regulatory
      diagnostics, without the ERP report. */
  const Catalogue: seq<Diagnostic> := [
    Diagnostic(AmianteId, "AMIANTE"),
    Diagnostic(DpeId, "DPE"),
    Diagnostic(CarrezBoutinId, "CARREZ/BOUTIN"),
    Diagnostic(PlombId, "PLOMB"),
    Diagnostic(TermitesId, "TERMITES"),
    Diagnostic(GazId, "GAZ"),
    Diagnostic(ElectriciteId, "ELECTRICITE")
  ]

  const FlatJobBase: real := 170.0
  const HouseSurcharge: real := 50.0
  const ErpCharge: real := 40.0
  const ParkingLineName: string := "Parking (Amiante + Termites)"
  const CaveLineName: string := "Cave only"
  const HouseLineName: string := "Pavilion / House surcharge"
  const ErpLineName: string := "ERP"
  const FreeErpLineName: string := "ERP (agent - free)"
  const ParkingSummaryNames: seq<string> := ["AMIANTE", "TERMITES"]
  const CaveSummaryNames: seq<string> := ["CAVE"]

  // ---------------------------------------------------------------------------
  // Area classifiers

  /** `derivePackFromArea` of this revision: the first pack whose bound
      covers the area. */
  function DerivePackFromArea(area: real): (p: Pack)
    ensures Areas.Covers(p, area)
    ensures forall q: Pack | PackIndex(q) < PackIndex(p) :: !Areas.Covers(q, area)
  {
    if area < 30.0 then F1
    else if area < 45.0 then F2
    else if area < 60.0 then F3
    else if area < 80.0 then F4
    else if area <= 100.0 then F5
    else F6Plus
  }

  /** `getDisplayPackLabel` of this revision: F4-sized areas read `F3/F4`. */
  function DisplayPackLabel(area: real): (shown: string)
    ensures shown == "F3/F4" <==> 60.0 <= area < 80.0
    ensures shown != "F3/F4" ==> shown == PackName(DerivePackFromArea(area))
  {
    if area < 30.0 then "F1"
    else if area < 45.0 then "F2"
    else if area < 60.0 then "F3"
    else if area < 80.0 then "F3/F4"
    else if area <= 100.0 then "F5"
    else "F6+"
  }

  /** `getAreaBand` of this revision. */
  function AreaBand(area: real): (b: Areas.Band)
    ensures b == Areas.Band45 <==> area <= 45.0
    ensures b == Areas.Band80 <==> 45.0 < area <= 80.0
    ensures b == Areas.Band100 <==> 80.0 < area
  {
    if area <= 45.0 then Areas.Band45
    else if area <= 80.0 then Areas.Band80
    else Areas.Band100
  }

  /** The three classifiers draw exactly the same boundaries as the current
      revision's. */
  lemma ThresholdsAgree(area: real)
    ensures DerivePackFromArea(area) == Areas.DerivePackFromArea(area)
    ensures DisplayPackLabel(area) == Areas.DisplayPackLabel(area)
    ensures AreaBand(area) == Areas.AreaBand(area)
  {
    Areas.PackThresholds(area);
    Areas.BandThresholds(area);
  }

  // ---------------------------------------------------------------------------
  // Catalogue, selection and normalisation

  /** The selection filter of this revision is the same filter: selected and
      offered entries in catalogue order, never TERMITES for rent, and never
      the ERP report, which this catalogue does not list. */
  lemma SelectionOverCatalogue(selected: seq<string>, purpose: Purpose)
    ensures var r := Selection.GetSelectedDiagnostics(Catalogue, selected, purpose);
      && (forall d | d in r :: d in Catalogue && d.id in selected && d.id != ErpId)
      && (purpose == Rent ==> forall d | d in r :: d.id != TermitesId)
      && (forall d | d in Catalogue && d.id in selected && !(purpose == Rent && d.id == TermitesId) :: d in r)
      && !Engine.HasErp(r)
  {
    var r := Selection.GetSelectedDiagnostics(Catalogue, selected, purpose);
    CatalogueWithoutErp();
    forall i | 0 <= i < |r|
      ensures r[i].id != ErpId
    {
      assert r[i] in Catalogue;
    }
  }

  /** No diagnostic of this revision's catalogue is the ERP report. */
  lemma CatalogueWithoutErp()
    ensures forall d | d in Catalogue :: d.id != ErpId
  {
    forall d | d in Catalogue
      ensures d.id != ErpId
    {
      var i :| 0 <= i < |Catalogue| && Catalogue[i] == d;
      assert |d.id| != 3 || d.id[0] != 'E';
    }
  }

  /** `normalizePrices` of this revision is the same rebuild: over this
      catalogue it yields exactly the seven ids with all six packs, present
      values kept and absent ones 0, and no ERP row. */
  lemma NormalizeOverCatalogue(prices: PriceTable)
    ensures var r := State.NormalizePrices(Catalogue, prices);
      && State.IsNormalizedFor(Catalogue, r)
      && ErpId !in r
      && forall id, p, u | id in Ids(Catalogue) && p in PackSet ::
           Lookup(r, id, p, u) == Some(Lookup(prices, id, p, u).GetOr(0.0))
  {
    assert ErpId !in Ids(Catalogue) by {
      forall d | d in Catalogue
        ensures d.id != ErpId
      {
      }
    }
  }

  // ---------------------------------------------------------------------------
  // The quote

  /** The form values this revision reads. */
  datatype Request = Request(
    rawArea: real,
    purpose: Purpose,
    job: Engine.JobType,
    studette: bool,
    agent: bool,
    propType: PropType)

  /** `packSummary`. */
  datatype Summary = Summary(
    names: seq<string>,
    count: nat,
    price: real,
    factor: real,
    bundle: bool)

  datatype Quote = Quote(
    area: real,
    pack: Pack,
    purpose: Purpose,
    factor: real,
    lines: seq<Engine.Line>,
    total: real,
    summary: Summary)

  /** A line without scaling. */
  function FlatLine(name: string, pack: Pack, purpose: Purpose, price: real): Engine.Line {
    Engine.Line(name, pack, purpose, price, 1.0, price, None)
  }

  /** The ERP line, present on every quote: 40, or 0 under the agent option. */
  function ErpLine(pack: Pack, purpose: Purpose, agent: bool): (l: Engine.Line)
    ensures l.price == (if agent then 0.0 else ErpCharge)
    ensures l.name == (if agent then FreeErpLineName else ErpLineName)
  {
    if agent then FlatLine(FreeErpLineName, pack, purpose, 0.0) else FlatLine(ErpLineName, pack, purpose, ErpCharge)
  }

  /** The parking and cave jobs: a flat 170 line and the ERP line. */
  function FlatQuote(area: real, pack: Pack, purpose: Purpose, name: string, names: seq<string>, bundle: bool, agent: bool): Quote {
    var erp := ErpLine(pack, purpose, agent);
    Quote(area, pack, purpose, 1.0, [FlatLine(name, pack, purpose, FlatJobBase), erp],
          Round2(FlatJobBase + erp.price), Summary(names, |names|, FlatJobBase, 1.0, bundle))
  }

  /** What the diagnostics contribute before the small-lot cap. */
  datatype Part = Part(lines: seq<Engine.Line>, subtotal: real, bundle: bool)

  /** The row a per-item price is read from: F5 above 100 m2. */
  function PricePack(area: real, pack: Pack): Pack {
    if area > 100.0 then F5 else pack
  }

  /** One diagnostic on the per-item branch: the table price (0 when absent)
      times the linear factor, rounded. */
  function ItemLine(d: Diagnostic, area: real, pack: Pack, purpose: Purpose, prices: PriceTable): Engine.Line {
    Engine.Line(d.name, PricePack(area, pack), purpose, ItemBase(d, area, pack, purpose, prices), Engine.AreaFactor(area),
                ScaleLinear(ItemBase(d, area, pack, purpose, prices), area), None)
  }

  /** `roundCurrency(amount * (area <= 100 ? 1 : factor))` with
      `factor = area / 100`: the linear scaling of this revision. */
  function ScaleLinear(amount: real, area: real): (r: real)
    ensures IsCents(r)
    ensures area <= 100.0 ==> r == Round2(amount)
    ensures area > 100.0 ==> r == Round2(amount * (area / 100.0))
  {
    if area <= 100.0 then Round2(amount * 1.0) else Round2(amount * (area / 100.0))
  }

  /** The table price a diagnostic line starts from. */
  function ItemBase(d: Diagnostic, area: real, pack: Pack, purpose: Purpose, prices: PriceTable): real {
    PriceOr(prices, d.id, PricePack(area, pack), purpose, 0.0)
  }

  /** The per-item lines, one per diagnostic in order. */
  function ItemLines(items: seq<Diagnostic>, area: real, pack: Pack, purpose: Purpose, prices: PriceTable): (lines: seq<Engine.Line>)
    ensures |lines| == |items|
    ensures forall i | 0 <= i < |items| :: lines[i] == ItemLine(items[i], area, pack, purpose, prices)
  {
    if items == [] then []
    else [ItemLine(items[0], area, pack, purpose, prices)] + ItemLines(items[1..], area, pack, purpose, prices)
  }

  /** The bundle for the selection's size in the area's band, if any. */
  function BundleFor(items: seq<Diagnostic>, area: real, purpose: Purpose): Option<real> {
    if |items| >= 2 then Bundles.BundlePrice(AreaBand(area), purpose, |items|) else None
  }

  /** The bundle branch when a bundle exists for the count: zero-priced
      lines and the bundle price times the linear factor, rounded; the
      per-item branch otherwise. */
  function DiagnosticsOf(items: seq<Diagnostic>, area: real, pack: Pack, purpose: Purpose, prices: PriceTable): (part: Part)
    ensures part.bundle <==> BundleFor(items, area, purpose).Some?
    ensures |part.lines| == |items|
    ensures part.bundle ==>
      && part.subtotal == ScaleLinear(BundleFor(items, area, purpose).value, area)
      && forall i | 0 <= i < |items| :: part.lines[i].price == 0.0
    ensures !part.bundle ==> part.lines == ItemLines(items, area, pack, purpose, prices) && part.subtotal == Engine.SumPrices(part.lines)
  {
    var bundle := BundleFor(items, area, purpose);
    if bundle.Some? then
      var lines := seq(|items|, i requires 0 <= i < |items| => Engine.Line(items[i].name, pack, purpose, 0.0, 1.0, 0.0, None));
      Part(lines, ScaleLinear(bundle.value, area), true)
    else
      var lines := ItemLines(items, area, pack, purpose, prices);
      Part(lines, Engine.SumPrices(lines), false)
  }

  /** The add-on lines: the house surcharge, then the ERP line. */
  function AddonLines(pack: Pack, req: Request): seq<Engine.Line> {
    (if req.propType == House then [FlatLine(HouseLineName, pack, req.purpose, HouseSurcharge)] else [])
    + [ErpLine(pack, req.purpose, req.agent)]
  }

  /** `addonsSubtotal`: 50 for a house plus 40 unless the agent option is on. */
  function AddonsSubtotal(req: Request): real {
    (if req.propType == House then HouseSurcharge else 0.0) + (if req.agent then 0.0 else ErpCharge)
  }

  /** The add-on counter is the sum of the add-on lines' prices. */
  lemma AddonLinesSum(pack: Pack, req: Request)
    ensures Engine.SumPrices(AddonLines(pack, req)) == AddonsSubtotal(req)
  {
    var houseLines := if req.propType == House then [FlatLine(HouseLineName, pack, req.purpose, HouseSurcharge)] else [];
    var erpLines := [ErpLine(pack, req.purpose, req.agent)];
    assert AddonLines(pack, req) == houseLines + erpLines;
    Engine.SumPricesAppend(houseLines, erpLines);
  }

  /** The normal job. */
  function NormalQuote(area: real, pack: Pack, req: Request, items: seq<Diagnostic>, prices: PriceTable): Quote {
    var part := DiagnosticsOf(items, area, pack, req.purpose, prices);
    var subtotal := Engine.Capped(part.subtotal, req.studette || area < 20.0, req.purpose);
    Quote(area, pack, req.purpose, Engine.AreaFactor(area), part.lines + AddonLines(pack, req),
          Round2(subtotal + AddonsSubtotal(req)),
          Summary(Engine.Names(items), |items|, subtotal, Engine.AreaFactor(area), part.bundle))
  }

  /** `calculateTotal` of this revision. Every quote, whatever the job, ends
      with the ERP line. */
  function CalculateTotal(req: Request, selected: seq<Diagnostic>, prices: PriceTable): (q: Quote)
    ensures q.area == Engine.ClampArea(req.rawArea) && q.pack == DerivePackFromArea(q.area)
    ensures IsCents(q.total)
    ensures |q.lines| >= 1 && q.lines[|q.lines| - 1] == ErpLine(q.pack, q.purpose, req.agent)
    ensures q.purpose == (if req.job == Engine.Cave then Sale else req.purpose)
  {
    var area := Engine.ClampArea(req.rawArea);
    var pack := DerivePackFromArea(area);
    match req.job
    case Parking => FlatQuote(area, pack, req.purpose, ParkingLineName, ParkingSummaryNames, true, req.agent)
    case Cave => FlatQuote(area, pack, Sale, CaveLineName, CaveSummaryNames, false, req.agent)
    case Normal => NormalQuote(area, pack, req, selected, prices)
  }

  // ---------------------------------------------------------------------------
  // Properties of the quote

  /** Parking costs 210, or 170 under the agent option, for the requested
      purpose; a cave is always a sale at the same two prices. */
  lemma FlatJobTotals(req: Request, selected: seq<Diagnostic>, prices: PriceTable)
    requires req.job != Engine.Normal
    ensures var q := CalculateTotal(req, selected, prices);
      && q.total == (if req.agent then 170.0 else 210.0)
      && |q.lines| == 2
      && q.summary.price == FlatJobBase
      && q.summary.bundle == (req.job == Engine.Parking)
  {
    var q := CalculateTotal(req, selected, prices);
    var erp := ErpLine(q.pack, q.purpose, req.agent);
    assert q.total == Round2(FlatJobBase + erp.price);
    if req.agent {
      Round2OfWholeCents(17000);
      assert FlatJobBase + erp.price == 17000 as real / 100.0;
    } else {
      Round2OfWholeCents(21000);
      assert FlatJobBase + erp.price == 21000 as real / 100.0;
    }
  }

  /** On a normal job the bundle is used exactly for 2..6 (rent) or 2..7
      (sale) diagnostics; the subtotal is then the bundle price times the
      linear factor, rounded, and capped. */
  lemma BundleUsedIff(req: Request, selected: seq<Diagnostic>, prices: PriceTable)
    requires req.job == Engine.Normal
    ensures var q := CalculateTotal(req, selected, prices);
      q.summary.bundle <==> 2 <= |selected| <= Bundles.MaxBundleCount(req.purpose)
    ensures var q := CalculateTotal(req, selected, prices);
      q.summary.bundle ==>
        q.summary.price == Engine.Capped(
          ScaleLinear(Bundles.BundlePrice(AreaBand(q.area), req.purpose, |selected|).value, q.area),
          req.studette || q.area < 20.0, req.purpose)
  {
    var area := Engine.ClampArea(req.rawArea);
    Bundles.BundleDomain(AreaBand(area), req.purpose, |selected|);
  }

  /** Without a bundle every diagnostic line is its table price, read from
      the F5 row above 100 m2, times the linear factor, rounded; the summary
      price is their capped sum. */
  lemma ItemPrices(req: Request, selected: seq<Diagnostic>, prices: PriceTable, i: int)
    requires req.job == Engine.Normal && 0 <= i < |selected|
    requires BundleFor(selected, Engine.ClampArea(req.rawArea), req.purpose).None?
    ensures var q := CalculateTotal(req, selected, prices);
      var pricePack := if q.area > 100.0 then F5 else q.pack;
      && q.lines[i].pack == pricePack
      && q.lines[i].price == ScaleLinear(PriceOr(prices, selected[i].id, pricePack, req.purpose, 0.0), q.area)
    ensures var q := CalculateTotal(req, selected, prices);
      q.summary.price == Engine.Capped(Engine.SumPrices(q.lines[..|selected|]), req.studette || q.area < 20.0, req.purpose)
  {
    var area := Engine.ClampArea(req.rawArea);
    var pack := DerivePackFromArea(area);
    var part := DiagnosticsOf(selected, area, pack, req.purpose, prices);
    var q := CalculateTotal(req, selected, prices);
    assert q.lines == part.lines + AddonLines(pack, req);
    assert q.lines[..|selected|] == part.lines;
  }

  /** On a normal job the quote has one line per diagnostic, the house line
      for a house and always the ERP line; the total is the capped subtotal
      plus 50 for a house plus 40 unless the agent option is on, rounded. */
  lemma NormalTotalDecomposes(req: Request, selected: seq<Diagnostic>, prices: PriceTable)
    requires req.job == Engine.Normal
    ensures var q := CalculateTotal(req, selected, prices);
      |q.lines| == |selected| + (if req.propType == House then 1 else 0) + 1
    ensures var q := CalculateTotal(req, selected, prices);
      var house := if req.propType == House then HouseSurcharge else 0.0;
      var erp := if req.agent then 0.0 else ErpCharge;
      q.total == Round2(q.summary.price + house + erp)
    ensures var q := CalculateTotal(req, selected, prices);
      (req.studette || q.area < 20.0) ==> q.summary.price <= Engine.CapFor(req.purpose)
  {
    var q := CalculateTotal(req, selected, prices);
    LegacyNormalParts(req, selected, prices);
    Round2Congruent(q.summary.price + AddonsSubtotal(req),
                    q.summary.price + (if req.propType == House then HouseSurcharge else 0.0)
                    + (if req.agent then 0.0 else ErpCharge));
  }

  // ---------------------------------------------------------------------------
  // Against the current revision

  /** The current revision's request for the same form, with the linear
      multiplier, the only scaling this revision knows. */
  function AsEngineRequest(req: Request): Engine.Request {
    Engine.Request(req.rawArea, req.purpose, req.job, req.studette, req.agent, req.propType, Scaling.Factor)
  }

  /** One diagnostic costs the same in both revisions under the multiplier. */
  lemma ItemPriceAgrees(d: Diagnostic, area: real, pack: Pack, purpose: Purpose, prices: PriceTable)
    ensures ItemLine(d, area, pack, purpose, prices).price
         == Engine.ItemLine(d, area, pack, purpose, Scaling.Factor, prices).price
  {
    var base := ItemBase(d, area, pack, purpose, prices);
    assert base == PriceOr(prices, d.id, Engine.PricePack(area, pack), purpose, 0.0);
    assert Engine.ItemLine(d, area, pack, purpose, Scaling.Factor, prices).price
        == Engine.ItemScaled(d, area, pack, purpose, Scaling.Factor, prices).price;
    ScaledAgrees(area, base, Scaling.PhilippeInfoForDiag(prices, d.id, purpose));
    if area > 100.0 {
      assert Engine.ItemScaled(d, area, pack, purpose, Scaling.Factor, prices)
          == Scaling.ComputeScaledAmount(area, Scaling.Factor, base, Scaling.PhilippeInfoForDiag(prices, d.id, purpose));
    }
  }

  /** Under the multiplier the current revision scales an amount exactly as
      this one does: times the linear factor, rounded. */
  lemma ScaledAgrees(area: real, base: real, info: Option<Scaling.ReferencePair>)
    ensures ScaleLinear(base, area) == Scaling.ComputeScaledAmount(area, Scaling.Factor, base, info).price
  {
  }

  /** The per-item sums agree. */
  lemma {:induction false} ItemSumsAgree(items: seq<Diagnostic>, area: real, pack: Pack, purpose: Purpose, prices: PriceTable)
    ensures Engine.SumPrices(ItemLines(items, area, pack, purpose, prices))
         == Engine.SumPrices(Engine.ItemLines(items, area, pack, purpose, Scaling.Factor, prices))
  {
    if items != [] {
      ItemPriceAgrees(items[0], area, pack, purpose, prices);
      ItemSumsAgree(items[1..], area, pack, purpose, prices);
      var l := ItemLines(items, area, pack, purpose, prices);
      var e := Engine.ItemLines(items, area, pack, purpose, Scaling.Factor, prices);
      assert l[1..] == ItemLines(items[1..], area, pack, purpose, prices);
      assert e[1..] == Engine.ItemLines(items[1..], area, pack, purpose, Scaling.Factor, prices);
    }
  }

  /** The two revisions agree on the diagnostics, before and after the cap. */
  lemma DiagnosticsAgree(items: seq<Diagnostic>, area: real, pack: Pack, purpose: Purpose, prices: PriceTable)
    ensures var l := DiagnosticsOf(items, area, pack, purpose, prices);
      var e := Engine.DiagnosticsOf(items, area, pack, purpose, Scaling.Factor, prices);
      l.bundle == e.bundle && l.subtotal == e.subtotal
  {
    ThresholdsAgree(area);
    var b := BundleFor(items, area, purpose);
    assert b == Engine.BundleFor(items, area, purpose);
    if b.Some? {
      var e := Engine.BundlePart(items, area, pack, purpose, Scaling.Factor, b.value);
      assert Engine.DiagnosticsOf(items, area, pack, purpose, Scaling.Factor, prices) == e;
      ScaledAgrees(area, b.value, Scaling.PhilippeInfoForBundle(|items|, purpose));
    } else {
      ItemSumsAgree(items, area, pack, purpose, prices);
    }
  }

  /** Given a selection without the ERP report and the multiplier, both
      revisions price the diagnostics alike; they part ways on ERP alone.
      The current revision charges nothing for it, this one adds 40 unless
      the agent option is on. */
  lemma ErpIsTheOnlyDifference(req: Request, selected: seq<Diagnostic>, prices: PriceTable)
    requires req.job == Engine.Normal
    requires forall i | 0 <= i < |selected| :: selected[i].id != ErpId
    ensures var l := CalculateTotal(req, selected, prices);
      var e := Engine.CalculateTotal(AsEngineRequest(req), selected, prices);
      var house := if req.propType == House then HouseSurcharge else 0.0;
      && l.summary.price == e.summary.price
      && l.summary.bundle == e.summary.bundle
      && e.total == Round2(e.summary.price + house)
      && l.total == Round2(e.summary.price + house + (if req.agent then 0.0 else ErpCharge))
  {
    var ereq := AsEngineRequest(req);
    var house := if req.propType == House then HouseSurcharge else 0.0;
    var erp := if req.agent then 0.0 else ErpCharge;
    SummariesAgree(req, selected, prices);
    Engine.NonErpOfClean(selected);
    Engine.TotalWithoutErp(ereq, selected, prices);
    LegacyNormalParts(req, selected, prices);
    var l := CalculateTotal(req, selected, prices);
    var e := Engine.CalculateTotal(ereq, selected, prices);
    Round2Congruent(l.summary.price + AddonsSubtotal(req), e.summary.price + house + erp);
  }

  /** Both revisions' summaries agree on a selection without the ERP report
      under the multiplier. */
  lemma SummariesAgree(req: Request, selected: seq<Diagnostic>, prices: PriceTable)
    requires req.job == Engine.Normal
    requires forall i | 0 <= i < |selected| :: selected[i].id != ErpId
    ensures var l := CalculateTotal(req, selected, prices);
      var e := Engine.CalculateTotal(AsEngineRequest(req), selected, prices);
      l.summary.price == e.summary.price && l.summary.bundle == e.summary.bundle
  {
    var area := Engine.ClampArea(req.rawArea);
    var pack := DerivePackFromArea(area);
    var ereq := AsEngineRequest(req);
    var applies := req.studette || area < 20.0;
    ThresholdsAgree(area);
    Engine.NonErpOfClean(selected);
    var lpart := DiagnosticsOf(selected, area, pack, req.purpose, prices);
    var epart := Engine.DiagnosticsOf(selected, area, pack, req.purpose, Scaling.Factor, prices);
    DiagnosticsAgree(selected, area, pack, req.purpose, prices);
    Engine.NormalQuoteParts(ereq, selected, prices);
    LegacyNormalParts(req, selected, prices);
  }

  /** A normal quote of this revision is assembled from its diagnostics part
      and the cap. */
  lemma LegacyNormalParts(req: Request, selected: seq<Diagnostic>, prices: PriceTable)
    requires req.job == Engine.Normal
    ensures var area := Engine.ClampArea(req.rawArea);
      var part := DiagnosticsOf(selected, area, DerivePackFromArea(area), req.purpose, prices);
      var q := CalculateTotal(req, selected, prices);
      && q.summary.bundle == part.bundle
      && q.summary.price == Engine.Capped(part.subtotal, req.studette || area < 20.0, req.purpose)
      && q.lines == part.lines + AddonLines(DerivePackFromArea(area), req)
      && q.total == Round2(q.summary.price + AddonsSubtotal(req))
  {
  }
}
