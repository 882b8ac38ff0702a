/** Worked quotes: the bundle, multiplier, cap and flat-job cases the pricing
    rules are usually explained with, each derived from the model. */
module Scenarios {
  import opened Wrappers
  import opened Money
  import opened Domain
  import opened Areas
  import opened Bundles
  import opened Scaling
  import opened State
  import opened Engine

  const Amiante: Diagnostic := Diagnostic(AmianteId, "AMIANTE")
  const Dpe: Diagnostic := Diagnostic(DpeId, "DPE")
  const Plomb: Diagnostic := Diagnostic(PlombId, "PLOMB")
  const Erp: Diagnostic := Diagnostic(ErpId, "ERP")

  /** 60 m2 for rent, AMIANTE and DPE, apartment: the band_80 bundle of two
      is 180, whatever the price table says. */
  lemma TwoDiagnosticsAt60ForRent(prices: PriceTable)
    ensures var q := CalculateTotal(Request(60.0, Rent, Normal, false, false, Apartment, Factor), [Amiante, Dpe], prices);
      q.summary.bundle && q.summary.price == 180.0 && q.total == 180.0
  {
    var sel := [Amiante, Dpe];
    var req := Request(60.0, Rent, Normal, false, false, Apartment, Factor);
    NonErpOfClean(sel);
    Round2OfWholeCents(18000);
    var part := DiagnosticsOf(sel, 60.0, F4, Rent, Factor, prices);
    assert BundleFor(sel, 60.0, Rent) == Some(180.0);
    assert part.subtotal == 180.0;
    assert AddonLines(60.0, F4, req, false, prices) == [];
  }

  /** 40 m2 for sale, AMIANTE, DPE and PLOMB: the band_45 bundle of three is
      180 rather than the sum of three F2 prices; a house adds 50. */
  lemma ThreeDiagnosticsAt40ForSale(prices: PriceTable, propType: PropType)
    ensures var q := CalculateTotal(Request(40.0, Sale, Normal, false, false, propType, Factor), [Amiante, Dpe, Plomb], prices);
      && q.summary.bundle && q.summary.price == 180.0
      && q.total == (if propType == House then 230.0 else 180.0)
  {
    var sel := [Amiante, Dpe, Plomb];
    var req := Request(40.0, Sale, Normal, false, false, propType, Factor);
    NonErpOfClean(sel);
    ThreeAt40Part(prices);
    NormalQuoteParts(req, sel, prices);
    var q := CalculateTotal(req, sel, prices);
    var extra := AddonsSubtotal(40.0, F2, req, false, prices);
    assert q.total == Round2(180.0 + extra);
    var t := if propType == House then 23000 else 18000;
    assert 180.0 + extra == t as real / 100.0;
    Round2OfWholeCents(t);
  }

  /** The diagnostics part of that quote: the band_45 bundle of three. */
  lemma ThreeAt40Part(prices: PriceTable)
    ensures DerivePackFromArea(40.0) == F2
    ensures var part := DiagnosticsOf([Amiante, Dpe, Plomb], 40.0, F2, Sale, Factor, prices);
      part.bundle && part.subtotal == 180.0
  {
    Round2OfWholeCents(18000);
    assert BundleFor([Amiante, Dpe, Plomb], 40.0, Sale) == Some(180.0);
  }

  /** 120 m2 for sale with DPE alone, multiplier, on any table whose DPE
      sale price for F5 is 190: 190 times 1.2 is 228. */
  lemma DpeAt120ForSale(prices: PriceTable)
    requires PriceOr(prices, DpeId, F5, Sale, 0.0) == 190.0
    ensures var q := CalculateTotal(Request(120.0, Sale, Normal, false, false, Apartment, Factor), [Dpe], prices);
      && !q.summary.bundle && q.summary.price == 228.0 && q.total == 228.0
      && q.summary.adjustment == Some(FromFactor(1.2))
  {
    var sel := [Dpe];
    var req := Request(120.0, Sale, Normal, false, false, Apartment, Factor);
    NonErpOfClean(sel);
    NormalQuoteParts(req, sel, prices);
    assert DerivePackFromArea(120.0) == F6Plus;
    Round2OfWholeCents(22800);
    assert 190.0 * (120.0 / 100.0) == 228.0;
    var s := ItemScaled(Dpe, 120.0, F6Plus, Sale, Factor, prices);
    assert s == ScaledAmount(228.0, Some(FactorAdjustment(1.2)));
    var lines := ItemLines(sel, 120.0, F6Plus, Sale, Factor, prices);
    assert SumPrices(lines) == 228.0;
    assert BundleFor(sel, 120.0, Sale).None?;
    var part := DiagnosticsOf(sel, 120.0, F6Plus, Sale, Factor, prices);
    assert part.subtotal == 228.0;
    assert part.notes == [] by {
      assert sel[1..] == [];
      assert ScalingNotes(AsWritten, ItemNamed("DPE"), 120.0, Factor, s) == [];
      assert ItemNotes(AsWritten, sel, 120.0, F6Plus, Sale, Factor, prices)
        == ScalingNotes(AsWritten, ItemNamed("DPE"), 120.0, Factor, s) + ItemNotes(AsWritten, [], 120.0, F6Plus, Sale, Factor, prices);
    }
    assert AddonLines(120.0, F6Plus, req, false, prices) == [];
  }

  /** A table holding the F5 seed value of DPE prices DPE at 190 there. */
  lemma DpeFromSeed(prices: PriceTable, u: Purpose)
    requires Lookup(prices, SeedOrder[1], F5, u) == Some(SeedRow(F5)[1])
    ensures PriceOr(prices, DpeId, F5, u, 0.0) == 190.0
  {
    SeedIds();
    SeedValues();
  }

  /** A table holding the F5 seed value of ERP prices ERP at 40 there. */
  lemma ErpFromSeed(prices: PriceTable, u: Purpose)
    requires Lookup(prices, SeedOrder[7], F5, u) == Some(SeedRow(F5)[7])
    ensures PriceOr(prices, ErpId, F5, u, ErpFallback) == 40.0
  {
    SeedIds();
    SeedValues();
  }

  /** A table holding a zero F6+ cell for ERP prices ERP at 0 there. */
  lemma ErpFromUnseeded(prices: PriceTable, u: Purpose)
    requires Lookup(prices, SeedOrder[7], F6Plus, u) == Some(0.0)
    ensures PriceOr(prices, ErpId, F6Plus, u, ErpFallback) == 0.0
  {
    SeedIds();
  }

  /** The initial table prices DPE at 190 on F5. */
  lemma InitialDpeOnF5(u: Purpose)
    ensures PriceOr(InitialState().prices, DpeId, F5, u, 0.0) == 190.0
  {
    InitialSeedPrice(1, F5, u);
    DpeFromSeed(InitialState().prices, u);
  }

  /** The initial table prices ERP at 40 on F5. */
  lemma InitialErpOnF5(u: Purpose)
    ensures PriceOr(InitialState().prices, ErpId, F5, u, ErpFallback) == 40.0
  {
    InitialSeedPrice(7, F5, u);
    ErpFromSeed(InitialState().prices, u);
  }

  /** The initial table prices ERP at 0 on F6+, which the seed never writes. */
  lemma InitialErpOnF6Plus(u: Purpose)
    ensures PriceOr(InitialState().prices, ErpId, F6Plus, u, ErpFallback) == 0.0
  {
    InitialUnseededPrice(7, u);
    ErpFromUnseeded(InitialState().prices, u);
  }

  /** On the initial table the same quote is 228. */
  lemma DpeAt120OnInitialTable()
    ensures CalculateTotal(Request(120.0, Sale, Normal, false, false, Apartment, Factor), [Dpe], InitialState().prices).total == 228.0
  {
    InitialDpeOnF5(Sale);
    DpeAt120ForSale(InitialState().prices);
  }

  /** Seven non-ERP diagnostics for a studette with the ERP report offered:
      the sale bundle of seven is 380 or more in every band, but the cap holds
      the subtotal at 300 and the ERP line, if any, is free. */
  lemma StudetteCapsBundle(area: real, selected: seq<Diagnostic>, prices: PriceTable)
    requires 20.0 <= area <= 100.0 && |NonErp(selected)| == 7
    ensures var q := CalculateTotal(Request(area, Sale, Normal, true, true, Apartment, Factor), selected, prices);
      && q.summary.bundle && q.summary.count == 7 && q.summary.price == 300.0 && q.total == 300.0
  {
    var req := Request(area, Sale, Normal, true, true, Apartment, Factor);
    var items := NonErp(selected);
    var pack := DerivePackFromArea(area);
    SevenForSalePart(area, items, prices);
    NormalQuoteParts(req, selected, prices);
    assert AddonsSubtotal(area, pack, req, HasErp(selected), prices) == 0.0;
    Round2OfWholeCents(30000);
    assert 300.0 + 0.0 == 30000 as real / 100.0;
  }

  /** The default catalogue is seven diagnostics and the ERP report. */
  lemma DefaultCatalogueSplit()
    ensures |NonErp(DefaultDiagnostics)| == 7 && HasErp(DefaultDiagnostics)
  {
    var items := DefaultDiagnostics[..7];
    assert DefaultDiagnostics == items + [Erp];
    NonErpOfClean(items);
    NonErpAppend(items, [Erp]);
    assert NonErp([Erp]) == [];
    assert DefaultDiagnostics[7].id == ErpId;
  }

  /** Seven diagnostics for sale at 20..100 m2 take the bundle, and the
      bundle of seven costs at least 300 in every band. */
  lemma SevenForSalePart(area: real, items: seq<Diagnostic>, prices: PriceTable)
    requires 20.0 <= area <= 100.0 && |items| == 7
    ensures var part := DiagnosticsOf(items, area, DerivePackFromArea(area), Sale, Factor, prices);
      part.bundle && part.subtotal >= 300.0
  {
    var band := AreaBand(area);
    BundleDomain(band, Sale, 7);
    var b := BundlePrice(band, Sale, 7).value;
    assert b >= 380.0;
    var part := DiagnosticsOf(items, area, DerivePackFromArea(area), Sale, Factor, prices);
    assert part.subtotal == Round2(b);
    Round2Monotone(300.0, b);
    Round2OfWholeCents(30000);
    assert 300.0 == 30000 as real / 100.0;
  }

  /** Selecting the whole default catalogue as a studette: 300. */
  lemma StudetteWholeCatalogue(area: real, prices: PriceTable)
    requires 20.0 <= area <= 100.0
    ensures CalculateTotal(Request(area, Sale, Normal, true, true, Apartment, Factor), DefaultDiagnostics, prices).total == 300.0
  {
    DefaultCatalogueSplit();
    StudetteCapsBundle(area, DefaultDiagnostics, prices);
  }

  /** The ERP price of a parking job is read from the area's own pack, so
      above 100 m2 it comes from the F6+ row; a normal job of the same size
      reads the F5 row. With F6+ at 0 and F5 at 40, the parking job adds
      nothing for ERP while the normal job charges 40. */
  lemma ParkingErpReadsF6Row(prices: PriceTable)
    requires PriceOr(prices, ErpId, F6Plus, Sale, ErpFallback) == 0.0
    requires PriceOr(prices, ErpId, F5, Sale, ErpFallback) == 40.0
    ensures CalculateTotal(Request(120.0, Sale, Parking, false, false, Apartment, Factor), [Erp], prices).total == 170.0
    ensures CalculateTotal(Request(120.0, Sale, Normal, false, false, Apartment, Factor), [Erp], prices).total == 40.0
  {
    assert DerivePackFromArea(120.0) == F6Plus;
    assert HasErp([Erp]) by { assert [Erp][0].id == ErpId; }
    assert NonErp([Erp]) == [];
    Round2OfWholeCents(17000);
    Round2OfWholeCents(4000);
    var req := Request(120.0, Sale, Normal, false, false, Apartment, Factor);
    NormalQuoteParts(req, [Erp], prices);
    assert DiagnosticsOf([], 120.0, F6Plus, Sale, Factor, prices).subtotal == 0.0;
    assert AddonsSubtotal(120.0, F6Plus, req, true, prices) == 40.0;
  }

  /** The initial table shows it: ERP on a 120 m2 parking is free, on a
      normal job of the same size it costs 40. */
  lemma ParkingErpOnInitialTable()
    ensures CalculateTotal(Request(120.0, Sale, Parking, false, false, Apartment, Factor), [Erp], InitialState().prices).total == 170.0
    ensures CalculateTotal(Request(120.0, Sale, Normal, false, false, Apartment, Factor), [Erp], InitialState().prices).total == 40.0
  {
    InitialErpOnF5(Sale);
    InitialErpOnF6Plus(Sale);
    ParkingErpReadsF6Row(InitialState().prices);
  }
}
