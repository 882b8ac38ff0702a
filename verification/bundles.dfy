/** `BUNDLE_PRICES` of assets/calc.js (the same table appears in
    assets/app.js): the flat price of a bundle of non-ERP diagnostics by
    band, purpose and number of diagnostics. */
module Bundles {
  import opened Wrappers
  import opened Domain
  import opened Areas

  /** One `BUNDLE_PRICES[band][purpose]` row. */
  function BundleRow(band: Band, purpose: Purpose): map<int, real> {
    match (band, purpose)
    case (Band45, Rent) => map[2 := 150.0, 3 := 180.0, 4 := 200.0, 5 := 250.0, 6 := 300.0]
    case (Band45, Sale) => map[2 := 150.0, 3 := 180.0, 4 := 225.0, 5 := 275.0, 6 := 340.0, 7 := 380.0]
    case (Band80, Rent) => map[2 := 180.0, 3 := 200.0, 4 := 250.0, 5 := 300.0, 6 := 350.0]
    case (Band80, Sale) => map[2 := 180.0, 3 := 210.0, 4 := 265.0, 5 := 310.0, 6 := 370.0, 7 := 420.0]
    case (Band100, Rent) => map[2 := 200.0, 3 := 220.0, 4 := 270.0, 5 := 320.0, 6 := 370.0]
    case (Band100, Sale) => map[2 := 200.0, 3 := 230.0, 4 := 280.0, 5 := 330.0, 6 := 385.0, 7 := 455.0]
  }

  /** `BUNDLE_PRICES[band]?.[purpose]?.[count]`. */
  function BundlePrice(band: Band, purpose: Purpose, count: int): Option<real> {
    var row := BundleRow(band, purpose);
    if count in row then Some(row[count]) else None
  }

  /** The largest bundle: six diagnostics for rent, seven for sale. */
  function MaxBundleCount(purpose: Purpose): int {
    match purpose
    case Rent => 6
    case Sale => 7
  }

  /** A bundle exists exactly for 2..6 diagnostics (rent) or 2..7 (sale), in
      every band, and its price is positive, so the source's truthiness test
      `bundleMap[count]` is an existence test. */
  lemma BundleDomain(band: Band, purpose: Purpose, count: int)
    ensures BundlePrice(band, purpose, count).Some? <==> 2 <= count <= MaxBundleCount(purpose)
    ensures BundlePrice(band, purpose, count).Some? ==> BundlePrice(band, purpose, count).value > 0.0
  {
  }

  /** Within a band and purpose, one more diagnostic always costs more. */
  lemma BundleIncreasesWithCount(band: Band, purpose: Purpose, count: int)
    requires BundlePrice(band, purpose, count).Some? && BundlePrice(band, purpose, count + 1).Some?
    ensures BundlePrice(band, purpose, count).value < BundlePrice(band, purpose, count + 1).value
  {
  }

  /** For the same purpose and count, band_45 never costs more than band_80,
      and band_80 is strictly cheaper than band_100. */
  lemma BundleIncreasesWithBand(purpose: Purpose, count: int)
    requires BundlePrice(Band100, purpose, count).Some?
    ensures BundlePrice(Band80, purpose, count).Some? && BundlePrice(Band45, purpose, count).Some?
    ensures BundlePrice(Band45, purpose, count).value <= BundlePrice(Band80, purpose, count).value
    ensures BundlePrice(Band80, purpose, count).value < BundlePrice(Band100, purpose, count).value
  {
  }
}
