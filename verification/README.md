# Diagnostics quote pricer — a Dafny model of the pricing engine

The repository is a browser tool that quotes real-estate diagnostic work:
asbestos (AMIANTE), energy performance (DPE), floor area (CARREZ/BOUTIN),
lead (PLOMB), termites, gas, electricity, and the flat-fee risk report (ERP).

The user enters a surface area, a purpose (rent or sale), a property type, a
job type (normal, parking or cave) and a selection of diagnostics. The
engine turns these into an itemised quote. It applies:

- a size pack (F1..F5, F6+) and an area band (band_45, band_80, band_100);
- per-diagnostic table prices or a flat bundle price for 2..7 diagnostics;
- above 100 m², either the linear multiplier or the stepped "Philippe"
  method driven by a reference pair;
- the small-lot cap (250 for rent, 300 for sale);
- the 50 house surcharge and the ERP add-on;
- rounding to cents.

The model covers the current revision (`assets/calc.js`, `assets/state.js`,
`assets/diagnostics.js`, `assets/helpers.js`, `assets/invoice.js`). The older
single-file revision `assets/app.js` is modelled separately in `Legacy` and
compared with the current one.

Modules (one per file):

| module | file | what it holds |
|---|---|---|
| `Wrappers` | wrappers.dfy | `Option` |
| `Money` | money.dfy | `roundCurrency` as `Round2` on real amounts |
| `Domain` | domain.dfy | packs, purposes, property types, diagnostics, the price table |
| `Areas` | areas.dfy | pack and band classification of an area, the display label |
| `Bundles` | bundles.dfy | `BUNDLE_PRICES` |
| `Scaling` | scaling.dfy | reference pairs, `computeScaledAmount`, the fallback note |
| `State` | state.dfy | default, seeded and normalised price tables, `setState` |
| `Selection` | diagnostics.dfy | toggling and filtering the selection |
| `Text` | text.dfy | JavaScript `trim`, `split(/\s+/)`, `join`, case mapping |
| `Html` | html.dfy | `escapeHtml` and a reference decoder |
| `Engine` | engine.dfy | `calculateTotal` of the current revision |
| `Invoice` | invoice.dfy | invoice labels, street sanitising, form validation, invoice sync |
| `Scenarios` | scenarios.dfy | worked quotes |
| `Legacy` | legacy.dfy | `calculateTotal` and helpers of `assets/app.js` |

Modelling choices:

- **Money.** Amounts are `real`. `Round2(x)` is `floor(100·x + 0.5) / 100`,
  which is JavaScript's `Math.round(x·100) / 100` for the half-up rounding
  it performs.
- **Price table.** It is a `map<string, map<Pack, Entry>>`. An `Entry` holds
  an optional rent and an optional sale price, so half-filled entries and
  the `?? 0` / `?? 40` defaults of the source are represented faithfully.
- **DOM inputs.** Everything the engine reads from the page arrives in a
  `Request`: the raw area, purpose, job type, studette and agent options,
  property type and scaling method. The selection is the output of
  `getSelectedDiagnostics`, and the price table is `state.prices`.
- **TERMITES for rent.** `calculateTotal` does not filter TERMITES out of
  a rent selection itself; only `getSelectedDiagnostics`
  (`assets/diagnostics.js:10-18`) drops it, so `Engine.CalculateTotal` prices
  whatever selection it is given.
- **ERP price on a normal job.** The ERP add-on reads the F5 row above
  100 m² and the area's own pack otherwise (`assets/calc.js:260-261`).
- **The "stepped method unavailable" note.** `Engine.CalculateTotal`
  follows `assets/calc.js` as written, where that note can never be emitted
  (see Findings). The corrected behaviour, where the note appears whenever
  the stepped method falls back, is `Engine.CorrectedQuote`; it differs
  from the engine only in its notes and the summary adjustment they feed.
- **ERP price on a parking or cave job.** The ERP price is read from the
  area's own pack (`assets/calc.js:148`, `170`). Above 100 m² that pack is
  F6+, which the seed never fills, so on the initial table it is 0. This is
  stated as `Scenarios.ParkingErpOnInitialTable` and not claimed as a defect.

## Model

| member | source | states |
|---|---|---|
| Money.Round2 | assets/calc.js:21 | the rounded amount is a whole number of cents and lies in (x − 0.005, x + 0.005], so halves round up |
| Money.Round2Unique | assets/calc.js:21 | rounding returns the one cent amount in that half-open window, so any cent amount in it is the result |
| Money.Round2Idempotent | assets/calc.js:21 | rounding an amount already in cents changes nothing |
| Money.Round2Monotone | assets/calc.js:21 | rounding never reverses the order of two amounts |
| Money.Round2OfWholeCents | assets/calc.js:21 | n/100 is returned unchanged for every integer n |
| Areas.DerivePackFromArea | assets/calc.js:5-12 | the pack is the first in F1..F6+ whose area bound covers the area, and no earlier pack covers it |
| Areas.PackThresholds | assets/calc.js:5-12 | each pack is chosen exactly on its interval: F1 < 30, F2 < 45, F3 < 60, F4 < 80, F5 ≤ 100, F6+ above |
| Areas.PackMonotone | assets/calc.js:5-12 | a larger area never yields a smaller pack |
| Areas.DisplayPackLabel | assets/calc.js:13-20 | the label reads "F3/F4" exactly for 60 ≤ area < 80, otherwise it names the derived pack; it is never empty |
| Areas.DisplayLabelAgreesWithPack | assets/calc.js:13-20 | outside [60, 80) the label is the pack's name, and inside it the pack is F4 |
| Areas.AreaBand | assets/calc.js:42-46 | the band is the first whose limit (BAND_AREA_LIMITS) covers the area, band_100 above 80 m² including above 100 m² |
| Areas.BandThresholds | assets/calc.js:42-46 | band_45 exactly for area ≤ 45, band_80 for 45 < area ≤ 80, band_100 above |
| Areas.BandMonotone | assets/calc.js:42-46 | a larger area never yields a smaller band |
| Bundles.BundleDomain | assets/calc.js:23-36 | a bundle price exists exactly for 2..6 diagnostics for rent and 2..7 for sale, in every band, and it is positive |
| Bundles.BundleIncreasesWithCount | assets/calc.js:23-36 | one more diagnostic in a bundle always costs strictly more |
| Bundles.BundleIncreasesWithBand | assets/calc.js:23-36 | wherever band_100 has a price, band_45 ≤ band_80 < band_100 for the same count |
| Scaling.SearchDiagPair | assets/calc.js:58-69 | the pair keeps the F5 base price; it has no step exactly when no pack among F4, F3, F2, F1 is a candidate (a positive price below the base); otherwise it uses the first candidate in that order, with the price difference and 100 minus the pack's bound |
| Scaling.DiagPairUsable | assets/calc.js:53-70 | a diagnostic has a usable pair iff it is in the table with a positive F5 price and some lower pack is a candidate; the step is then 20, 40, 55 or 70 m² |
| Scaling.SearchBundlePair | assets/calc.js:75-84 | the bundle pair keeps the band_100 price as base and has a zero difference when no lower band qualifies |
| Scaling.BundlePairAlwaysAtBand80 | assets/calc.js:72-85 | every count with a band_100 bundle gets the band_80 pair (difference to band_80 over 20 m²), which is usable; other counts get none |
| Scaling.ComputeScaledAmount | assets/calc.js:87-121 | up to 100 m² the rounded base with no adjustment; above, the stepped price when asked for with a usable pair, else the base times area/100; above 100 m² an adjustment is always recorded |
| Scaling.ScaledPriceMonotone | assets/calc.js:87-121 | for a non-negative base, a larger area never gets a lower scaled price, under either method |
| Scaling.UnroundedMonotone | assets/calc.js:87-121 | for a non-negative base, the unrounded scaled amount never decreases as the area grows, including across 100 m² |
| Scaling.FallbackNoteAsWrittenNeverFires | assets/calc.js:231-232 | the note condition as written never holds for a computed amount, yet at 120 m² with no pair the stepped method fell back |
| Scaling.FallbackNoteExact | assets/calc.js:212-213 | the corrected note fires exactly when the stepped method is asked for above 100 m² and no usable pair exists |
| State.MakeDefaultPrices | assets/state.js:34-43 | every catalogue diagnostic gets all six packs, with both prices 0 |
| State.SeededRow | assets/state.js:54-62 | a seeded row has the old packs plus F1..F5, each F1..F5 entry set to the seed value for rent and sale, and F6+ untouched |
| State.SeedOrderDistinct | assets/state.js:46 | the eight ids of the seed order are pairwise distinct |
| State.SeedFrom | assets/state.js:54-62 | seeding from position k writes exactly the rows of the ids from k on and leaves every other row as it was |
| State.SeedStep | assets/state.js:54-62 | seeding one id and then the rest is the same as seeding from that id |
| State.SeedSpecDefaults | assets/state.js:45-64 | the seeded table has every seed id's F1..F5 set to its column of the seed table, and nothing else changed |
| State.Fill | assets/state.js:71 | a filled entry has both prices, and an entry that had both is kept |
| State.NormalizePrices | assets/state.js:66-75 | the result holds exactly the catalogue's ids, each with all six packs, and every price is the old one or 0 when it was missing |
| State.NormalizedIsFixpoint | assets/state.js:66-75 | a table already normalised for the catalogue is returned unchanged |
| State.NormalizeIdempotent | assets/state.js:66-75 | normalising twice is normalising once |
| State.DefaultPricesAreNormal | assets/state.js:66-75 | the all-zero default table is already normal |
| State.SetState | assets/state.js:85-96 | fields given in the update replace the state's; the prices are renormalised for the resulting catalogue from the new table, or the old one when none is given |
| State.SetStateKeepsPrices | assets/state.js:85-96 | an update touching neither the catalogue nor the prices leaves a normal table and the catalogue unchanged |
| State.SetStateIdempotent | assets/state.js:85-96 | applying the same update twice is applying it once |
| State.CatalogueIsSeedOrder | assets/state.js:46 | the seed order names exactly the ids of the default catalogue |
| State.CatalogueAlignsWithSeed | assets/state.js:46 | the seed order lists the default catalogue's ids in catalogue order |
| State.SeededZeroIsNormal | assets/state.js:77-83 | seeding a zeroed table over the catalogue gives a normal table whose F6+ cells are 0 |
| State.InitialState | assets/state.js:77-83 | the initial state has the default catalogue, no selection, an apartment and a normal price table |
| State.InitialStateSeeded | assets/state.js:77-83 | the initial table is the default table seeded, with every F6+ cell at 0 |
| State.InitialSeedPrice | assets/state.js:77-83 | in the initial table every seed id prices F1..F5 at its seed value for both purposes |
| State.InitialUnseededPrice | assets/state.js:77-83 | in the initial table every F6+ price is 0 |
| State.SeedValues | assets/state.js:52 | the F5 seed prices DPE at 190 and ERP at 40 |
| Selection.Dedup | assets/diagnostics.js:6 | building the set keeps exactly the same ids, each once |
| Selection.DedupOfNoDup | assets/diagnostics.js:6 | a list without repeats comes back as it was |
| Selection.Toggle | assets/diagnostics.js:5-8 | the toggled id is present exactly when it was absent, every other id keeps its presence, and there are no repeats |
| Selection.ToggleTwiceSameIds | assets/diagnostics.js:5-8 | toggling the same id twice gives back the same set of ids |
| Selection.ToggleTwiceRestores | assets/diagnostics.js:5-8 | on a repeat-free list without the id, toggling twice gives back the very same list |
| Selection.ToggleSelectedDiagnostic | assets/diagnostics.js:5-9 | the state update changes only the selection, to the toggled ids, and keeps the prices normal |
| Selection.ToggleKeepsPrices | assets/diagnostics.js:5-9 | on a normal table a toggle leaves the prices unchanged |
| Selection.GetSelectedDiagnostics | assets/diagnostics.js:10-18 | the result holds exactly the catalogue entries that are selected and offered for the purpose (TERMITES never for rent) |
| Selection.RentNeverTermites | assets/diagnostics.js:10-18 | a rent selection never contains TERMITES |
| Selection.SelectionIgnoresOrder | assets/diagnostics.js:10-18 | two id lists with the same members select the same diagnostics |
| Selection.SelectionAppend | assets/diagnostics.js:10-18 | selecting over two catalogue halves is the concatenation of the two selections, so catalogue order is kept |
| Html.EscapeChar | assets/helpers.js:10 | an escaped character is never empty and never contains <, >, " or ' |
| Html.EscapeHtml | assets/helpers.js:10 | the escaped text is no shorter and contains none of <, >, " or ' |
| Html.EscapeAppend | assets/helpers.js:10 | escaping distributes over concatenation |
| Html.EscapeIdentity | assets/helpers.js:10 | text without any of & < > " ' is unchanged |
| Html.EscapeGrowsIffSpecial | assets/helpers.js:10 | the text keeps its length exactly when it holds none of the five characters |
| Html.UnescapeEscape | assets/helpers.js:10 | decoding the five entities undoes escaping for every string |
| Html.EscapeInjective | assets/helpers.js:10 | different strings never escape to the same text |
| Text.Trim | assets/helpers.js:8 | the result is the input minus white space at both ends, and has none left at either end |
| Text.TrimIdempotent | assets/helpers.js:8 | trimming twice is trimming once |
| Text.SplitWs | assets/invoice.js:17 | the pieces hold no white space, inner pieces are non-empty, a leading run gives an empty first piece, and a single piece means the input had no white space |
| Text.SplitJoin | assets/invoice.js:17-22 | splitting a single-space join of valid pieces gives the pieces back |
| Text.Upper | assets/invoice.js:20-21 | upper-casing never shortens, at most doubles the length, and adds no white space |
| Text.Lower | assets/invoice.js:20 | lower-casing maps character by character and keeps the length |
| Invoice.CasedParts | assets/invoice.js:18-21 | the first piece is capitalised and every later piece upper-cased, one for one |
| Invoice.CasingKeepsPieces | assets/invoice.js:19-21 | casing a piece adds no white space and keeps it empty exactly when it was |
| Invoice.FormatKeepsWords | assets/invoice.js:15-23 | the formatted label splits into the same pieces as the input, cased |
| Invoice.FormatEmptyIff | assets/invoice.js:15-23 | the label is empty exactly when the input is |
| Invoice.OrdinalLength | assets/invoice.js:53 | the ordinal suffix skipped is none, "bis"/"ter" or "quater" (length 0, 3 or 6) and stays in the string |
| Invoice.SanitizeStreetName | assets/invoice.js:51-54 | the street name is trimmed, empty for empty input, and never longer than the input |
| Invoice.SanitizeStripsHouseNumber | assets/invoice.js:51-54 | any input made of white space, a house number, optional white space, an optional bis/ter/quater in any case, white space, an optional comma or hyphen, white space and then a street comes back as the trimmed street |
| Invoice.SanitizeWithoutNumber | assets/invoice.js:51-54 | a street not starting with a digit is only trimmed |
| Invoice.SanitizeStripsNumber | assets/invoice.js:51-54 | "12 rue X" loses the number and keeps "rue X" |
| Invoice.SanitizeStripsNumberAndOrdinal | assets/invoice.js:51-54 | "12 bis, rue X" loses the number, the ordinal and the comma |
| Invoice.PersonNameRule | assets/invoice.js:39-43 | outside the company civility a last name is always required, and a first and a last name always suffice |
| Invoice.CompanyNameRule | assets/invoice.js:40 | for a company only the company name decides whether a name is given |
| Invoice.ValidityIsMonotone | assets/invoice.js:39-45 | filling in more fields never makes a valid invoice form invalid |
| Invoice.DesignationCases | assets/invoice.js:183-186 | the designation is the pack text, the ERP text, both joined by " · ", or empty, and it is empty exactly when there is neither |
| Invoice.DesignationOfNormalQuote | assets/invoice.js:176-186 | on a normal job the pack text lists exactly the non-ERP diagnostics, and ERP appears only through its own text |
| Invoice.CapitalWord | assets/invoice.js:15-23 | a one-word label in ASCII capitals is described with its first letter kept and the rest lower-cased |
| Invoice.ApartmentDescription | assets/invoice.js:209 | "APPARTEMENT L" is described as "Appartement" followed by L upper-cased, for any one-word label |
| Invoice.ApartmentTypeAndDescription | assets/invoice.js:193-211 | an apartment's type is "APPARTEMENT" plus the displayed pack label, and its description is "Appartement" plus that label upper-cased |
| Invoice.OtherTypesAndDescriptions | assets/invoice.js:193-211 | a cave, parking or house gets the type CAVE, PARKING or MAISON and the description Cave, Parking or Maison |
| Engine.ClampArea | assets/calc.js:125 | the area is never negative and equals the input when that is not negative |
| Engine.AreaFactor | assets/calc.js:138 | the factor is 1 up to 100 m² and area/100, above 1, beyond |
| Engine.NonErp | assets/calc.js:136 | the non-ERP part keeps exactly the selected diagnostics that are not ERP |
| Engine.HasErpIffFilterShrinks | assets/calc.js:135-136 | ERP is selected exactly when dropping ERP shortens the selection |
| Engine.Names | assets/calc.js:277 | the summary names are the diagnostics' names, one for one |
| Engine.ScalingNotes | assets/calc.js:205-214 | at most one note: a stepped note exactly when the stepped method was applied, and the fallback note exactly when the chosen rule's condition holds (the code's condition as written, or the corrected one) |
| Engine.BundlePart | assets/calc.js:198-215 | on the bundle branch every diagnostic gets a zero-price line on its pack, so the lines add up to 0; the subtotal and adjustment are the bundle price scaled with the bundle's pair; up to 100 m² that is the rounded bundle price with no adjustment or note, above it an adjustment is always recorded |
| Engine.ItemLines | assets/calc.js:216-246 | one line per diagnostic, in selection order |
| Engine.ItemNotes | assets/calc.js:227-233 | the notes are exactly the per-item scaling notes of the selected diagnostics, under the chosen note rule |
| Engine.ItemsPart | assets/calc.js:216-246 | without a bundle the subtotal is the sum of the item line prices, with no bundle base or adjustment, and the notes are the per-item notes as the code writes them |
| Engine.DiagnosticsOf | assets/calc.js:191-246 | the bundle branch is taken exactly when a bundle exists for the count, and its subtotal and adjustment are then the band's bundle price scaled with the bundle's pair; otherwise the lines are the item lines and the subtotal their sum; the notes are those of the code as written |
| Engine.BundleForIff | assets/calc.js:198 | a bundle exists exactly for 2..6 (rent) or 2..7 (sale) diagnostics |
| Engine.Capped | assets/calc.js:248-251 | the cap never raises the subtotal; it replaces it by 250 or 300 exactly when the cap applies and is exceeded |
| Engine.AddonLinesSum | assets/calc.js:253-273 | the add-on counter equals the sum of the add-on line prices |
| Engine.SummaryAdjustmentOf | assets/calc.js:285-295 | the summary carries an adjustment exactly above 100 m²: the bundle's adjustment when there is one, else the collected stepped notes when there are any, else the factor area/100 |
| Engine.CalculateTotal | assets/calc.js:123-298 | the quote's area is the clamped area and its pack the derived pack; erpSelected says whether ERP was chosen; the total is in cents |
| Engine.TotalWithoutErp | assets/calc.js:253-275 | without ERP a normal total is the capped subtotal plus 50 for a house, rounded |
| Engine.NormalQuoteLines | assets/calc.js:188-273 | a normal quote's lines are the diagnostics' lines, then the house line, then the ERP line |
| Engine.NormalQuoteParts | assets/calc.js:248-283 | the summary shows the bundle flag, the non-ERP count and the capped subtotal; the total is that plus the add-ons, rounded |
| Engine.BundleUsedIff | assets/calc.js:198-251 | the bundle is used exactly for 2..6 (rent) or 2..7 (sale) non-ERP diagnostics; its base is the band's price, the diagnostic lines are free, and the summary price is the bundle price scaled with the bundle's pair, then capped |
| Engine.SummaryIgnoresErp | assets/calc.js:276-283 | two selections with the same non-ERP part get the same summary, which counts and names only the non-ERP diagnostics |
| Engine.NormalTotalDecomposes | assets/calc.js:248-275 | total = round(capped subtotal + 50 for a house + the ERP price when selected), and under the cap the subtotal is at most 250/300 |
| Engine.LinesAddUpToTotal | assets/calc.js:216-275 | without a bundle and when the cap does not bite, the total is the rounded sum of the line prices |
| Engine.ErpLineIffSelected | assets/calc.js:259-273 | there is one ERP line exactly when ERP was selected; it is last, reads the F5 row above 100 m², is free under the agent option and is never scaled |
| Engine.ParkingTotal | assets/calc.js:143-164 | a parking costs 170 plus the ERP price of the area's pack when ERP is selected and not offered, with the fixed AMIANTE/TERMITES summary |
| Engine.CaveTotal | assets/calc.js:165-186 | a cave is always a sale at 170 plus the ERP sale price when selected and not offered, with the fixed CAVE summary |
| Engine.SummaryAdjustedIffLarge | assets/calc.js:285-295 | a normal quote's summary has an adjustment exactly above 100 m² |
| Engine.AsWrittenNotesAllStepped | assets/calc.js:205-233 | every note of a quote is a stepped-method note: the fallback note is never emitted, for a bundle or an item |
| Engine.FallbackLeavesNoTrace | assets/calc.js:227-292 | one diagnostic above 100 m² with the stepped method asked for and no usable pair: the quote has no notes, and its line and summary carry only the factor area/100 |
| Engine.CorrectedQuote | assets/calc.js:123-298 | the quote with the corrected note rule equals the engine's apart from its notes and summary adjustment, and equals it outright on parking and cave jobs |
| Engine.CorrectedUnavailableNoteIff | assets/calc.js:231-233 | under the corrected rule a diagnostic gets the fallback note exactly when the stepped method is asked for above 100 m² and it has no usable pair, and that note reaches the corrected quote |
| Engine.CorrectedFallbackIsReported | assets/calc.js:227-292 | in the same one-diagnostic case the corrected quote carries exactly the fallback note, and its summary adjustment is that note |
| Scenarios.TwoDiagnosticsAt60ForRent | assets/calc.js:191-215 | AMIANTE and DPE at 60 m² for rent cost 180 (band_80 bundle of two) |
| Scenarios.ThreeDiagnosticsAt40ForSale | assets/calc.js:191-215 | AMIANTE, DPE and PLOMB at 40 m² for sale cost 180 (the band_45 bundle of three, not the sum of three F2 prices), 230 for a house |
| Scenarios.DpeAt120ForSale | assets/calc.js:216-246 | DPE alone at 120 m² for sale with the multiplier costs 190 × 1.2 = 228 |
| Scenarios.DpeAt120OnInitialTable | assets/calc.js:216-246 | the same quote on the initial table is 228 |
| Scenarios.InitialErpOnF6Plus | assets/state.js:77-83 | the initial table prices ERP at 0 on F6+ |
| Scenarios.DefaultCatalogueSplit | assets/state.js:1-10 | the default catalogue is seven diagnostics plus ERP |
| Scenarios.StudetteCapsBundle | assets/calc.js:248-251 | seven diagnostics for sale as a studette are capped at 300, and ERP offered to the agent adds nothing |
| Scenarios.StudetteWholeCatalogue | assets/calc.js:248-251 | selecting the whole default catalogue as a studette with the agent option costs 300 |
| Scenarios.ParkingErpReadsF6Row | assets/calc.js:143-164 | above 100 m² a parking reads ERP from F6+ while a normal job reads F5, so the same table gives different ERP prices |
| Scenarios.ParkingErpOnInitialTable | assets/calc.js:143-164 | on the initial table, ERP on a 120 m² parking is free, while on a normal job it costs 40 |
| Legacy.DerivePackFromArea | assets/app.js:63-70 | the older pack rule picks the first pack that covers the area |
| Legacy.DisplayPackLabel | assets/app.js:72-79 | the older label reads "F3/F4" exactly on [60, 80) and names the pack otherwise |
| Legacy.AreaBand | assets/app.js:57-61 | the older bands split at 45 and 80 |
| Legacy.ThresholdsAgree | assets/app.js:57-79 | all three classifiers agree with the current revision's on every area |
| Legacy.CatalogueWithoutErp | assets/app.js:3-11 | the older catalogue has no ERP entry |
| Legacy.SelectionOverCatalogue | assets/app.js:129-137 | over the older catalogue the filter yields exactly the selected entries offered for the purpose, never TERMITES for rent and never ERP |
| Legacy.NormalizeOverCatalogue | assets/app.js:577-586 | the older normalisation gives every catalogue id all six packs with the old price or 0, and no ERP row |
| Legacy.ErpLine | assets/app.js:204-209 | the older ERP line is always present: 40, or free under the agent option |
| Legacy.ScaleLinear | assets/app.js:180 | the older scaling is the rounded base up to 100 m² and the rounded base times area/100 beyond, always in cents |
| Legacy.ItemLines | assets/app.js:183-189 | the older per-item branch has one line per diagnostic, in order |
| Legacy.DiagnosticsOf | assets/app.js:175-190 | the older bundle branch is taken exactly when a bundle exists; its lines are free and its subtotal is the scaled bundle price |
| Legacy.AddonLinesSum | assets/app.js:199-209 | the older add-on counter equals the sum of the add-on lines |
| Legacy.CalculateTotal | assets/app.js:139-215 | every older quote has the clamped area and derived pack, a total in cents, the ERP line last, and a cave is a sale |
| Legacy.FlatJobTotals | assets/app.js:155-167 | an older parking or cave costs 210, or 170 under the agent option, with two lines |
| Legacy.BundleUsedIff | assets/app.js:175-181 | the older bundle is used exactly for 2..6 (rent) or 2..7 (sale) diagnostics, and the subtotal is the capped, scaled bundle price |
| Legacy.ItemPrices | assets/app.js:183-189 | each older item line reads F5 above 100 m² and costs its table price scaled linearly; the summary is their capped sum |
| Legacy.NormalTotalDecomposes | assets/app.js:192-214 | older total = round(capped subtotal + 50 for a house + 40 unless the agent option is on) |
| Legacy.ItemPriceAgrees | assets/app.js:183-189 | one diagnostic costs the same in both revisions under the multiplier |
| Legacy.ScaledAgrees | assets/app.js:180 | the older linear scaling equals the current multiplier branch |
| Legacy.ItemSumsAgree | assets/app.js:183-189 | the per-item sums agree between the revisions |
| Legacy.DiagnosticsAgree | assets/app.js:169-190 | the two revisions take the same branch and reach the same diagnostics subtotal |
| Legacy.SummariesAgree | assets/app.js:212-213 | on a selection without ERP, both revisions' summaries show the same price and bundle flag |
| Legacy.ErpIsTheOnlyDifference | assets/app.js:199-214 | on a selection without ERP, the revisions differ only by the older flat 40 ERP charge (none under the agent option) |
| Legacy.LegacyNormalParts | assets/app.js:169-214 | an older normal quote is its diagnostics part, capped, followed by the add-ons, and its total is their rounded sum |

## Left out

- The DOM: reading inputs, rendering chips, results and totals (`renderDiagnosticsList`, `renderResult`), and the select-option insertion in `syncInvoiceFromSelections`. These are presentation only; the values they read are `Request` fields.
- `localStorage` persistence and `clearPersistedState`: in the current revision `getState` always returns nothing, so the initial state is the seeded table.
- The address lookup and geocoding (`fetch` of an external service), `debounce` and timers, `safeOn`. These are I/O.
- `assets/export.js` (spreadsheet filling) and `assets/_placeholders.js` are not part of this model.
- Money.Round2: does not add `Number.EPSILON` before rounding, because on reals the nudge only matters for binary floating-point representation error, which the model does not have.
- Floating point in general. Prices are exact reals, so an amount such as 0.1 + 0.2 rounds as the exact sum would.
- `asNumber` and `Number(...)`: table prices are numbers or absent. Non-numeric strings and `NaN` are not modelled.
- The text of the notes built with `toFixed`. Notes are modelled as data: which subject, the stepped values, or the fallback.
- Text.Upper and Text.Lower: case mapping is modelled for ASCII and Latin-1 letters only. Other scripts are kept unchanged, whereas JavaScript maps them by the Unicode tables.
- The older revision's `makeDefaultPrices`, `seedSpecDefaults` and initial state (`assets/app.js:15-40`, `96-99`). They build the same seed as the current revision without the ERP column; only its normalisation is modelled.
- The older revision's `toggleSelectedDiagnostic` (`assets/app.js:123-127`) is the same set toggle as `Selection.Toggle` without the state update.
- The packSummary's `factor` field of the older revision and the per-line `base` and `factor` of flat jobs. They are displayed only.
- Legacy.FlatJobTotals: states totals and line count, not the line names, which the module's constants fix.
- State.SetState: a field of the update left as `None` keeps the state's old value. In `setState` (`assets/state.js:85-96`) a key present with the value `undefined` overwrites the field with `undefined`, and only `diagnostics` and `prices` fall back to the old value (`assets/state.js:86-88`); explicit `undefined` values are not modelled.
- Scaling.SearchBundlePair: its own contract is only the base and zero-difference facts; the exact pair it finds is stated by `Scaling.BundlePairAlwaysAtBand80`.

## Findings

| source | as written | input that shows it | evidently intended | confidence | as-written member | corrected member |
|---|---|---|---|---|---|---|
| assets/calc.js:231-232 | the "Methode Philippe indisponible - retour au multiplicateur" note is pushed only when the scaled amount has no adjustment, but above 100 m² the multiplier branch always records a factor adjustment (the same holds for the bundle note at calc.js:212-213, which sits on the else of `if (scaling.adjustment)`) | area 120, stepped method, base 130, no reference pair: the price falls back to 130 × 1.2 = 156 and no note is produced | the note appears whenever the stepped method was requested above 100 m² but could not be applied (no usable pair) | high, not executed | Scaling.FallbackNoteAsWrittenNeverFires, Engine.FallbackLeavesNoTrace | Scaling.FallbackNoteExact, Engine.CorrectedUnavailableNoteIff |
