/** The price-table store of assets/state.js: the all-zero table, the seeded
    defaults, normalisation and the state update that re-normalises. */
module State {
  import opened Wrappers
  import opened Domain

  const ZeroEntry: Entry := Entry(Some(0.0), Some(0.0))

  /** The table has exactly the catalogue's ids, each with exactly the six
      packs, and every cell holds both a rent and a sale value. */
  ghost predicate IsNormalizedFor(catalogue: seq<Diagnostic>, t: PriceTable) {
    && t.Keys == Ids(catalogue)
    && (forall id | id in t :: t[id].Keys == PackSet)
    && (forall id, p | id in t && p in t[id] :: t[id][p].Complete())
  }

  /** `makeDefaultPrices`: every catalogue id times every pack, all zero. */
  function MakeDefaultPrices(catalogue: seq<Diagnostic>): (r: PriceTable)
    ensures IsNormalizedFor(catalogue, r)
    ensures forall id, p | id in r && p in r[id] :: r[id][p] == ZeroEntry
  {
    map id | id in Ids(catalogue) :: map p | p in PackSet :: ZeroEntry
  }

  // ---------------------------------------------------------------------------
  // seedSpecDefaults

  /** The ids the seed walks, in the source's order. */
  const SeedOrder: seq<string> :=
    [AmianteId, DpeId, CarrezBoutinId, PlombId, TermitesId, GazId, ElectriciteId, ErpId]

  /** The number of seed ids. */
  const SeedCount: nat := 8

  /** The packs the seed writes; `F6+` is never seeded. */
  const SeedPacks: set<Pack> := {F1, F2, F3, F4, F5}

  /** The seed row of a pack, aligned with `SeedOrder`. */
  function SeedRow(p: Pack): (row: seq<real>)
    requires p in SeedPacks
    ensures |row| == SeedCount
  {
    match p
    case F1 => [100.0, 120.0, 120.0, 130.0, 100.0, 130.0, 130.0, 40.0]
    case F2 => [100.0, 120.0, 120.0, 130.0, 100.0, 130.0, 130.0, 40.0]
    case F3 => [120.0, 140.0, 140.0, 150.0, 130.0, 130.0, 130.0, 40.0]
    case F4 => [120.0, 190.0, 160.0, 170.0, 130.0, 130.0, 130.0, 40.0]
    case F5 => [130.0, 190.0, 180.0, 190.0, 160.0, 130.0, 130.0, 40.0]
  }

  /** The cell the seed writes for the `k`-th id on pack `p`. */
  function SeedEntry(p: Pack, k: nat): Entry
    requires p in SeedPacks && k < SeedCount
  {
    Entry(Some(SeedRow(p)[k]), Some(SeedRow(p)[k]))
  }

  /** The row of `id`, or an empty row (`prices[id] || {}`). */
  function RowOf(prices: PriceTable, id: string): map<Pack, Entry> {
    if id in prices then prices[id] else map[]
  }

  /** No id occurs twice. */
  ghost predicate Distinct(order: seq<string>) {
    forall i, j | 0 <= i < j < |order| :: order[i] != order[j]
  }

  /** The seed ids are pairwise distinct. */
  lemma SeedOrderDistinct()
    ensures Distinct(SeedOrder)
  {
    ShapeKeysDistinct();
    forall i, j | 0 <= i < j < |SeedOrder|
      ensures SeedOrder[i] != SeedOrder[j]
    {
      SeedShape(i);
      SeedShape(j);
    }
  }

  /** The length and the first letter of each seed id. */
  const SeedLengths: seq<int> := [7, 3, 13, 5, 8, 3, 11, 3]
  const SeedInitials: string := "ADCPTGEE"

  lemma SeedShape(k: nat)
    requires k < SeedCount
    ensures |SeedOrder[k]| == SeedLengths[k] && SeedOrder[k][0] == SeedInitials[k]
  {
    if k == 0 {
    } else if k == 1 {
    } else if k == 2 {
    } else if k == 3 {
    } else if k == 4 {
    } else if k == 5 {
    } else if k == 6 {
    } else {
    }
  }

  /** No two seed ids share both their length and their first letter. */
  lemma ShapeKeysDistinct()
    ensures forall i, j | 0 <= i < j < SeedCount :: SeedLengths[i] != SeedLengths[j] || SeedInitials[i] != SeedInitials[j]
  {
  }

  /** The row the seed leaves for the `k`-th id of `order`: its previous row
      (or an empty one) with packs F1..F5 overwritten by the seed cells. */
  function SeededRow(prices: PriceTable, order: seq<string>, k: nat): (row: map<Pack, Entry>)
    requires |order| == SeedCount && k < |order|
    ensures row.Keys == RowOf(prices, order[k]).Keys + SeedPacks
    ensures forall p | p in SeedPacks :: row[p] == SeedEntry(p, k)
    ensures F6Plus in row ==> row[F6Plus] == prices[order[k]][F6Plus]
  {
    var row := RowOf(prices, order[k]);
    row[F1 := SeedEntry(F1, k)][F2 := SeedEntry(F2, k)][F3 := SeedEntry(F3, k)]
       [F4 := SeedEntry(F4, k)][F5 := SeedEntry(F5, k)]
  }

  /** The ids of `order` from position `k` on. */
  function IdsFrom(order: seq<string>, k: nat): set<string>
    requires k <= |order|
  {
    set j | k <= j < |order| :: order[j]
  }

  /** `r` is `prices` after the outer loop of the seed has visited the ids of
      `order` from position `k` on: every visited id holds its seeded row and
      every other id keeps its row. */
  ghost predicate SeededFrom(prices: PriceTable, order: seq<string>, k: nat, r: PriceTable)
    requires |order| == SeedCount && k <= |order|
  {
    && r.Keys == prices.Keys + IdsFrom(order, k)
    && (forall j | k <= j < |order| :: order[j] in r && r[order[j]] == SeededRow(prices, order, j))
    && (forall id | id in prices && id !in IdsFrom(order, k) :: r[id] == prices[id])
  }

  /** The outer loop of `seedSpecDefaults` from position `k` on. Each id is
      visited once and the ids are distinct, so a later visit never undoes an
      earlier one. */
  function SeedFrom(prices: PriceTable, order: seq<string>, k: nat): (r: PriceTable)
    requires |order| == SeedCount && Distinct(order) && k <= |order|
    ensures SeededFrom(prices, order, k, r)
    decreases |order| - k
  {
    if k == |order| then prices
    else
      var next := prices[order[k] := SeededRow(prices, order, k)];
      var r := SeedFrom(next, order, k + 1);
      SeedStep(prices, order, k, r);
      r
  }

  /** One visit of the outer loop followed by the rest of the loop is the
      loop from the visited position. */
  lemma SeedStep(prices: PriceTable, order: seq<string>, k: nat, r: PriceTable)
    requires |order| == SeedCount && Distinct(order) && k < |order|
    requires SeededFrom(prices[order[k] := SeededRow(prices, order, k)], order, k + 1, r)
    ensures SeededFrom(prices, order, k, r)
  {
    SeedStepKeys(prices, order, k, r);
    SeedStepVisited(prices, order, k, r);
    SeedStepOthers(prices, order, k, r);
  }

  /** The visited position is not visited again. */
  lemma SeedIdsAfter(order: seq<string>, k: nat)
    requires Distinct(order) && k < |order|
    ensures IdsFrom(order, k) == {order[k]} + IdsFrom(order, k + 1)
    ensures order[k] !in IdsFrom(order, k + 1)
  {
    assert IdsFrom(order, k) == {order[k]} + IdsFrom(order, k + 1);
  }

  /** After the step the table's ids are the old ones and those visited. */
  lemma SeedStepKeys(prices: PriceTable, order: seq<string>, k: nat, r: PriceTable)
    requires |order| == SeedCount && Distinct(order) && k < |order|
    requires SeededFrom(prices[order[k] := SeededRow(prices, order, k)], order, k + 1, r)
    ensures r.Keys == prices.Keys + IdsFrom(order, k)
  {
    SeedIdsAfter(order, k);
  }

  /** Every visited id holds the row seeded from its original row. */
  lemma SeedStepVisited(prices: PriceTable, order: seq<string>, k: nat, r: PriceTable)
    requires |order| == SeedCount && Distinct(order) && k < |order|
    requires SeededFrom(prices[order[k] := SeededRow(prices, order, k)], order, k + 1, r)
    ensures forall j | k <= j < |order| :: order[j] in r && r[order[j]] == SeededRow(prices, order, j)
  {
    SeedStepVisitedNow(prices, order, k, r);
    SeedStepVisitedLater(prices, order, k, r);
  }

  /** The id visited in this step holds its seeded row. */
  lemma SeedStepVisitedNow(prices: PriceTable, order: seq<string>, k: nat, r: PriceTable)
    requires |order| == SeedCount && Distinct(order) && k < |order|
    requires SeededFrom(prices[order[k] := SeededRow(prices, order, k)], order, k + 1, r)
    ensures order[k] in r && r[order[k]] == SeededRow(prices, order, k)
  {
    SeedIdsAfter(order, k);
  }

  /** The ids visited later were untouched by this step, so their seeded
      rows are the same from either table. */
  lemma SeedStepVisitedLater(prices: PriceTable, order: seq<string>, k: nat, r: PriceTable)
    requires |order| == SeedCount && Distinct(order) && k < |order|
    requires SeededFrom(prices[order[k] := SeededRow(prices, order, k)], order, k + 1, r)
    ensures forall j | k < j < |order| :: order[j] in r && r[order[j]] == SeededRow(prices, order, j)
  {
    var next := prices[order[k] := SeededRow(prices, order, k)];
    forall j | k < j < |order|
      ensures r[order[j]] == SeededRow(prices, order, j)
    {
      assert order[j] != order[k];
      SeededRowOfSameRow(next, prices, order, j);
    }
  }

  /** The seeded row depends on the table only through the id's own row. */
  lemma SeededRowOfSameRow(p1: PriceTable, p2: PriceTable, order: seq<string>, j: nat)
    requires |order| == SeedCount && j < |order|
    requires RowOf(p1, order[j]) == RowOf(p2, order[j])
    ensures SeededRow(p1, order, j) == SeededRow(p2, order, j)
  {
  }

  /** Every id never visited keeps its row. */
  lemma SeedStepOthers(prices: PriceTable, order: seq<string>, k: nat, r: PriceTable)
    requires |order| == SeedCount && Distinct(order) && k < |order|
    requires SeededFrom(prices[order[k] := SeededRow(prices, order, k)], order, k + 1, r)
    ensures forall id | id in prices && id !in IdsFrom(order, k) :: r[id] == prices[id]
  {
    SeedIdsAfter(order, k);
  }

  /** `seedSpecDefaults`: each of the eight seed ids gets its seeded row
      (rent = sale = the seed value on F1..F5, its F6+ cell untouched, see
      `SeededRow`); every other id is left as it was. */
  function SeedSpecDefaults(prices: PriceTable): (r: PriceTable)
    ensures SeededFrom(prices, SeedOrder, 0, r)
  {
    SeedOrderDistinct();
    SeedFrom(prices, SeedOrder, 0)
  }

  // ---------------------------------------------------------------------------
  // normalizePrices

  /** The cell at `(id, p)`, or one with both fields absent. */
  function EntryAt(prices: PriceTable, id: string, p: Pack): Entry {
    if id in prices && p in prices[id] then prices[id][p] else Entry(None, None)
  }

  /** `{ rent: 0, sale: 0, ...cell }`: present values win, absent ones are 0. */
  function Fill(e: Entry): (r: Entry)
    ensures r.Complete()
    ensures e.Complete() ==> r == e
  {
    Entry(Some(e.rent.GetOr(0.0)), Some(e.sale.GetOr(0.0)))
  }

  /** `normalizePrices`: rebuild the table over the catalogue's ids and all six
      packs, keeping present values and defaulting absent ones to 0; ids that
      are not in the catalogue are dropped. */
  function NormalizePrices(catalogue: seq<Diagnostic>, prices: PriceTable): (r: PriceTable)
    ensures IsNormalizedFor(catalogue, r)
    ensures forall id, p, u | id in Ids(catalogue) && p in PackSet ::
      Lookup(r, id, p, u) == Some(Lookup(prices, id, p, u).GetOr(0.0))
  {
    map id | id in Ids(catalogue) :: map p | p in PackSet :: Fill(EntryAt(prices, id, p))
  }

  /** A normalised table is a fixed point of normalisation. */
  lemma NormalizedIsFixpoint(catalogue: seq<Diagnostic>, t: PriceTable)
    requires IsNormalizedFor(catalogue, t)
    ensures NormalizePrices(catalogue, t) == t
  {
    var n := NormalizePrices(catalogue, t);
    forall id | id in t
      ensures n[id] == t[id]
    {
      NormalizedRowIsFixpoint(catalogue, t, id);
    }
  }

  /** One row of `NormalizedIsFixpoint`. */
  lemma NormalizedRowIsFixpoint(catalogue: seq<Diagnostic>, t: PriceTable, id: string)
    requires IsNormalizedFor(catalogue, t) && id in t
    ensures (map p | p in PackSet :: Fill(EntryAt(t, id, p))) == t[id]
  {
    var row := map p | p in PackSet :: Fill(EntryAt(t, id, p));
    forall p | p in PackSet
      ensures row[p] == t[id][p]
    {
      assert t[id][p].Complete();
      assert EntryAt(t, id, p) == t[id][p];
    }
  }

  /** Normalisation is idempotent. */
  lemma NormalizeIdempotent(catalogue: seq<Diagnostic>, prices: PriceTable)
    ensures NormalizePrices(catalogue, NormalizePrices(catalogue, prices)) == NormalizePrices(catalogue, prices)
  {
    NormalizedIsFixpoint(catalogue, NormalizePrices(catalogue, prices));
  }

  /** The all-zero table is already normalised. */
  lemma DefaultPricesAreNormal(catalogue: seq<Diagnostic>)
    ensures NormalizePrices(catalogue, MakeDefaultPrices(catalogue)) == MakeDefaultPrices(catalogue)
  {
    NormalizedIsFixpoint(catalogue, MakeDefaultPrices(catalogue));
  }

  // ---------------------------------------------------------------------------
  // The application state and setState

  /** The fields of `state` that the pricing core reads. */
  datatype AppState = AppState(
    diagnostics: seq<Diagnostic>,
    prices: PriceTable,
    selectedDiagIds: seq<string>,
    propType: PropType)

  /** The argument of `setState`; `None` is an omitted (or null) field. */
  datatype StateUpdate = StateUpdate(
    diagnostics: Option<seq<Diagnostic>>,
    prices: Option<PriceTable>,
    selectedDiagIds: Option<seq<string>>,
    propType: Option<PropType>)

  /** `setState`: merge, fall back to the previous catalogue and prices when
      the update omits them, and re-normalise the prices against the
      resulting catalogue. Persistence is left out. */
  function SetState(st: AppState, next: StateUpdate): (r: AppState)
    ensures r.diagnostics == next.diagnostics.GetOr(st.diagnostics)
    ensures r.selectedDiagIds == next.selectedDiagIds.GetOr(st.selectedDiagIds)
    ensures r.propType == next.propType.GetOr(st.propType)
    ensures IsNormalizedFor(r.diagnostics, r.prices)
    ensures forall id, p, u | id in Ids(r.diagnostics) && p in PackSet ::
      Lookup(r.prices, id, p, u) == Some(Lookup(next.prices.GetOr(st.prices), id, p, u).GetOr(0.0))
  {
    var diagnostics := next.diagnostics.GetOr(st.diagnostics);
    var prices := next.prices.GetOr(st.prices);
    AppState(diagnostics, NormalizePrices(diagnostics, prices),
             next.selectedDiagIds.GetOr(st.selectedDiagIds), next.propType.GetOr(st.propType))
  }

  /** An update that touches neither catalogue nor prices leaves an already
      normalised table exactly as it was. */
  lemma SetStateKeepsPrices(st: AppState, next: StateUpdate)
    requires IsNormalizedFor(st.diagnostics, st.prices)
    requires next.diagnostics.None? && next.prices.None?
    ensures SetState(st, next).prices == st.prices
    ensures SetState(st, next).diagnostics == st.diagnostics
  {
    NormalizedIsFixpoint(st.diagnostics, st.prices);
  }

  /** Applying the same update twice is applying it once. */
  lemma SetStateIdempotent(st: AppState, next: StateUpdate)
    ensures SetState(SetState(st, next), next) == SetState(st, next)
  {
    var once := SetState(st, next);
    match next.prices {
      case None => NormalizedIsFixpoint(once.diagnostics, once.prices);
      case Some(p) =>
    }
  }

  /** The default catalogue lists exactly the seed ids. */
  lemma CatalogueIsSeedOrder()
    ensures Ids(DefaultDiagnostics) == IdsFrom(SeedOrder, 0)
  {
    CatalogueAlignsWithSeed();
    forall id | id in Ids(DefaultDiagnostics)
      ensures id in IdsFrom(SeedOrder, 0)
    {
      var j :| 0 <= j < |DefaultDiagnostics| && DefaultDiagnostics[j].id == id;
      assert SeedOrder[j] == id;
    }
    forall id | id in IdsFrom(SeedOrder, 0)
      ensures id in Ids(DefaultDiagnostics)
    {
      var j :| 0 <= j < |SeedOrder| && SeedOrder[j] == id;
      assert DefaultDiagnostics[j] in DefaultDiagnostics;
    }
  }

  /** The `j`-th default diagnostic has the `j`-th seed id. */
  lemma CatalogueAlignsWithSeed()
    ensures |DefaultDiagnostics| == |SeedOrder|
    ensures forall j | 0 <= j < |SeedOrder| :: DefaultDiagnostics[j].id == SeedOrder[j]
  {
  }

  /** The seeded row of a catalogue id over the all-zero table: all six
      packs, every cell complete, F6+ still zero. */
  lemma SeededZeroRow(catalogue: seq<Diagnostic>, order: seq<string>, j: nat)
    requires |order| == SeedCount && j < |order| && order[j] in Ids(catalogue)
    ensures var row := SeededRow(MakeDefaultPrices(catalogue), order, j);
      && row.Keys == PackSet
      && (forall p | p in row :: row[p].Complete())
      && row[F6Plus] == ZeroEntry
  {
    var zero := MakeDefaultPrices(catalogue);
    assert RowOf(zero, order[j]).Keys == PackSet;
    var row := SeededRow(zero, order, j);
    forall p | p in row
      ensures row[p].Complete()
    {
      if p != F6Plus {
        assert p in SeedPacks;
      }
    }
  }

  /** Seeding the all-zero table of a catalogue that lists exactly the seed
      ids yields a normalised table whose F6+ cells are still zero. */
  lemma SeededZeroIsNormal(catalogue: seq<Diagnostic>, order: seq<string>, seeded: PriceTable)
    requires |order| == SeedCount && Ids(catalogue) == IdsFrom(order, 0)
    requires SeededFrom(MakeDefaultPrices(catalogue), order, 0, seeded)
    ensures IsNormalizedFor(catalogue, seeded)
    ensures forall j | 0 <= j < |order| :: seeded[order[j]][F6Plus] == ZeroEntry
  {
    assert seeded.Keys == Ids(catalogue);
    forall id | id in seeded
      ensures seeded[id].Keys == PackSet
      ensures forall p | p in seeded[id] :: seeded[id][p].Complete()
    {
      var j :| 0 <= j < |order| && order[j] == id;
      SeededZeroRow(catalogue, order, j);
    }
    forall j | 0 <= j < |order|
      ensures seeded[order[j]][F6Plus] == ZeroEntry
    {
      assert order[j] in IdsFrom(order, 0);
      SeededZeroRow(catalogue, order, j);
    }
  }

  /** The initial `state`: the persisted-state read always yields nothing, so
      it is the seeded all-zero table over the default catalogue with an empty
      selection and an apartment, normalised. */
  function InitialState(): (st: AppState)
    ensures st.diagnostics == DefaultDiagnostics
    ensures st.selectedDiagIds == [] && st.propType == Apartment
    ensures IsNormalizedFor(st.diagnostics, st.prices)
  {
    var seeded := SeedSpecDefaults(MakeDefaultPrices(DefaultDiagnostics));
    AppState(DefaultDiagnostics, NormalizePrices(DefaultDiagnostics, seeded), [], Apartment)
  }

  /** The initial normalisation changes nothing: the initial table is the
      seeded all-zero table, and its F6+ cells stay zero. */
  lemma InitialStateSeeded()
    ensures SeededFrom(MakeDefaultPrices(DefaultDiagnostics), SeedOrder, 0, InitialState().prices)
    ensures forall j | 0 <= j < |SeedOrder| :: InitialState().prices[SeedOrder[j]][F6Plus] == ZeroEntry
  {
    var seeded := SeedSpecDefaults(MakeDefaultPrices(DefaultDiagnostics));
    CatalogueIsSeedOrder();
    SeededZeroIsNormal(DefaultDiagnostics, SeedOrder, seeded);
    NormalizedIsFixpoint(DefaultDiagnostics, seeded);
  }

  /** The initial price of the `j`-th seed id on a seeded pack is its seed
      value, for both purposes (for instance DPE on F5 is 190 and ERP is 40 on
      every seeded pack). */
  lemma InitialSeedPrice(j: nat, p: Pack, u: Purpose)
    requires j < |SeedOrder| && p in SeedPacks
    ensures Lookup(InitialState().prices, SeedOrder[j], p, u) == Some(SeedRow(p)[j])
  {
    InitialStateSeeded();
    var st := InitialState();
    assert SeedOrder[j] in st.prices;
    assert st.prices[SeedOrder[j]] == SeededRow(MakeDefaultPrices(DefaultDiagnostics), SeedOrder, j);
  }

  /** The seed never writes F6+, so every seed id is priced 0 there in the
      initial table, for both purposes. */
  lemma InitialUnseededPrice(j: nat, u: Purpose)
    requires j < |SeedOrder|
    ensures Lookup(InitialState().prices, SeedOrder[j], F6Plus, u) == Some(0.0)
  {
    InitialStateSeeded();
    var st := InitialState();
    assert st.prices[SeedOrder[j]][F6Plus] == ZeroEntry;
  }

  /** The positions of DPE and ERP in the seed order. */
  lemma SeedIds()
    ensures SeedOrder[1] == DpeId && SeedOrder[7] == ErpId
  {
  }

  /** The seed values of DPE and ERP on F5. */
  lemma SeedValues()
    ensures SeedRow(F5)[1] == 190.0 && SeedRow(F5)[7] == 40.0
  {
  }
}
