/** The shared vocabulary of assets/state.js: the diagnostic catalogue, the
    size packs, the two purposes and the price table keyed by diagnostic id,
    then pack, then purpose. */
module Domain {
  import opened Wrappers

  /** A floor-area tier; `F6Plus` is the source's `'F6+'`. */
  datatype Pack = F1 | F2 | F3 | F4 | F5 | F6Plus

  /** `'rent'` or `'sale'`. */
  datatype Purpose = Rent | Sale

  /** `'apartment'` or `'house'`. */
  datatype PropType = Apartment | House

  datatype Diagnostic = Diagnostic(id: string, name: string)

  /** One `{rent, sale}` cell. A field is `None` when the key is absent, as in
      a hand-edited or partially loaded table. */
  datatype Entry = Entry(rent: Option<real>, sale: Option<real>) {

    function Get(purpose: Purpose): Option<real> {
      match purpose
      case Rent => rent
      case Sale => sale
    }

    /** Both purposes carry a value. */
    predicate Complete() {
      rent.Some? && sale.Some?
    }
  }

  /** Diagnostic id to pack to cell. */
  type PriceTable = map<string, map<Pack, Entry>>

  /** The catalogue ids. */
  const AmianteId: string := "AMIANTE"
  const DpeId: string := "DPE"
  const CarrezBoutinId: string := "CARREZ_BOUTIN"
  const PlombId: string := "PLOMB"
  const TermitesId: string := "TERMITES"
  const GazId: string := "GAZ"
  const ElectriciteId: string := "ELECTRICITE"
  const ErpId: string := "ERP"

  /** `PACKS`, in order. */
  const Packs: seq<Pack> := [F1, F2, F3, F4, F5, F6Plus]
  const PackSet: set<Pack> := {F1, F2, F3, F4, F5, F6Plus}

  /** `DEFAULT_DIAGNOSTICS`: seven regulatory diagnostics and the flat ERP report. */
  const DefaultDiagnostics: seq<Diagnostic> := [
    Diagnostic(AmianteId, "AMIANTE"),
    Diagnostic(DpeId, "DPE"),
    Diagnostic(CarrezBoutinId, "CARREZ/BOUTIN"),
    Diagnostic(PlombId, "PLOMB"),
    Diagnostic(TermitesId, "TERMITES"),
    Diagnostic(GazId, "GAZ"),
    Diagnostic(ElectriciteId, "ELECTRICITE"),
    Diagnostic(ErpId, "ERP")
  ]

  /** The pack's position in `PACKS`. */
  function PackIndex(p: Pack): nat {
    match p
    case F1 => 0
    case F2 => 1
    case F3 => 2
    case F4 => 3
    case F5 => 4
    case F6Plus => 5
  }

  /** The pack code as the source spells it. */
  function PackName(p: Pack): string {
    match p
    case F1 => "F1"
    case F2 => "F2"
    case F3 => "F3"
    case F4 => "F4"
    case F5 => "F5"
    case F6Plus => "F6+"
  }

  /** The ids of a catalogue. */
  function Ids(catalogue: seq<Diagnostic>): set<string> {
    set d | d in catalogue :: d.id
  }

  /** `prices?.[id]?.[pack]?.[purpose]`: absent at any level is `None`. */
  function Lookup(prices: PriceTable, id: string, pack: Pack, purpose: Purpose): Option<real> {
    if id in prices && pack in prices[id] then prices[id][pack].Get(purpose) else None
  }

  /** `prices?.[id]?.[pack]?.[purpose] ?? fallback`. */
  function PriceOr(prices: PriceTable, id: string, pack: Pack, purpose: Purpose, fallback: real): real {
    Lookup(prices, id, pack, purpose).GetOr(fallback)
  }
}
