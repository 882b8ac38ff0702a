/** The area classifiers of assets/calc.js: size pack, display label and
    bundle band, with the area limits they are built on. */
module Areas {
  import opened Domain

  /** The bundle-table band. */
  datatype Band = Band45 | Band80 | Band100

  /** `PACK_AREA_LIMITS`: the upper area bound of each priced pack. */
  function PackAreaLimit(p: Pack): real
    requires p != F6Plus
  {
    match p
    case F1 => 30.0
    case F2 => 45.0
    case F3 => 60.0
    case F4 => 80.0
    case F5 => 100.0
  }

  /** `BAND_AREA_LIMITS`. */
  function BandAreaLimit(b: Band): real {
    match b
    case Band45 => 45.0
    case Band80 => 80.0
    case Band100 => 100.0
  }

  /** The area fits under the pack's bound: strictly for F1..F4, inclusively
      for F5; F6+ takes everything. */
  predicate Covers(p: Pack, area: real) {
    match p
    case F6Plus => true
    case F5 => area <= PackAreaLimit(F5)
    case _ => area < PackAreaLimit(p)
  }

  /** `derivePackFromArea`: the first pack, in `PACKS` order, whose bound
      covers the area. */
  function DerivePackFromArea(area: real): (p: Pack)
    ensures Covers(p, area)
    ensures forall q: Pack | PackIndex(q) < PackIndex(p) :: !Covers(q, area)
  {
    if area < 30.0 then F1
    else if area < 45.0 then F2
    else if area < 60.0 then F3
    else if area < 80.0 then F4
    else if area <= 100.0 then F5
    else F6Plus
  }

  /** Each pack owns exactly its interval of areas. */
  lemma PackThresholds(area: real)
    ensures DerivePackFromArea(area) == F1 <==> area < 30.0
    ensures DerivePackFromArea(area) == F2 <==> 30.0 <= area < 45.0
    ensures DerivePackFromArea(area) == F3 <==> 45.0 <= area < 60.0
    ensures DerivePackFromArea(area) == F4 <==> 60.0 <= area < 80.0
    ensures DerivePackFromArea(area) == F5 <==> 80.0 <= area <= 100.0
    ensures DerivePackFromArea(area) == F6Plus <==> 100.0 < area
  {
    var p := DerivePackFromArea(area);
    assert !Covers(F1, area) ==> PackIndex(p) > 0;
  }

  /** A larger area never gets a smaller pack. */
  lemma PackMonotone(a: real, b: real)
    requires a <= b
    ensures PackIndex(DerivePackFromArea(a)) <= PackIndex(DerivePackFromArea(b))
  {
    var pb := DerivePackFromArea(b);
    if pb != F6Plus {
      assert Covers(pb, a);
    }
  }

  /** `getDisplayPackLabel`: the pack's code, except that F4-sized areas are
      shown as the combined label `F3/F4`. */
  function DisplayPackLabel(area: real): (shown: string)
    ensures shown == "F3/F4" <==> 60.0 <= area < 80.0
    ensures shown != "F3/F4" ==> shown == PackName(DerivePackFromArea(area))
    ensures shown != ""
  {
    if area < 30.0 then "F1"
    else if area < 45.0 then "F2"
    else if area < 60.0 then "F3"
    else if area < 80.0 then "F3/F4"
    else if area <= 100.0 then "F5"
    else "F6+"
  }

  /** The label is the pack's own code outside [60, 80), and in [60, 80) the
      pack is F4. */
  lemma DisplayLabelAgreesWithPack(area: real)
    ensures !(60.0 <= area < 80.0) ==> DisplayPackLabel(area) == PackName(DerivePackFromArea(area))
    ensures 60.0 <= area < 80.0 ==> DerivePackFromArea(area) == F4
  {
    PackThresholds(area);
  }

  /** The band's position in `BAND_AREA_LIMITS` order. */
  function BandIndex(b: Band): nat {
    match b
    case Band45 => 0
    case Band80 => 1
    case Band100 => 2
  }

  /** `getAreaBand`: the first of band_45 and band_80 whose inclusive bound
      covers the area, band_100 otherwise (also above 100 m2). */
  function AreaBand(area: real): (b: Band)
    ensures b != Band100 ==> area <= BandAreaLimit(b)
    ensures forall c: Band | BandIndex(c) < BandIndex(b) :: area > BandAreaLimit(c)
  {
    if area <= 45.0 then Band45
    else if area <= 80.0 then Band80
    else Band100
  }

  /** Each band owns exactly its interval of areas. */
  lemma BandThresholds(area: real)
    ensures AreaBand(area) == Band45 <==> area <= 45.0
    ensures AreaBand(area) == Band80 <==> 45.0 < area <= 80.0
    ensures AreaBand(area) == Band100 <==> 80.0 < area
  {
    var b := AreaBand(area);
    assert b == Band100 ==> area > BandAreaLimit(Band80);
  }

  /** A larger area never gets a smaller band. */
  lemma BandMonotone(a: real, b: real)
    requires a <= b
    ensures BandIndex(AreaBand(a)) <= BandIndex(AreaBand(b))
  {
    var bb := AreaBand(b);
    if bb != Band100 {
      assert a <= BandAreaLimit(bb);
    }
  }
}
