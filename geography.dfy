/**
  The region and comuna table that the registration and settings forms share
  (both pages carry the same four regions, four comunas each), and what
  selecting a region does to the form.
 */
module Geography {
  import opened Common

  datatype Comuna = Comuna(id: int, nombre: string)
  datatype Region = Region(id: int, nombre: string, comunas: seq<Comuna>)

  const Regions: seq<Region> := [
    Region(1, "Metropolitana",
      [Comuna(1, "Santiago"), Comuna(2, "Providencia"), Comuna(3, "Las Condes"), Comuna(4, "Maipú")]),
    Region(2, "Valparaíso",
      [Comuna(5, "Valparaíso"), Comuna(6, "Viña del Mar"), Comuna(7, "Quilpué"), Comuna(8, "Villa Alemana")]),
    Region(3, "Biobío",
      [Comuna(9, "Concepción"), Comuna(10, "Talcahuano"), Comuna(11, "San Pedro de la Paz"), Comuna(12, "Chiguayante")]),
    Region(4, "Coquimbo",
      [Comuna(13, "La Serena"), Comuna(14, "Coquimbo"), Comuna(15, "Ovalle"), Comuna(16, "Illapel")])
  ]

  /** `regions.find(r => r.id === id)`, where a NaN id (None) equals nothing. */
  function FindRegion(regions: seq<Region>, id: Option<int>): (r: Option<Region>)
    ensures r.Some? ==> r.value in regions && id == Some(r.value.id)
    ensures r.None? <==> forall k :: 0 <= k < |regions| ==> id != Some(regions[k].id)
  {
    if regions == [] then None
    else if id == Some(regions[0].id) then Some(regions[0])
    else FindRegion(regions[1..], id)
  }

  /** The comunas offered once the region select holds `value`:
      `reg ? reg.comunas : []` with `reg` found by `parseInt(value)`. */
  function ComunasFor(value: string): seq<Comuna>
  {
    match FindRegion(Regions, ParseInt(value))
    case Some(reg) => reg.comunas
    case None => []
  }

  /** What choosing a region does to the rest of the form: the comuna choice
      is reset to '' and the list of comunas is replaced. */
  datatype RegionChange = RegionChange(idComuna: string, comunas: seq<Comuna>)

  function SelectRegion(value: string): (c: RegionChange)
    ensures c.idComuna == ""
    ensures c.comunas == ComunasFor(value)
  {
    RegionChange("", ComunasFor(value))
  }

  /** The option value written for region k selects region k's comunas. */
  lemma KnownRegion(k: nat)
    requires 1 <= k <= 4
    ensures ComunasFor(DecimalString(k)) == Regions[k - 1].comunas
    ensures |ComunasFor(DecimalString(k))| == 4
  {
    var v := DecimalString(k);
    ParseIntDecimal(k);
    FindListedRegion(k);
    assert FindRegion(Regions, ParseInt(v)) == Some(Regions[k - 1]);
    assert ComunasFor(v) == Regions[k - 1].comunas;
    if k == 1 {
      assert |Regions[0].comunas| == 4;
    } else if k == 2 {
      assert |Regions[1].comunas| == 4;
    } else if k == 3 {
      assert |Regions[2].comunas| == 4;
    } else {
      assert |Regions[3].comunas| == 4;
    }
  }

  lemma FindListedRegion(k: nat)
    requires 1 <= k <= 4
    ensures FindRegion(Regions, Some(k)) == Some(Regions[k - 1])
  {
    var rs := Regions;
    assert rs[1..][1..][1..] == [rs[3]];
    if k == 1 {
    } else if k == 2 {
      assert FindRegion(rs, Some(k)) == FindRegion(rs[1..], Some(k));
    } else if k == 3 {
      assert FindRegion(rs, Some(k)) == FindRegion(rs[1..][1..], Some(k));
    } else {
      assert FindRegion(rs, Some(k)) == FindRegion(rs[1..][1..][1..], Some(k));
    }
  }

  /** A value that does not parse to the id of a listed region (including the
      empty placeholder option) offers no comunas. */
  lemma UnknownRegion(value: string)
    requires forall k :: 0 <= k < |Regions| ==> ParseInt(value) != Some(Regions[k].id)
    ensures ComunasFor(value) == []
  {
  }

  /** Only region ids 1 to 4 offer comunas. */
  lemma ComunasOnlyForListedIds(value: string)
    requires ComunasFor(value) != []
    ensures ParseInt(value).Some? && 1 <= ParseInt(value).value <= 4
  {
    var r := FindRegion(Regions, ParseInt(value));
    assert r.Some?;
  }
}
