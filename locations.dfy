/**
 * User addresses: the choice tables and their `get_*_display` lookups,
 * the two `direccion_completa` formatters, and the auto-verification
 * done by `Address.save`.
 */
module Locations {
  import opened Common
  import opened Text

  /** A `DecimalField(decimal_places=6)` coordinate, in millionths of a degree. */
  type Micro = int

  /** A Django `choices` list: (stored code, label) pairs, in declaration order. */
  type Choices = seq<(string, string)>

  const DireccionTipoViaChoices: Choices :=
    [("AV", "Avenida"), ("CL", "Calle"), ("KR", "Carrera"), ("DG", "Diagonal")]
  const DireccionComplementoChoices: Choices :=
    [("AP", "Apartamento"), ("BLQ", "Bloque"), ("ED", "Edificio")]
  const TipoViaChoices: Choices :=
    [("AV", "Avenida"), ("CL", "Calle"), ("KR", "Carrera"), ("DG", "Diagonal"), ("TV", "Transversal")]
  const SectorChoices: Choices :=
    [("NORTE", "Norte"), ("SUR", "Sur"), ("ESTE", "Este"), ("OESTE", "Oeste")]
  const ComplementoChoices: Choices :=
    [("AP", "Apartamento"), ("BLQ", "Bloque"), ("ED", "Edificio"), ("PN", "Piso"), ("UR", "Urbanización")]
  const EstadoVerificacion: Choices :=
    [("PENDIENTE", "Pendiente"), ("VERIFICADO", "Verificado"), ("INVALIDO", "Inválido")]
  const FuenteGeolocalizacion: Choices :=
    [("DAPM", "Datos Oficiales"), ("GOOGLE", "Google Maps"), ("MANUAL", "Manual")]

  predicate HasCode(choices: Choices, code: string)
  {
    exists i :: 0 <= i < |choices| && choices[i].0 == code
  }

  /** No code is declared twice, so a choices list reads as a dictionary. */
  predicate DistinctCodes(choices: Choices)
  {
    forall i, j :: 0 <= i < j < |choices| ==> choices[i].0 != choices[j].0
  }

  /**
   * `get_FOO_display()`: the label declared for a stored code, or the
   * code itself when it is not among the choices (nothing validates a
   * field against its choices on save).
   */
  function Display(choices: Choices, code: string): (r: string)
    ensures HasCode(choices, code) ==> exists i :: 0 <= i < |choices| && choices[i] == (code, r)
    ensures !HasCode(choices, code) ==> r == code
    decreases |choices|
  {
    if |choices| == 0 then code
    else if choices[0].0 == code then choices[0].1
    else Display(choices[1..], code)
  }

  /** With distinct codes, every declared code displays as its own label. */
  lemma DisplayDeclared(choices: Choices, i: int)
    requires DistinctCodes(choices)
    requires 0 <= i < |choices|
    ensures Display(choices, choices[i].0) == choices[i].1
  {
  }

  /** Every table of this file declares each code once. */
  lemma ChoiceTablesDistinct()
    ensures DistinctCodes(DireccionTipoViaChoices) && DistinctCodes(DireccionComplementoChoices)
    ensures DistinctCodes(TipoViaChoices) && DistinctCodes(SectorChoices)
    ensures DistinctCodes(ComplementoChoices) && DistinctCodes(EstadoVerificacion)
    ensures DistinctCodes(FuenteGeolocalizacion)
  {
  }

  /** `estrato`'s choices: `[(i, str(i)) for i in range(1, 7)]`. */
  function EstratoChoices(): seq<(int, string)>
  {
    seq(6, i requires 0 <= i < 6 => (i + 1, IntToString(i + 1)))
  }

  predicate IsEstrato(e: int)
  {
    exists i :: 0 <= i < |EstratoChoices()| && EstratoChoices()[i].0 == e
  }

  /** The socioeconomic strata offered are exactly 1 to 6, each labelled by its own number. */
  lemma EstratoRange(e: int)
    ensures IsEstrato(e) <==> 1 <= e <= 6
    ensures IsEstrato(e) ==> EstratoChoices()[e - 1].1 == IntToString(e)
    ensures IsEstrato(e) ==> IntValue(EstratoChoices()[e - 1].1) == e
  {
    if 1 <= e <= 6 {
      assert EstratoChoices()[e - 1].0 == e;
    }
  }

  // ---------------------------------------------------------------------
  // Geography, as far as the formatters print it

  datatype Departamento = Departamento(nombre: string)
  datatype Municipio = Municipio(nombre: string, departamento: Departamento)
  datatype Barrio = Barrio(nombre: string, municipio: Municipio)

  /** `str(municipio)`: the municipality's name, then its department's. */
  function MunicipioStr(m: Municipio): (r: string)
    ensures StartsWith(r, m.nombre + ", ")
    ensures EndsWith(r, m.departamento.nombre)
  {
    m.nombre + ", " + m.departamento.nombre
  }

  /** `str(barrio)`: "nombre, municipio, departamento". */
  function BarrioStr(b: Barrio): (r: string)
    ensures StartsWith(r, b.nombre + ", ")
    ensures EndsWith(r, MunicipioStr(b.municipio))
  {
    var r := b.nombre + ", " + MunicipioStr(b.municipio);
    assert r[|r| - |MunicipioStr(b.municipio)|..] == MunicipioStr(b.municipio);
    r
  }

  /** An optional value inside an f-string: Python prints `None` for an absent one. */
  function FormatOptional(s: Option<string>): string
  {
    if s.Some? then s.value else "None"
  }

  /** `x or ''` for an optional string. */
  function OrEmpty(s: Option<string>): string
  {
    if s.Some? then s.value else ""
  }

  // ---------------------------------------------------------------------
  // Direccion.direccion_completa

  /** A `Direccion` row, with the fields its formatter reads. */
  datatype Direccion = Direccion(
    barrio: Barrio,
    tipoVia: string,
    numeroVia: string,
    complementoTipo: Option<string>,
    complementoValor: Option<string>)

  function DireccionVia(d: Direccion): string
  {
    Display(DireccionTipoViaChoices, d.tipoVia) + " " + d.numeroVia
  }

  function DireccionComplemento(d: Direccion): string
    requires d.complementoTipo.Some?
  {
    Display(DireccionComplementoChoices, d.complementoTipo.value) + " " + FormatOptional(d.complementoValor)
  }

  /** The list of parts before `filter(None, ...)`. */
  function DireccionParts(d: Direccion): seq<Option<string>>
  {
    [ Some(DireccionVia(d)),
      if Truthy(d.complementoTipo) then Some(DireccionComplemento(d)) else None,
      Some(BarrioStr(d.barrio)) ]
  }

  /**
   * `Direccion.direccion_completa`: the street, then the complement exactly
   * when a complement type is set, then `str(barrio)`, separated by ", ".
   */
  function DireccionCompleta(d: Direccion): (r: string)
    ensures Truthy(d.complementoTipo) ==>
              r == DireccionVia(d) + ", " + DireccionComplemento(d) + ", " + BarrioStr(d.barrio)
    ensures !Truthy(d.complementoTipo) ==>
              r == DireccionVia(d) + ", " + BarrioStr(d.barrio)
    ensures StartsWith(r, DireccionVia(d))
    ensures EndsWith(r, BarrioStr(d.barrio))
  {
    DireccionPartsJoined(d);
    Join(", ", Present(DireccionParts(d)))
  }

  /** The joined parts of a `Direccion`, case by case; every part is non-empty, so none is dropped but the complement. */
  lemma DireccionPartsJoined(d: Direccion)
    ensures Truthy(d.complementoTipo) ==>
              Join(", ", Present(DireccionParts(d)))
              == DireccionVia(d) + ", " + DireccionComplemento(d) + ", " + BarrioStr(d.barrio)
    ensures !Truthy(d.complementoTipo) ==>
              Join(", ", Present(DireccionParts(d))) == DireccionVia(d) + ", " + BarrioStr(d.barrio)
    ensures StartsWith(Join(", ", Present(DireccionParts(d))), DireccionVia(d))
    ensures EndsWith(Join(", ", Present(DireccionParts(d))), BarrioStr(d.barrio))
  {
    var via, barrio := DireccionVia(d), BarrioStr(d.barrio);
    assert via[|via| - |d.numeroVia| - 1] == ' ';
    assert barrio[|barrio| - |MunicipioStr(d.barrio.municipio)| + |d.barrio.municipio.nombre|] == ',';
    var middle := if Truthy(d.complementoTipo) then Some(DireccionComplemento(d)) else None;
    if Truthy(d.complementoTipo) {
      var c := DireccionComplemento(d);
      assert c[|c| - |FormatOptional(d.complementoValor)| - 1] == ' ';
    }
    assert DireccionParts(d) == [Some(via), middle, Some(barrio)];
    ThreePartsPresent(Some(via), middle, Some(barrio));
    var tokens := [via] + Word(middle) + [barrio];
    if middle.Some? {
      assert tokens == [via, middle.value, barrio];
      JoinThree(", ", via, middle.value, barrio);
    } else {
      assert tokens == [via, barrio];
      JoinTwo(", ", via, barrio);
    }
  }

  // ---------------------------------------------------------------------
  // Address.save

  /** The two fields `Address.save` may overwrite. */
  datatype Verification = Verification(verificada: bool, estado: string)

  /** Python truthiness of an optional coordinate: present and not zero. */
  predicate CoordinateTruthy(c: Option<Micro>)
  {
    c.Some? && c.value != 0
  }

  /** `fuente_geoloc in ['DAPM', 'GOOGLE']`. */
  predicate TrustedSource(fuente: Option<string>)
  {
    fuente == Some("DAPM") || fuente == Some("GOOGLE")
  }

  /** The condition under which a save marks the address verified. */
  predicate AutoVerifies(latitud: Option<Micro>, longitud: Option<Micro>, fuente: Option<string>)
  {
    CoordinateTruthy(latitud) && CoordinateTruthy(longitud) && TrustedSource(fuente)
  }

  /**
   * The verification state after `Address.save`: verified when both
   * coordinates are set and non-zero and the source is trusted; otherwise
   * untouched.
   */
  function VerifyOnSave(v: Verification, latitud: Option<Micro>, longitud: Option<Micro>,
                        fuente: Option<string>): (r: Verification)
    ensures r.verificada == (v.verificada || AutoVerifies(latitud, longitud, fuente))
    ensures r.estado == (if AutoVerifies(latitud, longitud, fuente) then "VERIFICADO" else v.estado)
  {
    if AutoVerifies(latitud, longitud, fuente) then Verification(true, "VERIFICADO") else v
  }

  /** A zero coordinate counts as missing, and a manual or absent source is never trusted. */
  lemma UntrustedInputsNeverVerify(v: Verification, latitud: Option<Micro>, longitud: Option<Micro>,
                                   fuente: Option<string>)
    requires latitud == Some(0) || longitud == Some(0) || latitud.None? || longitud.None?
             || fuente == Some("MANUAL") || fuente.None?
    ensures VerifyOnSave(v, latitud, longitud, fuente) == v
  {
  }

  /** A save never clears `verificada` and never writes PENDIENTE or INVALIDO. */
  lemma VerifyNeverDowngrades(v: Verification, latitud: Option<Micro>, longitud: Option<Micro>,
                              fuente: Option<string>)
    ensures v.verificada ==> VerifyOnSave(v, latitud, longitud, fuente).verificada
    ensures VerifyOnSave(v, latitud, longitud, fuente).estado in {v.estado, "VERIFICADO"}
  {
  }

  /** A series of saves, each after a caller set the coordinates and source given. */
  function VerifyTrace(v: Verification, saves: seq<(Option<Micro>, Option<Micro>, Option<string>)>): Verification
    decreases |saves|
  {
    if |saves| == 0 then v
    else VerifyTrace(VerifyOnSave(v, saves[0].0, saves[0].1, saves[0].2), saves[1..])
  }

  /**
   * Over any series of saves the address ends verified exactly when it
   * started verified or one of the saves saw trusted coordinates.
   */
  lemma {:induction false} VerifiedOnceVerifiedForever(v: Verification,
      saves: seq<(Option<Micro>, Option<Micro>, Option<string>)>)
    ensures VerifyTrace(v, saves).verificada
        <==> v.verificada || exists i :: 0 <= i < |saves| && AutoVerifies(saves[i].0, saves[i].1, saves[i].2)
    decreases |saves|
  {
    if |saves| > 0 {
      var v' := VerifyOnSave(v, saves[0].0, saves[0].1, saves[0].2);
      VerifiedOnceVerifiedForever(v', saves[1..]);
      if exists i :: 0 <= i < |saves| && AutoVerifies(saves[i].0, saves[i].1, saves[i].2) {
        var i :| 0 <= i < |saves| && AutoVerifies(saves[i].0, saves[i].1, saves[i].2);
        if i > 0 {
          assert saves[1..][i - 1] == saves[i];
        }
      }
      if exists i :: 0 <= i < |saves[1..]| && AutoVerifies(saves[1..][i].0, saves[1..][i].1, saves[1..][i].2) {
        var i :| 0 <= i < |saves[1..]| && AutoVerifies(saves[1..][i].0, saves[1..][i].1, saves[1..][i].2);
        assert saves[1..][i] == saves[i + 1];
      }
    }
  }

  /** An `Address` row. */
  class Address {
    var municipio: Municipio
    var barrio: Option<Barrio>
    var tipoVia: string
    var numeroVia: string
    var letraVia: Option<string>
    var bis: bool
    var sector: Option<string>
    var estrato: Option<int>
    var latitud: Option<Micro>
    var longitud: Option<Micro>
    var fuenteGeoloc: Option<string>
    var verificada: bool
    var estado: string

    /** A new, unsaved address with the model's defaults. */
    constructor (municipio: Municipio, tipoVia: string, numeroVia: string)
      ensures this.municipio == municipio && this.tipoVia == tipoVia && this.numeroVia == numeroVia
      ensures barrio.None? && letraVia.None? && !bis && sector.None? && estrato.None?
      ensures latitud.None? && longitud.None? && fuenteGeoloc.None?
      ensures Status() == Verification(false, "PENDIENTE")
    {
      this.municipio, this.tipoVia, this.numeroVia := municipio, tipoVia, numeroVia;
      barrio, letraVia, bis, sector, estrato := None, None, false, None, None;
      latitud, longitud, fuenteGeoloc := None, None, None;
      verificada, estado := false, "PENDIENTE";
    }

    function Status(): Verification
      reads this
    {
      Verification(verificada, estado)
    }

    /** The street part: "<tipo de vía> <número><letra>". */
    function Via(): string
      reads this
    {
      Display(TipoViaChoices, tipoVia) + " " + numeroVia + OrEmpty(letraVia)
    }

    function SectorLabel(): string
      reads this
      requires sector.Some?
    {
      Display(SectorChoices, sector.value)
    }

    /** The list of parts before `filter(None, ...)`. */
    function Parts(): seq<Option<string>>
      reads this
    {
      [ Some(Via()),
        if bis then Some("BIS") else None,
        if Truthy(sector) then Some(SectorLabel()) else None,
        if barrio.Some? then Some("Barrio " + barrio.value.nombre) else None,
        Some(MunicipioStr(municipio)) ]
    }

    /**
     * `Address.direccion_completa`: the words of `AddressTokens`, joined by
     * single spaces, so it opens with the street and closes with
     * `str(municipio)`.
     */
    function DireccionCompleta(): (r: string)
      reads this
      ensures r == Join(" ", AddressTokens(this))
      ensures StartsWith(r, Via())
      ensures EndsWith(r, MunicipioStr(municipio))
    {
      AddressCompletaShape(this);
      Join(" ", Present(Parts()))
    }

    /** `Address.save`: may set `verificada` and `estado`, nothing else. */
    method Save()
      modifies this`verificada, this`estado
      ensures Status() == VerifyOnSave(old(Status()), latitud, longitud, fuenteGeoloc)
    {
      if CoordinateTruthy(latitud) && CoordinateTruthy(longitud) && fuenteGeoloc.Some?
         && fuenteGeoloc.value in ["DAPM", "GOOGLE"]
      {
        verificada := true;
        estado := "VERIFICADO";
      }
    }
  }

  /** The words that make up a formatted `Address`, in order. */
  function AddressTokens(a: Address): seq<string>
    reads a
  {
    [a.Via()]
    + (if a.bis then ["BIS"] else [])
    + (if Truthy(a.sector) then [a.SectorLabel()] else [])
    + (if a.barrio.Some? then ["Barrio " + a.barrio.value.nombre] else [])
    + [MunicipioStr(a.municipio)]
  }

  /** A set sector always displays as a non-empty label, and as "BIS" only when its code is "BIS". */
  lemma SectorLabelFacts(code: string)
    requires code != ""
    ensures Display(SectorChoices, code) != ""
    ensures Display(SectorChoices, code) == "BIS" <==> code == "BIS"
  {
  }

  /**
   * `filter(None, ...)` drops exactly the absent parts: "BIS" is present
   * iff `bis`, the sector label iff a sector is set, "Barrio X" iff a
   * barrio is set; the street comes first and `str(municipio)` last.
   */
  lemma AddressCompletaShape(a: Address)
    ensures Present(a.Parts()) == AddressTokens(a)
  {
    var via, loc := a.Via(), MunicipioStr(a.municipio);
    assert via[|Display(TipoViaChoices, a.tipoVia)|] == ' ';
    var bisPart := if a.bis then Some("BIS") else None;
    var sectorPart := if Truthy(a.sector) then Some(a.SectorLabel()) else None;
    var barrioPart := if a.barrio.Some? then Some("Barrio " + a.barrio.value.nombre) else None;
    if Truthy(a.sector) {
      SectorLabelFacts(a.sector.value);
    }
    assert a.Parts() == [Some(via), bisPart, sectorPart, barrioPart, Some(loc)];
    FivePartsPresent(Some(via), bisPart, sectorPart, barrioPart, Some(loc));
    var tokens := AddressTokens(a);
    assert tokens == [via] + Word(bisPart) + Word(sectorPart) + Word(barrioPart) + [loc];
  }

  /** "BIS" is one of the words iff `bis` is set (or the sector was stored as the raw code "BIS"). */
  lemma AddressBisToken(a: Address)
    ensures "BIS" in AddressTokens(a) <==> a.bis || a.sector == Some("BIS")
  {
    var via, loc := a.Via(), MunicipioStr(a.municipio);
    assert via != "BIS" by {
      assert via[|Display(TipoViaChoices, a.tipoVia)|] == ' ';
    }
    assert loc != "BIS" by {
      assert loc[|a.municipio.nombre|] == ',';
    }
    if a.barrio.Some? {
      var b := "Barrio " + a.barrio.value.nombre;
      assert b != "BIS" by { assert b[0] == 'B' && b[1] == 'a'; }
    }
    if Truthy(a.sector) {
      SectorLabelFacts(a.sector.value);
    }
  }
}
