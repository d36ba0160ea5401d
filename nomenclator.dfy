// The pure decisions of the `nomenclator` binary (src/bin/nomenclator.rs):
// the summary and verdict of its `csv` command, the query its `api`
// sub-commands build from command-line flags, the `maestra` type names, the
// `--nombre` requirement of `maestra` and the `--limit` cut of listings.
// Argument parsing, HTTP, downloading and printing are left out.

module Nomenclator {
  import opened Wrappers
  import opened Text
  import opened QueryParams
  import Medicamentos
  import Presentaciones
  import Maestras
  import opened NomenclatorCsv

  // ---------------------------------------------------------------- csv

  /** What the `csv` command reports: the two counts and the prescription status. */
  datatype Summary = Summary(successful: nat, failed: nat, prescriptionSuccess: bool)

  /** The summary of collected job results and the prescription step. */
  function Summarize(results: seq<JobResult>, prescription: Result<(), string>): (s: Summary)
    ensures s.successful + s.failed == |results|
    ensures s.prescriptionSuccess <==> prescription.Success?
  {
    CountsPartition(results);
    Summary(Successful(results), Failed(results), prescription.Success?)
  }

  /**
   * `process_csv` after the download: the 13 dictionary jobs (the same table
   * as the `nomenclator_csv` binary), then the prescription step, then the
   * summary and the verdict. The run fails exactly when a present dictionary
   * file failed to convert or a present prescription file failed to decompose.
   */
  function ProcessCsv(present: seq<bool>, outcomes: seq<TaskOutcome>, prescriptionPresent: bool,
                      decomposed: Result<(), string>): (r: (Summary, Result<(), string>))
    requires |present| == |Mapping| && |outcomes| == |Mapping|
    ensures r.0.successful + r.0.failed == 13
    ensures r.0.prescriptionSuccess <==> !prescriptionPresent || decomposed.Success?
    ensures r.1.Failure? <==> ((exists i :: 0 <= i < |Mapping| && present[i] && !Converted(outcomes[i]))
                               || (prescriptionPresent && decomposed.Failure?))
    ensures r.1.Failure? ==> r.1.error == "Some files failed to parse"
  {
    var results := JobResults(Mapping, present, outcomes);
    var prescription := PrescriptionStep(prescriptionPresent, decomposed);
    RunFailsIff(present, outcomes, results, prescriptionPresent, decomposed);
    (Summarize(results, prescription), RunResult(results, prescription))
  }

  /** With no input file at all, every job is a skip counted as successful and the run succeeds. */
  lemma NothingToConvert(outcomes: seq<TaskOutcome>, decomposed: Result<(), string>)
    requires |outcomes| == |Mapping|
    ensures ProcessCsv(seq(13, _ => false), outcomes, false, decomposed)
      == (Summary(13, 0, true), Success(()))
  {
    var present := seq(13, _ => false);
    var results := JobResults(Mapping, present, outcomes);
    FailedPositive(results);
    CountsPartition(results);
  }

  // ---------------------------------------------------------------- flags

  /** A boolean command-line flag as a `0`/`1` filter: `Some(1)` when given, absent otherwise. */
  function FlagFilter(given: bool): (v: Option<U8>)
    ensures v.Some? <==> given
    ensures v.Some? ==> v.value == 1
  {
    if given then Some(1) else None
  }

  /** The value a flag filter sends: `"1"` when the flag is given. */
  function FlagValue(given: bool): Option<string> {
    if given then Some("1") else None
  }

  lemma FlagRendering(given: bool)
    ensures ByteValue(FlagFilter(given)) == FlagValue(given)
  {
  }

  /** The slots of a search that the command line can set, in push order. */
  function SearchMedicamentosSlots(nombre: Option<string>, laboratorio: Option<string>, principioActivo: Option<string>,
                                   atc: Option<string>, comercializados: bool, huerfanos: bool, triangulo: bool): seq<Field> {
    [("nombre", nombre), ("laboratorio", laboratorio), ("practiv1", principioActivo), ("atc", atc),
     ("triangulo", FlagValue(triangulo)), ("huerfano", FlagValue(huerfanos)), ("comerc", FlagValue(comercializados))]
  }

  /** `api search-medicamentos`: the search filters its arguments give; everything else unset. */
  function SearchMedicamentosArgs(nombre: Option<string>, laboratorio: Option<string>, principioActivo: Option<string>,
                                  atc: Option<string>, comercializados: bool, huerfanos: bool, triangulo: bool)
    : (p: Medicamentos.SearchMedicamentosParams)
    ensures p.nombre == nombre && p.laboratorio == laboratorio && p.practiv1 == principioActivo && p.atc == atc
    ensures (p.comerc == Some(1) <==> comercializados) && (p.comerc.None? <==> !comercializados)
    ensures (p.huerfano == Some(1) <==> huerfanos) && (p.huerfano.None? <==> !huerfanos)
    ensures (p.triangulo == Some(1) <==> triangulo) && (p.triangulo.None? <==> !triangulo)
    ensures p.(nombre := None, laboratorio := None, practiv1 := None, atc := None,
               comerc := None, huerfano := None, triangulo := None) == Medicamentos.Default
  {
    Medicamentos.Default.(nombre := nombre, laboratorio := laboratorio, practiv1 := principioActivo, atc := atc,
                          comerc := FlagFilter(comercializados), huerfano := FlagFilter(huerfanos),
                          triangulo := FlagFilter(triangulo))
  }

  /** The first eleven of the twenty-two slots below: positions 0, 1, 2, 7 and 10 carried. */
  lemma FiveOfEleven(fs: seq<Field>, cs: seq<Field>)
    requires |fs| == 22 && |cs| == 7
    requires fs[0] == cs[0] && fs[1] == cs[1] && fs[2] == cs[2] && fs[7] == cs[3] && fs[10] == cs[4]
    requires fs[3].1.None? && fs[4].1.None? && fs[5].1.None? && fs[6].1.None? && fs[8].1.None? && fs[9].1.None?
    ensures Present(fs[..11]) == Present(cs[..5])
  {
    assert fs[..0] == [] && cs[..0] == [];
    MatchedStep(fs, 0, cs, 0);
    MatchedStep(fs, 1, cs, 1);
    MatchedStep(fs, 2, cs, 2);
    UnsetStep(fs, 3); UnsetStep(fs, 4); UnsetStep(fs, 5); UnsetStep(fs, 6);
    MatchedStep(fs, 7, cs, 3);
    UnsetStep(fs, 8); UnsetStep(fs, 9);
    MatchedStep(fs, 10, cs, 4);
  }

  /**
   * Twenty-two slots that carry seven given slots at positions 0, 1, 2, 7,
   * 10, 11 and 15 and nothing elsewhere send the same pairs as the seven.
   */
  lemma SevenOfTwentyTwo(fs: seq<Field>, cs: seq<Field>)
    requires |fs| == 22 && |cs| == 7
    requires fs[0] == cs[0] && fs[1] == cs[1] && fs[2] == cs[2] && fs[7] == cs[3]
    requires fs[10] == cs[4] && fs[11] == cs[5] && fs[15] == cs[6]
    requires fs[3].1.None? && fs[4].1.None? && fs[5].1.None? && fs[6].1.None? && fs[8].1.None? && fs[9].1.None?
    requires fs[12].1.None? && fs[13].1.None? && fs[14].1.None?
    requires fs[16].1.None? && fs[17].1.None? && fs[18].1.None? && fs[19].1.None? && fs[20].1.None? && fs[21].1.None?
    ensures Present(fs) == Present(cs)
  {
    FiveOfEleven(fs, cs);
    LastEleven(fs, cs);
  }

  /** The last eleven of the twenty-two slots: positions 11 and 15 carried. */
  lemma LastEleven(fs: seq<Field>, cs: seq<Field>)
    requires |fs| == 22 && |cs| == 7
    requires Present(fs[..11]) == Present(cs[..5])
    requires fs[11] == cs[5] && fs[15] == cs[6]
    requires fs[12].1.None? && fs[13].1.None? && fs[14].1.None?
    requires fs[16].1.None? && fs[17].1.None? && fs[18].1.None? && fs[19].1.None? && fs[20].1.None? && fs[21].1.None?
    ensures Present(fs) == Present(cs)
  {
    MatchedStep(fs, 11, cs, 5);
    UnsetStep(fs, 12); UnsetStep(fs, 13); UnsetStep(fs, 14);
    MatchedStep(fs, 15, cs, 6);
    UnsetStep(fs, 16); UnsetStep(fs, 17); UnsetStep(fs, 18); UnsetStep(fs, 19); UnsetStep(fs, 20); UnsetStep(fs, 21);
    assert fs[..22] == fs && cs[..7] == cs;
  }

  /**
   * The query `search-medicamentos` sends holds the pairs of the given
   * arguments only, in the order `nombre, laboratorio, practiv1, atc,
   * triangulo, huerfano, comerc`; a flag sends `1`.
   */
  lemma SearchMedicamentosQuery(nombre: Option<string>, laboratorio: Option<string>, principioActivo: Option<string>,
                                atc: Option<string>, comercializados: bool, huerfanos: bool, triangulo: bool)
    ensures Present(Medicamentos.Fields(SearchMedicamentosArgs(nombre, laboratorio, principioActivo, atc, comercializados, huerfanos, triangulo)))
      == Present(SearchMedicamentosSlots(nombre, laboratorio, principioActivo, atc, comercializados, huerfanos, triangulo))
  {
    var p := SearchMedicamentosArgs(nombre, laboratorio, principioActivo, atc, comercializados, huerfanos, triangulo);
    FlagRendering(comercializados);
    FlagRendering(huerfanos);
    FlagRendering(triangulo);
    CommandLineFields(p);
  }

  /** The slots of a search in which only the command-line filters may be set. */
  lemma CommandLineFields(p: Medicamentos.SearchMedicamentosParams)
    requires p.practiv2.None? && p.idpractiv1.None? && p.idpractiv2.None? && p.cn.None? && p.nregistro.None?
    requires p.npactiv.None? && p.biosimilar.None? && p.sust.None? && p.vmp.None? && p.autorizados.None?
    requires p.receta.None? && p.estupefaciente.None? && p.psicotropo.None? && p.estuopsico.None? && p.pagina.None?
    ensures Present(Medicamentos.Fields(p))
      == Present([("nombre", p.nombre), ("laboratorio", p.laboratorio), ("practiv1", p.practiv1), ("atc", p.atc),
                  ("triangulo", ByteValue(p.triangulo)), ("huerfano", ByteValue(p.huerfano)), ("comerc", ByteValue(p.comerc))])
  {
    var fs := Medicamentos.Fields(p);
    Medicamentos.SlotsHead(p);
    Medicamentos.SlotsNext(p);
    Medicamentos.SlotsMiddle(p);
    Medicamentos.SlotsTail(p);
    SevenOfTwentyTwo(fs, [("nombre", p.nombre), ("laboratorio", p.laboratorio), ("practiv1", p.practiv1), ("atc", p.atc),
                          ("triangulo", ByteValue(p.triangulo)), ("huerfano", ByteValue(p.huerfano)), ("comerc", ByteValue(p.comerc))]);
  }

  /** A flag of `search-medicamentos` adds its `1` filter exactly when it is given. */
  lemma SearchMedicamentosFlags(nombre: Option<string>, laboratorio: Option<string>, principioActivo: Option<string>,
                                atc: Option<string>, comercializados: bool, huerfanos: bool, triangulo: bool)
    ensures var q := Present(Medicamentos.Fields(SearchMedicamentosArgs(nombre, laboratorio, principioActivo, atc, comercializados, huerfanos, triangulo)));
      && (("comerc", "1") in q <==> comercializados)
      && (("huerfano", "1") in q <==> huerfanos)
      && (("triangulo", "1") in q <==> triangulo)
  {
    var cs := SearchMedicamentosSlots(nombre, laboratorio, principioActivo, atc, comercializados, huerfanos, triangulo);
    SearchMedicamentosQuery(nombre, laboratorio, principioActivo, atc, comercializados, huerfanos, triangulo);
    PresentMember(cs, "comerc", "1");
    PresentMember(cs, "huerfano", "1");
    PresentMember(cs, "triangulo", "1");
    if comercializados { assert cs[6] == ("comerc", Some("1")); }
    if huerfanos { assert cs[5] == ("huerfano", Some("1")); }
    if triangulo { assert cs[4] == ("triangulo", Some("1")); }
  }

  /** The slots of a presentation search that the command line can set, in push order. */
  function SearchPresentacionesSlots(nregistro: Option<string>, vmp: Option<string>, comercializados: bool): seq<Field> {
    [("nregistro", nregistro), ("vmp", vmp), ("comerc", FlagValue(comercializados))]
  }

  /** `api search-presentaciones`: the filters its arguments give; everything else unset. */
  function SearchPresentacionesArgs(nregistro: Option<string>, vmp: Option<string>, comercializados: bool)
    : (p: Presentaciones.SearchPresentacionesParams)
    ensures p.nregistro == nregistro && p.vmp == vmp
    ensures (p.comerc == Some(1) <==> comercializados) && (p.comerc.None? <==> !comercializados)
    ensures p.(nregistro := None, vmp := None, comerc := None) == Presentaciones.Default
  {
    Presentaciones.Default.(nregistro := nregistro, vmp := vmp, comerc := FlagFilter(comercializados))
  }

  /** The first five of the ten slots below: positions 1 and 2 carried. */
  lemma TwoOfFive(fs: seq<Field>, cs: seq<Field>)
    requires |fs| == 10 && |cs| == 3
    requires fs[1] == cs[0] && fs[2] == cs[1]
    requires fs[0].1.None? && fs[3].1.None? && fs[4].1.None?
    ensures Present(fs[..5]) == Present(cs[..2])
  {
    assert fs[..0] == [] && cs[..0] == [];
    UnsetStep(fs, 0);
    MatchedStep(fs, 1, cs, 0);
    MatchedStep(fs, 2, cs, 1);
    UnsetStep(fs, 3); UnsetStep(fs, 4);
  }

  /** Ten slots that carry three given slots at positions 1, 2 and 5 and nothing elsewhere send the same pairs as the three. */
  lemma ThreeOfTen(fs: seq<Field>, cs: seq<Field>)
    requires |fs| == 10 && |cs| == 3
    requires fs[1] == cs[0] && fs[2] == cs[1] && fs[5] == cs[2]
    requires fs[0].1.None? && fs[3].1.None? && fs[4].1.None?
    requires fs[6].1.None? && fs[7].1.None? && fs[8].1.None? && fs[9].1.None?
    ensures Present(fs) == Present(cs)
  {
    TwoOfFive(fs, cs);
    MatchedStep(fs, 5, cs, 2);
    UnsetStep(fs, 6); UnsetStep(fs, 7); UnsetStep(fs, 8); UnsetStep(fs, 9);
    assert fs[..10] == fs && cs[..3] == cs;
  }

  /** The query `search-presentaciones` sends: `nregistro`, `vmp` and `comerc=1`, each only when given. */
  lemma SearchPresentacionesQuery(nregistro: Option<string>, vmp: Option<string>, comercializados: bool)
    ensures Present(Presentaciones.Fields(SearchPresentacionesArgs(nregistro, vmp, comercializados)))
      == Present(SearchPresentacionesSlots(nregistro, vmp, comercializados))
  {
    var fs := Presentaciones.Fields(SearchPresentacionesArgs(nregistro, vmp, comercializados));
    var cs := SearchPresentacionesSlots(nregistro, vmp, comercializados);
    FlagRendering(comercializados);
    ThreeOfTen(fs, cs);
  }

  // ---------------------------------------------------------------- maestra

  /** The `--tipo` names `maestra` accepts. */
  const TipoNames: set<string> := {"pa", "ff", "va", "lab", "atc"}

  /** The catalog a `--tipo` name selects, or the error naming the accepted ones. */
  function ParseTipo(tipo: string): (r: Result<Maestras.TipoMaestra, string>)
    ensures r.Success? <==> tipo in TipoNames
    ensures r.Failure? ==> r.error == "Tipo de maestra desconocido: " + tipo + ". Use: pa, ff, va, lab, atc"
  {
    match tipo
    case "pa" => Success(Maestras.PrincipiosActivos)
    case "ff" => Success(Maestras.FormasFarmaceuticas)
    case "va" => Success(Maestras.ViasAdministracion)
    case "lab" => Success(Maestras.Laboratorios)
    case "atc" => Success(Maestras.CodigosATC)
    case _ => Failure("Tipo de maestra desconocido: " + tipo + ". Use: pa, ff, va, lab, atc")
  }

  /** The `--tipo` name of each catalog. */
  function TipoName(t: Maestras.TipoMaestra): (name: string)
    ensures name in TipoNames
  {
    match t
    case PrincipiosActivos => "pa"
    case FormasFarmaceuticas => "ff"
    case ViasAdministracion => "va"
    case Laboratorios => "lab"
    case CodigosATC => "atc"
  }

  /** Every catalog is reachable, from its own name. */
  lemma ParseTipoName(t: Maestras.TipoMaestra)
    ensures ParseTipo(TipoName(t)) == Success(t)
  {
  }

  /** Each accepted name selects one catalog, and that catalog's name is the one given. */
  lemma TipoNameOfParse(tipo: string)
    requires ParseTipo(tipo).Success?
    ensures TipoName(ParseTipo(tipo).value) == tipo
  {
  }

  /** How `api maestra` ends before its request, or the request it makes. */
  datatype MaestraOutcome =
    | MissingNombre                                            // exits with status 1
    | UnknownTipo(message: string)                             // fails with this message
    | Lookup(tipo: Maestras.TipoMaestra, params: Maestras.MaestraParams)

  /**
   * `api maestra`: `--nombre` is checked first, then `--tipo`; the request
   * filters on the name alone.
   */
  function MaestraCommand(tipo: string, nombre: Option<string>): (o: MaestraOutcome)
    ensures o.MissingNombre? <==> nombre.None?
    ensures o.UnknownTipo? <==> nombre.Some? && tipo !in TipoNames
    ensures o.UnknownTipo? ==> o.message == "Tipo de maestra desconocido: " + tipo + ". Use: pa, ff, va, lab, atc"
    ensures o.Lookup? ==> ParseTipo(tipo) == Success(o.tipo) && o.params.nombre == nombre
  {
    if nombre.None? then MissingNombre
    else
      match ParseTipo(tipo)
      case Failure(e) => UnknownTipo(e)
      case Success(t) => Lookup(t, Maestras.Default.(nombre := nombre))
  }

  /** A missing `--nombre` wins over an unknown `--tipo`: nothing else is looked at. */
  lemma MissingNombreFirst(tipo1: string, tipo2: string)
    ensures MaestraCommand(tipo1, None) == MaestraCommand(tipo2, None) == MissingNombre
  {
  }

  /**
   * The query of an accepted `maestra` command: the catalog code, then the
   * name, and nothing else.
   */
  lemma MaestraQuery(tipo: string, nombre: string, code: U8)
    requires tipo in TipoNames
    ensures MaestraCommand(tipo, Some(nombre)).Lookup?
    ensures [("maestra", Decimal(code as int))] + Present(Maestras.Fields(MaestraCommand(tipo, Some(nombre)).params))
      == [("maestra", Decimal(code as int)), ("nombre", nombre)]
  {
    Maestras.NameOnlyQuery(code, nombre);
  }

  // ---------------------------------------------------------------- listings

  /** `--limit` defaults: 10 for the two searches, 20 for `maestra`. */
  const SearchLimitDefault: nat := 10
  const MaestraLimitDefault: nat := 20

  /** The `--limit` a listing uses: the one given, otherwise its command's default. */
  function EffectiveLimit(given: Option<nat>, maestra: bool): (n: nat)
    ensures given.Some? ==> n == given.value
    ensures given.None? && maestra ==> n == 20
    ensures given.None? && !maestra ==> n == 10
  {
    given.GetOr(if maestra then MaestraLimitDefault else SearchLimitDefault)
  }

  /**
   * A listing: the first `limit` results of the page, numbered from 1, and
   * whether the page held more than were shown.
   */
  method Listing<T>(results: seq<T>, limit: nat) returns (shown: seq<(nat, T)>, truncated: bool)
    ensures |shown| == if |results| < limit then |results| else limit
    ensures forall k :: 0 <= k < |shown| ==> shown[k] == (k + 1, results[k])
    ensures truncated <==> |results| > limit
  {
    shown := [];
    var i := 0;
    while i < |results| && i < limit
      invariant 0 <= i <= |results| && i <= limit
      invariant |shown| == i
      invariant forall k :: 0 <= k < i ==> shown[k] == (k + 1, results[k])
    {
      shown := shown + [(i + 1, results[i])];
      i := i + 1;
    }
    truncated := |results| > limit;
  }
}
