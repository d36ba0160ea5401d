/**
 * The prescription dictionary: decoding of its switch fields, the flat
 * converter (one CSV of the main records) and the decomposer that writes the
 * main table plus six child tables for the nested collections, each child row
 * keyed by the record's national code (`cod_nacion`).
 */
module Prescription {
  import opened Wrappers
  import opened Csv
  import opened Flags
  import opened Catalog

  /** One active ingredient of a form's composition; every field may be absent. */
  datatype ActiveIngredient = ActiveIngredient(
    activeIngredientCode: Option<string>,
    order: Option<string>,
    dose: Option<string>,
    doseUnit: Option<string>,
    compositionDose: Option<string>,
    compositionUnit: Option<string>,
    administrationDose: Option<string>,
    administrationUnit: Option<string>,
    prescriptionDose: Option<string>,
    prescriptionUnit: Option<string>)

  datatype AdminRoute = AdminRoute(routeCode: string)

  /** The pharmaceutical form of a prescription, with its composition and routes. */
  datatype PrescriptionForm = PrescriptionForm(
    formCode: string,
    simplifiedFormCode: string,
    numActiveIngredients: Option<string>,
    activeIngredients: seq<ActiveIngredient>,
    adminRoutes: seq<AdminRoute>)

  datatype AtcDuplicate = AtcDuplicate(
    duplicateAtc: string,
    description: Option<string>,
    effect: Option<string>,
    recommendation: Option<string>)

  datatype PrescriptionAtc = PrescriptionAtc(atcCode: string, duplicates: seq<AtcDuplicate>)

  datatype SupplyProblem = SupplyProblem(startDate: Option<string>, observations: Option<string>)

  /** How a boolean field is written to CSV. */
  function BoolText(b: bool): (s: string)
    ensures s == "true" <==> b
    ensures s == "false" <==> !b
  {
    if b then "true" else "false"
  }

  /**
   * A prescription record: the 42 columns of the main table in column order,
   * then the nested collections, which are never written to the main table.
   * `F` is the type of the 20 switch fields: their `"0"`/`"1"` text as read,
   * or the decoded boolean.
   */
  datatype PrescriptionRecord<F> = PrescriptionRecord(
    codNacion: string,
    nroDefinitivo: string,
    desNomco: string,
    desPrese: string,
    codDcsa: Option<string>,
    codDcp: Option<string>,
    codDcpf: Option<string>,
    desDosific: Option<string>,
    codEnvase: Option<string>,
    contenido: Option<string>,
    unidContenido: Option<string>,
    nroConte: Option<string>,
    swPsicotropo: F,
    swEstupefaciente: F,
    swAfectaConduccion: F,
    swTrianguloNegro: F,
    urlFictec: Option<string>,
    urlProsp: Option<string>,
    swReceta: F,
    swGenerico: F,
    swSustituible: F,
    swEnvaseClinico: F,
    swUsoHospitalario: F,
    swDiagnosticoHospitalario: F,
    swTld: F,
    swEspecialControlMedico: F,
    swHuerfano: F,
    swBaseAPlantas: F,
    laboratorioTitular: Option<string>,
    laboratorioComercializador: Option<string>,
    fechaAutorizacion: Option<string>,
    swComercializado: F,
    fecComer: Option<string>,
    codSitreg: Option<string>,
    codSitregPresen: Option<string>,
    fechaSituacionRegistro: Option<string>,
    fecSitregPresen: Option<string>,
    swTieneExcipientesDeclObligatoria: F,
    biosimilar: F,
    importacionParalela: F,
    radiofarmaco: F,
    serializacion: F,
    forms: Option<PrescriptionForm>,
    atcCodes: seq<PrescriptionAtc>,
    supplyProblems: seq<SupplyProblem>)

  type RawPrescription = PrescriptionRecord<string>
  type Prescription = PrescriptionRecord<bool>

  /** The number of switch fields. */
  const FlagCount := 20

  /** The switch fields in column order. */
  function FlagsOf<F>(r: PrescriptionRecord<F>): (fs: seq<F>)
    ensures |fs| == FlagCount
  {
    [r.swPsicotropo, r.swEstupefaciente, r.swAfectaConduccion, r.swTrianguloNegro, r.swReceta, r.swGenerico, r.swSustituible, r.swEnvaseClinico, r.swUsoHospitalario, r.swDiagnosticoHospitalario, r.swTld, r.swEspecialControlMedico, r.swHuerfano, r.swBaseAPlantas, r.swComercializado, r.swTieneExcipientesDeclObligatoria, r.biosimilar, r.importacionParalela, r.radiofarmaco, r.serializacion]
  }

  /** `r` with its switch fields replaced by `bs`, in column order; every other field kept. */
  function WithFlags<F, G>(r: PrescriptionRecord<F>, bs: seq<G>): (d: PrescriptionRecord<G>)
    requires |bs| == FlagCount
    ensures FlagsOf(d) == bs
  {
    PrescriptionRecord(
      r.codNacion,
      r.nroDefinitivo,
      r.desNomco,
      r.desPrese,
      r.codDcsa,
      r.codDcp,
      r.codDcpf,
      r.desDosific,
      r.codEnvase,
      r.contenido,
      r.unidContenido,
      r.nroConte,
      bs[0],
      bs[1],
      bs[2],
      bs[3],
      r.urlFictec,
      r.urlProsp,
      bs[4],
      bs[5],
      bs[6],
      bs[7],
      bs[8],
      bs[9],
      bs[10],
      bs[11],
      bs[12],
      bs[13],
      r.laboratorioTitular,
      r.laboratorioComercializador,
      r.fechaAutorizacion,
      bs[14],
      r.fecComer,
      r.codSitreg,
      r.codSitregPresen,
      r.fechaSituacionRegistro,
      r.fecSitregPresen,
      bs[15],
      bs[16],
      bs[17],
      bs[18],
      bs[19],
      r.forms,
      r.atcCodes,
      r.supplyProblems)
  }

  /** The main table's header: the record's serialised field names. */
  const MainHeader: Row := ["cod_nacion", "nro_definitivo", "des_nomco", "des_prese", "cod_dcsa", "cod_dcp", "cod_dcpf", "des_dosific", "cod_envase", "contenido", "unid_contenido", "nro_conte", "sw_psicotropo", "sw_estupefaciente", "sw_afecta_conduccion", "sw_triangulo_negro", "url_fictec", "url_prosp", "sw_receta", "sw_generico", "sw_sustituible", "sw_envase_clinico", "sw_uso_hospitalario", "sw_diagnostico_hospitalario", "sw_tld", "sw_especial_control_medico", "sw_huerfano", "sw_base_a_plantas", "laboratorio_titular", "laboratorio_comercializador", "fecha_autorizacion", "sw_comercializado", "fec_comer", "cod_sitreg", "cod_sitreg_presen", "fecha_situacion_registro", "fec_sitreg_presen", "sw_tiene_excipientes_decl_obligatoria", "biosimilar", "importacion_paralela", "radiofarmaco", "serializacion"]

  /** The main-table row of a decoded record: one cell per header column, the national code first. */
  function MainRow(r: Prescription): (row: Row)
    ensures |row| == |MainHeader| && row[0] == r.codNacion
  {
    [r.codNacion,
     r.nroDefinitivo,
     r.desNomco,
     r.desPrese,
     OrEmpty(r.codDcsa),
     OrEmpty(r.codDcp),
     OrEmpty(r.codDcpf),
     OrEmpty(r.desDosific),
     OrEmpty(r.codEnvase),
     OrEmpty(r.contenido),
     OrEmpty(r.unidContenido),
     OrEmpty(r.nroConte),
     BoolText(r.swPsicotropo),
     BoolText(r.swEstupefaciente),
     BoolText(r.swAfectaConduccion),
     BoolText(r.swTrianguloNegro),
     OrEmpty(r.urlFictec),
     OrEmpty(r.urlProsp),
     BoolText(r.swReceta),
     BoolText(r.swGenerico),
     BoolText(r.swSustituible),
     BoolText(r.swEnvaseClinico),
     BoolText(r.swUsoHospitalario),
     BoolText(r.swDiagnosticoHospitalario),
     BoolText(r.swTld),
     BoolText(r.swEspecialControlMedico),
     BoolText(r.swHuerfano),
     BoolText(r.swBaseAPlantas),
     OrEmpty(r.laboratorioTitular),
     OrEmpty(r.laboratorioComercializador),
     OrEmpty(r.fechaAutorizacion),
     BoolText(r.swComercializado),
     OrEmpty(r.fecComer),
     OrEmpty(r.codSitreg),
     OrEmpty(r.codSitregPresen),
     OrEmpty(r.fechaSituacionRegistro),
     OrEmpty(r.fecSitregPresen),
     BoolText(r.swTieneExcipientesDeclObligatoria),
     BoolText(r.biosimilar),
     BoolText(r.importacionParalela),
     BoolText(r.radiofarmaco),
     BoolText(r.serializacion)]
  }


  // ---------------------------------------------------------------------------
  // Decoding the switch fields.
  // ---------------------------------------------------------------------------

  /** Replacing the switches by the ones already there changes nothing. */
  lemma WithOwnFlags<F>(r: PrescriptionRecord<F>)
    ensures WithFlags(r, FlagsOf(r)) == r
  {
  }

  /** Replacing the switches twice keeps only the second replacement. */
  lemma WithFlagsTwice<F, G, H>(r: PrescriptionRecord<F>, bs: seq<G>, cs: seq<H>)
    requires |bs| == FlagCount && |cs| == FlagCount
    ensures WithFlags(WithFlags(r, bs), cs) == WithFlags(r, cs)
  {
  }

  /**
   * Deserialisation of one record's switches: fails on the first switch whose
   * text is not `"0"` or `"1"`, with that switch's error; otherwise every
   * switch becomes its boolean and every other field is kept.
   */
  function DecodeRecord(raw: RawPrescription): (r: Result<Prescription, string>)
    ensures r.Success? <==> forall i :: 0 <= i < FlagCount ==> IsFlagText(FlagsOf(raw)[i])
    ensures r.Success? ==> forall i :: 0 <= i < FlagCount ==> (FlagsOf(r.value)[i] <==> FlagsOf(raw)[i] == "1")
    ensures r.Success? ==> r.value == WithFlags(raw, FlagsOf(r.value))
    ensures r.Failure? ==> exists i :: FirstFailure(FlagsOf(raw), BoolFromString, i) && r.error == FlagError(FlagsOf(raw)[i])
  {
    match DecodeFlags(FlagsOf(raw))
    case Failure(e) => Failure(e)
    case Success(bs) => Success(WithFlags(raw, bs))
  }

  /** A decoded record gives back its source when its switches are put back. */
  lemma DecodeKeepsOtherFields(raw: RawPrescription)
    requires DecodeRecord(raw).Success?
    ensures WithFlags(DecodeRecord(raw).value, FlagsOf(raw)) == raw
  {
    var d := DecodeRecord(raw).value;
    WithFlagsTwice(raw, FlagsOf(d), FlagsOf(raw));
    WithOwnFlags(raw);
  }

  /** The source form of a decoded record: every switch back to its `"0"`/`"1"` text. */
  function EncodeRecord(d: Prescription): (raw: RawPrescription)
    ensures forall i :: 0 <= i < FlagCount ==> FlagsOf(raw)[i] == FlagText(FlagsOf(d)[i])
    ensures raw == WithFlags(d, FlagsOf(raw))
  {
    var fs := FlagsOf(d);
    var ts := seq(FlagCount, i requires 0 <= i < FlagCount => FlagText(fs[i]));
    WithFlagsTwice(d, ts, ts);
    WithFlags(d, ts)
  }

  /** Decoding undoes encoding. */
  lemma DecodeEncodeRecord(d: Prescription)
    ensures DecodeRecord(EncodeRecord(d)) == Success(d)
  {
    var raw := EncodeRecord(d);
    EncodedFlagsDecode(d);
    WithFlagsTwice(d, FlagsOf(raw), FlagsOf(d));
    WithOwnFlags(d);
  }

  /** The switch texts of an encoded record decode to the record's own switches. */
  lemma EncodedFlagsDecode(d: Prescription)
    ensures DecodeFlags(FlagsOf(EncodeRecord(d))) == Success(FlagsOf(d))
  {
    DecodeFlagTexts(FlagsOf(d), FlagsOf(EncodeRecord(d)));
  }

  /** Deserialisation of a document: the records in order, or the first bad record's error. */
  function DecodeAll(raws: seq<RawPrescription>): Result<seq<Prescription>, string> {
    MapUntilFailure(raws, DecodeRecord)
  }

  /** The record list a converter sees: a bad switch is a deserialisation error like any other. */
  function DecodeSource(src: Source<RawPrescription>): (s: Source<Prescription>)
    ensures s.Unreadable? <==> src.Unreadable?
    ensures s.Parsed? <==> src.Parsed? && DecodeAll(src.records).Success?
  {
    match src
    case Unreadable(e) => Unreadable(e)
    case Malformed(e) => Malformed(e)
    case Parsed(raws) =>
      match DecodeAll(raws)
      case Failure(e) => Malformed(e)
      case Success(ds) => Parsed(ds)
  }

  const PrescriptionContext := "Failed to deserialize Prescription XML"

  /** The flat converter: every record's main row under the main header. */
  method ParsePrescriptionXmlToCsv(src: Source<RawPrescription>) returns (r: Result<seq<Row>, ConvertError>)
    ensures r == CatalogCsv(DecodeSource(src), PrescriptionContext, MainHeader, MainRow, Identity)
  {
    r := ConvertXmlList(DecodeSource(src), PrescriptionContext, MainHeader, MainRow, Identity);
  }

  /** The main row ignores the nested collections. */
  lemma MainRowSkipsNested(r: Prescription, forms: Option<PrescriptionForm>, atcs: seq<PrescriptionAtc>, problems: seq<SupplyProblem>)
    ensures MainRow(r.(forms := forms, atcCodes := atcs, supplyProblems := problems)) == MainRow(r)
  {
  }

  // ---------------------------------------------------------------------------
  // Child tables. None has a header record; each row starts with the national code.
  // ---------------------------------------------------------------------------

  /** Every row is non-empty and starts with `id`. */
  predicate KeyedBy(rows: seq<Row>, id: string) {
    forall k :: 0 <= k < |rows| ==> |rows[k]| > 0 && rows[k][0] == id
  }

  function FormRow(id: string, f: PrescriptionForm): (row: Row)
    ensures |row| == 4 && row[0] == id
    ensures row[1] == f.formCode && row[2] == f.simplifiedFormCode
    ensures WrittenAs(row[3], f.numActiveIngredients)
  {
    [id, f.formCode, f.simplifiedFormCode, OrEmpty(f.numActiveIngredients)]
  }

  function IngredientRow(id: string, a: ActiveIngredient): (row: Row)
    ensures |row| == 11 && row[0] == id
    ensures WrittenAs(row[1], a.activeIngredientCode) && WrittenAs(row[2], a.order)
    ensures WrittenAs(row[3], a.dose) && WrittenAs(row[4], a.doseUnit)
    ensures WrittenAs(row[5], a.compositionDose) && WrittenAs(row[6], a.compositionUnit)
    ensures WrittenAs(row[7], a.administrationDose) && WrittenAs(row[8], a.administrationUnit)
    ensures WrittenAs(row[9], a.prescriptionDose) && WrittenAs(row[10], a.prescriptionUnit)
  {
    [id, OrEmpty(a.activeIngredientCode), OrEmpty(a.order), OrEmpty(a.dose), OrEmpty(a.doseUnit),
     OrEmpty(a.compositionDose), OrEmpty(a.compositionUnit), OrEmpty(a.administrationDose),
     OrEmpty(a.administrationUnit), OrEmpty(a.prescriptionDose), OrEmpty(a.prescriptionUnit)]
  }

  function RouteRow(id: string, a: AdminRoute): (row: Row)
    ensures |row| == 2 && row[0] == id && row[1] == a.routeCode
  {
    [id, a.routeCode]
  }

  function AtcCodeRow(id: string, a: PrescriptionAtc): (row: Row)
    ensures |row| == 2 && row[0] == id && row[1] == a.atcCode
  {
    [id, a.atcCode]
  }

  function DuplicateRow(id: string, atcCode: string, d: AtcDuplicate): (row: Row)
    ensures |row| == 6 && row[0] == id && row[1] == atcCode && row[2] == d.duplicateAtc
    ensures WrittenAs(row[3], d.description) && WrittenAs(row[4], d.effect) && WrittenAs(row[5], d.recommendation)
  {
    [id, atcCode, d.duplicateAtc, OrEmpty(d.description), OrEmpty(d.effect), OrEmpty(d.recommendation)]
  }

  function SupplyRow(id: string, p: SupplyProblem): (row: Row)
    ensures |row| == 3 && row[0] == id
    ensures WrittenAs(row[1], p.startDate) && WrittenAs(row[2], p.observations)
  {
    [id, OrEmpty(p.startDate), OrEmpty(p.observations)]
  }

  /** The ingredient rows of one form, in composition order. */
  function IngredientRows(id: string, xs: seq<ActiveIngredient>): (rows: seq<Row>)
    ensures |rows| == |xs| && Uniform(rows, 11) && KeyedBy(rows, id)
    ensures forall k :: 0 <= k < |xs| ==> rows[k] == IngredientRow(id, xs[k])
  {
    if xs == [] then [] else IngredientRows(id, xs[..|xs| - 1]) + [IngredientRow(id, xs[|xs| - 1])]
  }

  function RouteRows(id: string, xs: seq<AdminRoute>): (rows: seq<Row>)
    ensures |rows| == |xs| && Uniform(rows, 2) && KeyedBy(rows, id)
    ensures forall k :: 0 <= k < |xs| ==> rows[k] == RouteRow(id, xs[k])
  {
    if xs == [] then [] else RouteRows(id, xs[..|xs| - 1]) + [RouteRow(id, xs[|xs| - 1])]
  }

  function AtcCodeRows(id: string, xs: seq<PrescriptionAtc>): (rows: seq<Row>)
    ensures |rows| == |xs| && Uniform(rows, 2) && KeyedBy(rows, id)
    ensures forall k :: 0 <= k < |xs| ==> rows[k] == AtcCodeRow(id, xs[k])
  {
    if xs == [] then [] else AtcCodeRows(id, xs[..|xs| - 1]) + [AtcCodeRow(id, xs[|xs| - 1])]
  }

  /** The duplicate rows of one ATC code, each carrying that code in its second column. */
  function DuplicateRows(id: string, atcCode: string, xs: seq<AtcDuplicate>): (rows: seq<Row>)
    ensures |rows| == |xs| && Uniform(rows, 6) && KeyedBy(rows, id)
    ensures forall k :: 0 <= k < |xs| ==> rows[k] == DuplicateRow(id, atcCode, xs[k])
  {
    if xs == [] then [] else DuplicateRows(id, atcCode, xs[..|xs| - 1]) + [DuplicateRow(id, atcCode, xs[|xs| - 1])]
  }

  /** The number of duplicates listed under the ATC codes `atcs`. */
  function DuplicateCount(atcs: seq<PrescriptionAtc>): nat {
    if atcs == [] then 0 else DuplicateCount(atcs[..|atcs| - 1]) + |atcs[|atcs| - 1].duplicates|
  }

  /** The duplicate rows of all ATC codes of a record, code by code: one per duplicate, none merged. */
  function AtcDuplicateRows(id: string, atcs: seq<PrescriptionAtc>): (rows: seq<Row>)
    ensures |rows| == DuplicateCount(atcs)
  {
    if atcs == [] then []
    else AtcDuplicateRows(id, atcs[..|atcs| - 1]) + DuplicateRows(id, atcs[|atcs| - 1].atcCode, atcs[|atcs| - 1].duplicates)
  }

  /** Duplicate rows are six columns wide and keyed by the record's national code. */
  lemma {:induction false} AtcDuplicateRowsShape(id: string, atcs: seq<PrescriptionAtc>)
    ensures Uniform(AtcDuplicateRows(id, atcs), 6) && KeyedBy(AtcDuplicateRows(id, atcs), id)
  {
    if atcs != [] {
      AtcDuplicateRowsShape(id, atcs[..|atcs| - 1]);
      var f := AtcDuplicateRows(id, atcs[..|atcs| - 1]);
      var last := atcs[|atcs| - 1];
      var g := DuplicateRows(id, last.atcCode, last.duplicates);
      forall k | |f| <= k < |f| + |g|
        ensures (f + g)[k] == g[k - |f|]
      {
      }
    }
  }

  /** Every row has six columns and names, in its second, one of the ATC codes `atcs`. */
  predicate NameAtcCodes(rows: seq<Row>, atcs: seq<PrescriptionAtc>) {
    forall k :: 0 <= k < |rows| ==> |rows[k]| == 6 && exists j :: 0 <= j < |atcs| && rows[k][1] == atcs[j].atcCode
  }

  /** A duplicate row names, in its second column, one of the record's ATC codes. */
  lemma {:induction false} AtcDuplicateRowsCodes(id: string, atcs: seq<PrescriptionAtc>)
    ensures NameAtcCodes(AtcDuplicateRows(id, atcs), atcs)
  {
    if atcs != [] {
      var front := atcs[..|atcs| - 1];
      var last := atcs[|atcs| - 1];
      AtcDuplicateRowsCodes(id, front);
      var f := AtcDuplicateRows(id, front);
      var g := DuplicateRows(id, last.atcCode, last.duplicates);
      var rows := AtcDuplicateRows(id, atcs);
      assert rows == f + g;
      forall k | 0 <= k < |rows|
        ensures |rows[k]| == 6 && exists j :: 0 <= j < |atcs| && rows[k][1] == atcs[j].atcCode
      {
        if k < |f| {
          assert |f[k]| == 6;
          var j :| 0 <= j < |front| && f[k][1] == front[j].atcCode;
          assert rows[k] == f[k];
          assert rows[k][1] == atcs[j].atcCode;
        } else {
          assert rows[k] == g[k - |f|];
          assert rows[k][1] == atcs[|atcs| - 1].atcCode;
        }
      }
    }
  }

  function SupplyRows(id: string, xs: seq<SupplyProblem>): (rows: seq<Row>)
    ensures |rows| == |xs| && Uniform(rows, 3) && KeyedBy(rows, id)
    ensures forall k :: 0 <= k < |xs| ==> rows[k] == SupplyRow(id, xs[k])
  {
    if xs == [] then [] else SupplyRows(id, xs[..|xs| - 1]) + [SupplyRow(id, xs[|xs| - 1])]
  }

  // What one record contributes to each child table.

  /** One form row exactly when the record has a form. */
  function FormRows(r: Prescription): (rows: seq<Row>)
    ensures |rows| == (if r.forms.Some? then 1 else 0)
    ensures Uniform(rows, 4) && KeyedBy(rows, r.codNacion)
  {
    if r.forms.Some? then [FormRow(r.codNacion, r.forms.value)] else []
  }

  /** Rows a record adds to the ingredient table: one per ingredient of its form, none without a form. */
  function IngredientCount(r: Prescription): nat {
    if r.forms.Some? then |r.forms.value.activeIngredients| else 0
  }

  /** Rows a record adds to the route table: one per route of its form, none without a form. */
  function RouteCount(r: Prescription): nat {
    if r.forms.Some? then |r.forms.value.adminRoutes| else 0
  }

  /** Rows a record adds to the duplicates table: one per duplicate of each of its ATC codes. */
  function RecordDuplicateCount(r: Prescription): nat {
    DuplicateCount(r.atcCodes)
  }

  /** Rows a record adds to the supply table: one per supply problem. */
  function SupplyProblemCount(r: Prescription): nat {
    |r.supplyProblems|
  }

  /** Ingredients and routes are written only under a form. */
  function IngredientRowsOf(r: Prescription): (rows: seq<Row>)
    ensures r.forms.None? ==> rows == []
    ensures r.forms.Some? ==> rows == IngredientRows(r.codNacion, r.forms.value.activeIngredients)
    ensures |rows| == IngredientCount(r)
    ensures Uniform(rows, 11) && KeyedBy(rows, r.codNacion)
  {
    if r.forms.Some? then IngredientRows(r.codNacion, r.forms.value.activeIngredients) else []
  }

  function RouteRowsOf(r: Prescription): (rows: seq<Row>)
    ensures r.forms.None? ==> rows == []
    ensures r.forms.Some? ==> rows == RouteRows(r.codNacion, r.forms.value.adminRoutes)
    ensures |rows| == RouteCount(r)
    ensures Uniform(rows, 2) && KeyedBy(rows, r.codNacion)
  {
    if r.forms.Some? then RouteRows(r.codNacion, r.forms.value.adminRoutes) else []
  }

  function AtcRowsOf(r: Prescription): (rows: seq<Row>)
    ensures |rows| == |r.atcCodes|
    ensures Uniform(rows, 2) && KeyedBy(rows, r.codNacion)
  {
    AtcCodeRows(r.codNacion, r.atcCodes)
  }

  function DuplicateRowsOf(r: Prescription): (rows: seq<Row>)
    ensures |rows| == RecordDuplicateCount(r)
    ensures Uniform(rows, 6) && KeyedBy(rows, r.codNacion)
  {
    AtcDuplicateRowsShape(r.codNacion, r.atcCodes);
    AtcDuplicateRows(r.codNacion, r.atcCodes)
  }

  function SupplyRowsOf(r: Prescription): (rows: seq<Row>)
    ensures |rows| == SupplyProblemCount(r)
    ensures Uniform(rows, 3) && KeyedBy(rows, r.codNacion)
  {
    SupplyRows(r.codNacion, r.supplyProblems)
  }

  /** A child table: the contributions of the records, in record order. */
  function Table(rs: seq<Prescription>, part: Prescription -> seq<Row>): (t: seq<Row>)
    ensures forall row :: row in t ==> exists r :: r in rs && row in part(r)
  {
    if rs == [] then [] else Table(rs[..|rs| - 1], part) + part(rs[|rs| - 1])
  }

  /** The seven files the decomposer writes. */
  datatype Tables = Tables(
    main: seq<Row>,
    forms: seq<Row>,
    ingredients: seq<Row>,
    routes: seq<Row>,
    atc: seq<Row>,
    duplicates: seq<Row>,
    supply: seq<Row>)

  function Decompose(rs: seq<Prescription>): (t: Tables)
    ensures t.main == [] <==> rs == []
    ensures rs != [] ==> |t.main| == |rs| + 1 && t.main[0] == MainHeader
    ensures forall k :: 0 <= k < |rs| ==> t.main[k + 1] == MainRow(rs[k])
  {
    Tables(
      SerializedFile(MainHeader, MapRows(rs, MainRow, Identity)),
      Table(rs, FormRows),
      Table(rs, IngredientRowsOf),
      Table(rs, RouteRowsOf),
      Table(rs, AtcRowsOf),
      Table(rs, DuplicateRowsOf),
      Table(rs, SupplyRowsOf))
  }

  /** What the decomposer produces from a document. */
  function DecomposeCsv(src: Source<RawPrescription>): (r: Result<Tables, ConvertError>)
    ensures r.Success? <==> src.Parsed? && DecodeAll(src.records).Success?
    ensures src.Unreadable? ==> r == Failure(Io(src.ioError))
    ensures src.Malformed? ==> r == Failure(Deserialize(PrescriptionContext, src.xmlError))
    ensures src.Parsed? && DecodeAll(src.records).Failure? ==>
              r == Failure(Deserialize(PrescriptionContext, DecodeAll(src.records).error))
    ensures r.Success? ==> r.value == Decompose(DecodeAll(src.records).value)
  {
    var s := DecodeSource(src);
    if s.Parsed? then Success(Decompose(s.records)) else Failure(SourceError(s, PrescriptionContext))
  }

  lemma TableSnoc(rs: seq<Prescription>, r: Prescription, part: Prescription -> seq<Row>)
    ensures Table(rs + [r], part) == Table(rs, part) + part(r)
  {
    assert (rs + [r])[..|rs|] == rs;
  }

  /** Every row is non-empty and starts with the national code of one of the records `rs`. */
  predicate KeyedByDocument(rows: seq<Row>, rs: seq<Prescription>) {
    forall k :: 0 <= k < |rows| ==> |rows[k]| > 0 && exists j :: 0 <= j < |rs| && rows[k][0] == rs[j].codNacion
  }

  /** Every child row names, in its first column, the national code of a record of the document. */
  lemma {:induction false} TableKeyed(rs: seq<Prescription>, part: Prescription -> seq<Row>)
    requires forall r :: KeyedBy(part(r), r.codNacion)
    ensures KeyedByDocument(Table(rs, part), rs)
  {
    if rs != [] {
      var front := rs[..|rs| - 1];
      TableKeyed(front, part);
      var t := Table(rs, part);
      forall k | 0 <= k < |t|
        ensures |t[k]| > 0 && exists j :: 0 <= j < |rs| && t[k][0] == rs[j].codNacion
      {
        if k < |Table(front, part)| {
          var j :| 0 <= j < |front| && Table(front, part)[k][0] == front[j].codNacion;
          assert t[k][0] == rs[j].codNacion;
        } else {
          assert t[k] == part(rs[|rs| - 1])[k - |Table(front, part)|];
          assert t[k][0] == rs[|rs| - 1].codNacion;
        }
      }
    }
  }

  /** A table whose every record contributes rows of width `n` has width `n` throughout. */
  lemma {:induction false} TableUniform(rs: seq<Prescription>, part: Prescription -> seq<Row>, n: nat)
    requires forall r :: Uniform(part(r), n)
    ensures Uniform(Table(rs, part), n)
  {
    if rs != [] {
      TableUniform(rs[..|rs| - 1], part, n);
      var front, last := Table(rs[..|rs| - 1], part), part(rs[|rs| - 1]);
      forall k | 0 <= k < |front| + |last|
        ensures |(front + last)[k]| == n
      {
        if k >= |front| {
          assert (front + last)[k] == last[k - |front|];
        }
      }
    }
  }

  /** The sum of `size` over the records. */
  function Total(rs: seq<Prescription>, size: Prescription -> nat): nat {
    if rs == [] then 0 else Total(rs[..|rs| - 1], size) + size(rs[|rs| - 1])
  }

  /** A table whose every record contributes `size` rows has the total of those sizes as its length. */
  lemma {:induction false} TableLength(rs: seq<Prescription>, part: Prescription -> seq<Row>, size: Prescription -> nat)
    requires forall r :: |part(r)| == size(r)
    ensures |Table(rs, part)| == Total(rs, size)
  {
    if rs != [] {
      TableLength(rs[..|rs| - 1], part, size);
    }
  }

  /** The number of records that have a pharmaceutical form. */
  function CountWithForm(rs: seq<Prescription>): (n: nat)
    ensures n <= |rs|
  {
    if rs == [] then 0 else CountWithForm(rs[..|rs| - 1]) + (if rs[|rs| - 1].forms.Some? then 1 else 0)
  }

  /** The forms table has one row per record with a form, and no header row. */
  lemma {:induction false} FormsTableCount(rs: seq<Prescription>)
    ensures |Table(rs, FormRows)| == CountWithForm(rs)
  {
    if rs != [] {
      FormsTableCount(rs[..|rs| - 1]);
    }
  }

  /** The ATC table has one row per ATC code of every record. */
  function CountAtcCodes(rs: seq<Prescription>): nat {
    if rs == [] then 0 else CountAtcCodes(rs[..|rs| - 1]) + |rs[|rs| - 1].atcCodes|
  }

  lemma {:induction false} AtcTableCount(rs: seq<Prescription>)
    ensures |Table(rs, AtcRowsOf)| == CountAtcCodes(rs)
  {
    if rs != [] {
      AtcTableCount(rs[..|rs| - 1]);
    }
  }

  /**
   * The main table of a decomposition: empty exactly when the document has no
   * record, otherwise the header and then one row per record, all as wide as
   * the header.
   */
  lemma DecomposeMainTable(rs: seq<Prescription>)
    ensures var t := Decompose(rs);
      && (t.main == [] <==> rs == [])
      && (rs != [] ==> |t.main| == |rs| + 1 && t.main[0] == MainHeader)
      && Uniform(t.main, |MainHeader|)
  {
    CatalogCsvUniform(Parsed(rs), PrescriptionContext, MainHeader, MainRow, Identity);
  }

  /**
   * The child tables of a decomposition have no header row and fixed widths
   * (so the writers' field-count check never fails). The forms table has one
   * row per record with a form; the ingredient and route tables one row per
   * ingredient and route of those forms; the ATC table one row per ATC code;
   * the duplicates table one row per duplicate of every ATC code, none merged;
   * the supply table one row per supply problem.
   */
  lemma DecomposeChildTables(rs: seq<Prescription>)
    ensures var t := Decompose(rs);
      && Uniform(t.forms, 4) && Uniform(t.ingredients, 11) && Uniform(t.routes, 2)
      && Uniform(t.atc, 2) && Uniform(t.duplicates, 6) && Uniform(t.supply, 3)
      && |t.forms| == CountWithForm(rs) && |t.atc| == CountAtcCodes(rs)
      && |t.ingredients| == Total(rs, IngredientCount) && |t.routes| == Total(rs, RouteCount)
      && |t.duplicates| == Total(rs, RecordDuplicateCount) && |t.supply| == Total(rs, SupplyProblemCount)
  {
    TableLength(rs, IngredientRowsOf, IngredientCount);
    TableLength(rs, RouteRowsOf, RouteCount);
    TableLength(rs, DuplicateRowsOf, RecordDuplicateCount);
    TableLength(rs, SupplyRowsOf, SupplyProblemCount);
    TableUniform(rs, FormRows, 4);
    TableUniform(rs, IngredientRowsOf, 11);
    TableUniform(rs, RouteRowsOf, 2);
    TableUniform(rs, AtcRowsOf, 2);
    TableUniform(rs, DuplicateRowsOf, 6);
    TableUniform(rs, SupplyRowsOf, 3);
    FormsTableCount(rs);
    AtcTableCount(rs);
  }

  /** Every child row is keyed by the national code of a record of the document. */
  lemma DecomposeKeys(rs: seq<Prescription>)
    ensures var t := Decompose(rs);
      && KeyedByDocument(t.forms, rs) && KeyedByDocument(t.ingredients, rs) && KeyedByDocument(t.routes, rs)
      && KeyedByDocument(t.atc, rs) && KeyedByDocument(t.duplicates, rs) && KeyedByDocument(t.supply, rs)
  {
    TableKeyed(rs, FormRows);
    TableKeyed(rs, IngredientRowsOf);
    TableKeyed(rs, RouteRowsOf);
    TableKeyed(rs, AtcRowsOf);
    TableKeyed(rs, DuplicateRowsOf);
    TableKeyed(rs, SupplyRowsOf);
  }

  /** The decoded record of the decomposer's unit test: one form with one ingredient and one route, one ATC code. */
  function ExampleRecord(): Prescription {
    PrescriptionRecord(
      "600000", "66337", "TEST", "TEST",
      None, None, None, None,
      None, None, None, None,
      false, false, false, false,
      None, None, true, true,
      true, true, true, false,
      false, false, false, false,
      None, None, None, false,
      None, None, None, None,
      None, false, false, false,
      false, true, Some(PrescriptionForm("288", "34", Some("1"), [ActiveIngredient(Some("160"), None, None, None, None, None, None, None, None, None)], [AdminRoute("49")])), [PrescriptionAtc("J01CR02", [])],
      [])
  }

  /** Decomposing that one-record document: a main table of header and one row. */
  lemma DecomposeExampleMain()
    ensures var t := Decompose([ExampleRecord()]);
      |t.main| == 2 && t.main[0] == MainHeader && t.main[1][0] == "600000"
  {
    var d := ExampleRecord();
    assert MapRows([d], MainRow, Identity) == [MainRow(d)];
    assert MainRow(d)[0] == d.codNacion == "600000";
  }

  /**
   * ... and one form row, one ingredient row, one route row, one ATC row, and
   * empty duplicate and supply tables, none with a header.
   */
  lemma DecomposeExampleChildren()
    ensures var t := Decompose([ExampleRecord()]);
      && t.forms == [["600000", "288", "34", "1"]]
      && t.ingredients == [["600000", "160", "", "", "", "", "", "", "", "", ""]]
      && t.routes == [["600000", "49"]]
      && t.atc == [["600000", "J01CR02"]]
      && t.duplicates == [] && t.supply == []
  {
    var d := ExampleRecord();
    assert Table([d], FormRows) == FormRows(d);
    assert Table([d], IngredientRowsOf) == IngredientRowsOf(d);
    assert Table([d], RouteRowsOf) == RouteRowsOf(d);
    assert Table([d], AtcRowsOf) == AtcRowsOf(d);
    assert Table([d], DuplicateRowsOf) == DuplicateRowsOf(d);
    assert Table([d], SupplyRowsOf) == SupplyRowsOf(d);
  }

  /**
   * The flat converter and the decomposer fail on the same documents with the
   * same error, and otherwise the flat file is exactly the main table.
   */
  lemma FlatFileIsMainTable(src: Source<RawPrescription>)
    ensures var flat := CatalogCsv(DecodeSource(src), PrescriptionContext, MainHeader, MainRow, Identity);
      && (flat.Success? <==> DecomposeCsv(src).Success?)
      && (flat.Success? ==> flat.value == DecomposeCsv(src).value.main)
      && (flat.Failure? ==> flat.error == DecomposeCsv(src).error)
  {
  }
}
