/**
 * The dictionary ("catalog") converters: each takes the record list of one
 * flat XML dictionary file and writes one CSV record per XML record, in
 * document order, preceded by a header of the record's field names. The XML
 * reader itself is not modelled: a converter receives what it produced.
 */
module Catalog {
  import opened Wrappers
  import opened Text
  import opened Csv

  /** What the XML side hands a converter: the file could not be opened, did not deserialise, or gave a record list. */
  datatype Source<R> = Unreadable(ioError: string) | Malformed(xmlError: string) | Parsed(records: seq<R>)

  /** A converter's error: an I/O error passed through, or a deserialisation error with the catalog's context text. */
  datatype ConvertError = Io(message: string) | Deserialize(context: string, cause: string)

  /** The error a converter reports for a source that gave no records. */
  function SourceError<R>(src: Source<R>, context: string): ConvertError
    requires !src.Parsed?
  {
    match src
    case Unreadable(e) => Io(e)
    case Malformed(e) => Deserialize(context, e)
  }

  /** The rows of `records`, each passed through `transform` and then `toRow`, in order. */
  function MapRows<R>(records: seq<R>, toRow: R -> Row, transform: R -> R): (rows: seq<Row>)
    ensures |rows| == |records|
    ensures forall k :: 0 <= k < |records| ==> rows[k] == toRow(transform(records[k]))
  {
    if records == [] then []
    else MapRows(records[..|records| - 1], toRow, transform) + [toRow(transform(records[|records| - 1]))]
  }

  /** The rows of the first i + 1 records: those of the first i, then record i's row. */
  lemma MapRowsStep<R>(records: seq<R>, i: nat, toRow: R -> Row, transform: R -> R)
    requires i < |records|
    ensures MapRows(records[..i + 1], toRow, transform) == MapRows(records[..i], toRow, transform) + [toRow(transform(records[i]))]
  {
    assert records[..i + 1][..i] == records[..i];
  }

  /**
   * What a converter produces from `src`: the error when no record list was
   * obtained, otherwise the file's lines: nothing for an empty list, else the
   * header and then one row per record, in document order, none dropped.
   */
  function CatalogCsv<R>(src: Source<R>, context: string, header: Row, toRow: R -> Row, transform: R -> R)
    : (r: Result<seq<Row>, ConvertError>)
    ensures r.Success? <==> src.Parsed?
    ensures src.Unreadable? ==> r == Failure(Io(src.ioError))
    ensures src.Malformed? ==> r == Failure(Deserialize(context, src.xmlError))
    ensures src.Parsed? && src.records == [] ==> r.value == []
    ensures src.Parsed? && src.records != [] ==>
              |r.value| == |src.records| + 1 && r.value[0] == header &&
              forall k :: 0 <= k < |src.records| ==> r.value[k + 1] == toRow(transform(src.records[k]))
  {
    if src.Parsed? then Success(SerializedFile(header, MapRows(src.records, toRow, transform)))
    else Failure(SourceError(src, context))
  }

  // ---------------------------------------------------------------------------
  // Records and their CSV rows. Headers are the record's field names; optional
  // fields are written as empty fields when absent.
  // ---------------------------------------------------------------------------

  datatype AtcRecord = AtcRecord(number: I32, code: string, description: string)
  datatype DcpRecord = DcpRecord(code: string, name: string, dcsaCode: string)
  datatype DcpfRecord = DcpfRecord(code: string, name: string, dcpCode: string)
  datatype PharmaceuticalFormRecord = PharmaceuticalFormRecord(code: string, name: string, simplifiedCode: string)
  datatype LaboratoryRecord = LaboratoryRecord(
    code: string, name: string,
    address: Option<string>, zip: Option<string>, city: Option<string>, vat: Option<string>)
  datatype ActiveIngredientRecord = ActiveIngredientRecord(number: string, code: string, name: string)
  /**
   * Seven dictionaries (DCSA, containers, excipients, simplified forms,
   * registration statuses, container units, administration routes) have
   * records of just a code and a name; they differ only in their XML tags.
   */
  datatype CodeNameRecord = CodeNameRecord(code: string, name: string)

  /** The CSV text of an optional field: empty when absent. */
  function OrEmpty(v: Option<string>): (s: string)
    ensures v.None? ==> s == ""
    ensures v.Some? ==> s == v.value
  {
    v.GetOr("")
  }

  /** The cell of an optional value: empty when the value is absent, the value itself when present. */
  predicate WrittenAs(cell: string, v: Option<string>) {
    (v.None? ==> cell == "") && (v.Some? ==> cell == v.value)
  }

  const AtcHeader: Row := ["number", "code", "description"]
  /** An ATC row: the number in decimal, then the code and the description, under the header's three columns. */
  function AtcRow(r: AtcRecord): (row: Row)
    ensures |row| == |AtcHeader| == 3
    ensures row[0] == Decimal(r.number as int) && row[1] == r.code && row[2] == r.description
  {
    [Decimal(r.number as int), r.code, r.description]
  }

  const DcpHeader: Row := ["code", "name", "dcsa_code"]
  function DcpRow(r: DcpRecord): (row: Row)
    ensures |row| == |DcpHeader| == 3
    ensures row[0] == r.code && row[1] == r.name && row[2] == r.dcsaCode
  {
    [r.code, r.name, r.dcsaCode]
  }

  const DcpfHeader: Row := ["code", "name", "dcp_code"]
  function DcpfRow(r: DcpfRecord): (row: Row)
    ensures |row| == |DcpfHeader| == 3
    ensures row[0] == r.code && row[1] == r.name && row[2] == r.dcpCode
  {
    [r.code, r.name, r.dcpCode]
  }

  const PharmaceuticalFormHeader: Row := ["code", "name", "simplified_code"]
  function PharmaceuticalFormRow(r: PharmaceuticalFormRecord): (row: Row)
    ensures |row| == |PharmaceuticalFormHeader| == 3
    ensures row[0] == r.code && row[1] == r.name && row[2] == r.simplifiedCode
  {
    [r.code, r.name, r.simplifiedCode]
  }

  const LaboratoryHeader: Row := ["code", "name", "address", "zip", "city", "vat"]

  /** A laboratory row has the header's six columns whichever optional fields are present. */
  function LaboratoryRow(r: LaboratoryRecord): (row: Row)
    ensures |row| == |LaboratoryHeader| == 6
    ensures row[0] == r.code && row[1] == r.name
    ensures WrittenAs(row[2], r.address) && WrittenAs(row[3], r.zip)
    ensures WrittenAs(row[4], r.city) && WrittenAs(row[5], r.vat)
  {
    [r.code, r.name, OrEmpty(r.address), OrEmpty(r.zip), OrEmpty(r.city), OrEmpty(r.vat)]
  }

  const ActiveIngredientHeader: Row := ["number", "code", "name"]
  function ActiveIngredientRow(r: ActiveIngredientRecord): (row: Row)
    ensures |row| == |ActiveIngredientHeader| == 3
    ensures row[0] == r.number && row[1] == r.code && row[2] == r.name
  {
    [r.number, r.code, r.name]
  }

  const CodeNameHeader: Row := ["code", "name"]
  function CodeNameRow(r: CodeNameRecord): (row: Row)
    ensures |row| == |CodeNameHeader| == 2
    ensures row[0] == r.code && row[1] == r.name
  {
    [r.code, r.name]
  }

  // ---------------------------------------------------------------------------
  // The ATC cleaning rule.
  // ---------------------------------------------------------------------------

  /** The prefix the ATC dictionary repeats in front of a description. */
  function CodePrefix(code: string): string {
    code + " - "
  }

  /**
   * Removes `code + " - "` from the front of `description` when it is there,
   * exactly once; otherwise `description` is returned unchanged.
   */
  function StripCodePrefix(code: string, description: string): (r: string)
    ensures CodePrefix(code) <= description ==> CodePrefix(code) + r == description
    ensures !(CodePrefix(code) <= description) ==> r == description
  {
    var prefix := CodePrefix(code);
    if prefix <= description then description[|prefix|..] else description
  }

  /** A description made of the prefix and a rest comes out as the rest. */
  lemma StripCodePrefixOf(code: string, rest: string)
    ensures StripCodePrefix(code, CodePrefix(code) + rest) == rest
  {
    var d := CodePrefix(code) + rest;
    assert CodePrefix(code) <= d;
    assert d[|CodePrefix(code)|..] == rest;
  }

  lemma StripCodePrefixExample()
    ensures StripCodePrefix("A01", "A01 - DIGESTIVE") == "DIGESTIVE"
    ensures StripCodePrefix("B01", "B01 - BLOOD") == "BLOOD"
  {
    StripCodePrefixOf("A01", "DIGESTIVE");
    assert CodePrefix("A01") + "DIGESTIVE" == "A01 - DIGESTIVE";
    StripCodePrefixOf("B01", "BLOOD");
    assert CodePrefix("B01") + "BLOOD" == "B01 - BLOOD";
  }

  /**
   * A description whose prefix belongs to another code of the same length
   * (another code of the same ATC level) is left alone.
   */
  lemma StripCodePrefixOtherCode(code: string, other: string, rest: string)
    requires |code| == |other| && code != other
    ensures StripCodePrefix(code, CodePrefix(other) + rest) == CodePrefix(other) + rest
  {
    var d := CodePrefix(other) + rest;
    assert d[..|code|] == other != code;
  }

  /** Only one copy of the prefix is removed. */
  lemma StripCodePrefixOnce(code: string, rest: string)
    ensures StripCodePrefix(code, CodePrefix(code) + CodePrefix(code) + rest) == CodePrefix(code) + rest
  {
    var d := CodePrefix(code) + CodePrefix(code) + rest;
    assert CodePrefix(code) <= d;
    assert d[|CodePrefix(code)|..] == CodePrefix(code) + rest;
  }

  /** The in-place edit the ATC converter applies to each record before writing it. */
  function CleanAtcRecord(r: AtcRecord): (c: AtcRecord)
    ensures c.number == r.number && c.code == r.code
    ensures c.description == StripCodePrefix(r.code, r.description)
  {
    r.(description := StripCodePrefix(r.code, r.description))
  }

  function AtcCleanRow(r: AtcRecord): Row {
    AtcRow(CleanAtcRecord(r))
  }

  // ---------------------------------------------------------------------------
  // The converter loop shared by every catalog, and one instance per catalog.
  // ---------------------------------------------------------------------------

  /**
   * The converter body: fails before any output when the source gave no
   * records; otherwise serialises every record (after `transform`, the ATC
   * cleaning hook) in document order, with no filtering.
   */
  method ConvertXmlList<R(!new)>(src: Source<R>, context: string, header: Row, toRow: R -> Row, transform: R -> R)
    returns (r: Result<seq<Row>, ConvertError>)
    requires forall x :: |toRow(x)| == |header|
    ensures r == CatalogCsv(src, context, header, toRow, transform)
  {
    if !src.Parsed? {
      return Failure(SourceError(src, context));
    }
    var records := src.records;
    var wtr := new CsvWriter();
    ghost var rows: seq<Row> := [];
    for i := 0 to |records|
      invariant wtr.Valid()
      invariant rows == MapRows(records[..i], toRow, transform)
      invariant wtr.lines == SerializedFile(header, rows)
      invariant wtr.headerWritten == (i > 0)
      invariant wtr.headerWritten ==> wtr.width == Some(|header|)
      invariant !wtr.headerWritten ==> wtr.width.None?
    {
      var record := transform(records[i]);
      var row := toRow(record);
      assert |row| == |header|;
      ghost var before := wtr.lines;
      var ok := wtr.Serialize(header, row);
      WrittenStep(header, rows, row, before, wtr.lines);
      MapRowsStep(records, i, toRow, transform);
      rows := rows + [row];
    }
    assert records[..|records|] == records;
    CatalogCsvParsed(src, context, header, toRow, transform);
    r := Success(wtr.lines);
  }

  /** The file a converter produces from a parsed source. */
  lemma CatalogCsvParsed<R>(src: Source<R>, context: string, header: Row, toRow: R -> Row, transform: R -> R)
    requires src.Parsed?
    ensures CatalogCsv(src, context, header, toRow, transform) == Success(SerializedFile(header, MapRows(src.records, toRow, transform)))
  {
  }

  /** When every row has the header's width, so has every line of the file. */
  lemma CatalogCsvUniform<R(!new)>(src: Source<R>, context: string, header: Row, toRow: R -> Row, transform: R -> R)
    requires src.Parsed?
    requires forall x :: |toRow(x)| == |header|
    ensures Uniform(CatalogCsv(src, context, header, toRow, transform).value, |header|)
  {
    var lines := CatalogCsv(src, context, header, toRow, transform).value;
    forall k | 0 <= k < |lines|
      ensures |lines[k]| == |header|
    {
      if k > 0 {
        assert lines[k] == toRow(transform(src.records[k - 1]));
      }
    }
  }

  function Identity<R>(x: R): R {
    x
  }

  method ParseAtcXmlToCsv(src: Source<AtcRecord>) returns (r: Result<seq<Row>, ConvertError>)
    ensures r == CatalogCsv(src, "Failed to deserialize ATC XML", AtcHeader, AtcRow, CleanAtcRecord)
  {
    r := ConvertXmlList(src, "Failed to deserialize ATC XML", AtcHeader, AtcRow, CleanAtcRecord);
  }

  method ParseDcpXmlToCsv(src: Source<DcpRecord>) returns (r: Result<seq<Row>, ConvertError>)
    ensures r == CatalogCsv(src, "Failed to deserialize DCP XML", DcpHeader, DcpRow, Identity)
  {
    r := ConvertXmlList(src, "Failed to deserialize DCP XML", DcpHeader, DcpRow, Identity);
  }

  method ParseDcpfXmlToCsv(src: Source<DcpfRecord>) returns (r: Result<seq<Row>, ConvertError>)
    ensures r == CatalogCsv(src, "Failed to deserialize DCPF XML", DcpfHeader, DcpfRow, Identity)
  {
    r := ConvertXmlList(src, "Failed to deserialize DCPF XML", DcpfHeader, DcpfRow, Identity);
  }

  method ParseDcsaXmlToCsv(src: Source<CodeNameRecord>) returns (r: Result<seq<Row>, ConvertError>)
    ensures r == CatalogCsv(src, "Failed to deserialize DCSA XML", CodeNameHeader, CodeNameRow, Identity)
  {
    r := ConvertXmlList(src, "Failed to deserialize DCSA XML", CodeNameHeader, CodeNameRow, Identity);
  }

  method ParseEnvasesXmlToCsv(src: Source<CodeNameRecord>) returns (r: Result<seq<Row>, ConvertError>)
    ensures r == CatalogCsv(src, "Failed to deserialize Envases XML", CodeNameHeader, CodeNameRow, Identity)
  {
    r := ConvertXmlList(src, "Failed to deserialize Envases XML", CodeNameHeader, CodeNameRow, Identity);
  }

  method ParseExcipientesXmlToCsv(src: Source<CodeNameRecord>) returns (r: Result<seq<Row>, ConvertError>)
    ensures r == CatalogCsv(src, "Failed to deserialize Excipientes XML", CodeNameHeader, CodeNameRow, Identity)
  {
    r := ConvertXmlList(src, "Failed to deserialize Excipientes XML", CodeNameHeader, CodeNameRow, Identity);
  }

  method ParseFormaFarmaceuticaXmlToCsv(src: Source<PharmaceuticalFormRecord>) returns (r: Result<seq<Row>, ConvertError>)
    ensures r == CatalogCsv(src, "Failed to deserialize Forma Farmaceutica XML", PharmaceuticalFormHeader, PharmaceuticalFormRow, Identity)
  {
    r := ConvertXmlList(src, "Failed to deserialize Forma Farmaceutica XML", PharmaceuticalFormHeader, PharmaceuticalFormRow, Identity);
  }

  method ParseFormaFarmaceuticaSimplificadaXmlToCsv(src: Source<CodeNameRecord>) returns (r: Result<seq<Row>, ConvertError>)
    ensures r == CatalogCsv(src, "Failed to deserialize Forma Farmaceutica Simplificada XML", CodeNameHeader, CodeNameRow, Identity)
  {
    r := ConvertXmlList(src, "Failed to deserialize Forma Farmaceutica Simplificada XML", CodeNameHeader, CodeNameRow, Identity);
  }

  method ParseLaboratorioXmlToCsv(src: Source<LaboratoryRecord>) returns (r: Result<seq<Row>, ConvertError>)
    ensures r == CatalogCsv(src, "Failed to deserialize Laboratorio XML", LaboratoryHeader, LaboratoryRow, Identity)
  {
    r := ConvertXmlList(src, "Failed to deserialize Laboratorio XML", LaboratoryHeader, LaboratoryRow, Identity);
  }

  method ParsePrincipioActivoXmlToCsv(src: Source<ActiveIngredientRecord>) returns (r: Result<seq<Row>, ConvertError>)
    ensures r == CatalogCsv(src, "Failed to deserialize Principio Activo XML", ActiveIngredientHeader, ActiveIngredientRow, Identity)
  {
    r := ConvertXmlList(src, "Failed to deserialize Principio Activo XML", ActiveIngredientHeader, ActiveIngredientRow, Identity);
  }

  method ParseSituacionRegistroXmlToCsv(src: Source<CodeNameRecord>) returns (r: Result<seq<Row>, ConvertError>)
    ensures r == CatalogCsv(src, "Failed to deserialize Situacion Registro XML", CodeNameHeader, CodeNameRow, Identity)
  {
    r := ConvertXmlList(src, "Failed to deserialize Situacion Registro XML", CodeNameHeader, CodeNameRow, Identity);
  }

  method ParseUnidadContenidoXmlToCsv(src: Source<CodeNameRecord>) returns (r: Result<seq<Row>, ConvertError>)
    ensures r == CatalogCsv(src, "Failed to deserialize Unidad Contenido XML", CodeNameHeader, CodeNameRow, Identity)
  {
    r := ConvertXmlList(src, "Failed to deserialize Unidad Contenido XML", CodeNameHeader, CodeNameRow, Identity);
  }

  method ParseViaAdministracionXmlToCsv(src: Source<CodeNameRecord>) returns (r: Result<seq<Row>, ConvertError>)
    ensures r == CatalogCsv(src, "Failed to deserialize Via Administracion XML", CodeNameHeader, CodeNameRow, Identity)
  {
    r := ConvertXmlList(src, "Failed to deserialize Via Administracion XML", CodeNameHeader, CodeNameRow, Identity);
  }

  /** The two-record ATC document of the converter's unit test: descriptions lose their code prefix. */
  lemma AtcConversionExample()
    ensures CatalogCsv(Parsed([AtcRecord(1, "A01", "A01 - DIGESTIVE"), AtcRecord(2, "B01", "B01 - BLOOD")]),
                       "Failed to deserialize ATC XML", AtcHeader, AtcRow, CleanAtcRecord)
         == Success([["number", "code", "description"], ["1", "A01", "DIGESTIVE"], ["2", "B01", "BLOOD"]])
  {
    var records := [AtcRecord(1, "A01", "A01 - DIGESTIVE"), AtcRecord(2, "B01", "B01 - BLOOD")];
    StripCodePrefixExample();
    assert Decimal(1) == "1" && Decimal(2) == "2";
    assert AtcRow(CleanAtcRecord(records[0])) == ["1", "A01", "DIGESTIVE"];
    assert AtcRow(CleanAtcRecord(records[1])) == ["2", "B01", "BLOOD"];
    var rows := [["1", "A01", "DIGESTIVE"], ["2", "B01", "BLOOD"]];
    assert MapRows(records, AtcRow, CleanAtcRecord) == rows;
    assert SerializedFile(AtcHeader, rows) == [AtcHeader] + rows;
    assert CatalogCsv(Parsed(records), "Failed to deserialize ATC XML", AtcHeader, AtcRow, CleanAtcRecord)
        == Success([AtcHeader] + rows);
    assert [AtcHeader] + rows == [["number", "code", "description"], ["1", "A01", "DIGESTIVE"], ["2", "B01", "BLOOD"]];
  }

  /** The laboratory test document: absent optional fields become empty columns. */
  lemma LaboratoryConversionExample()
    ensures CatalogCsv(Parsed([LaboratoryRecord("L01", "LAB NAME", Some("ADDR"), Some("ZIP"), Some("CITY"), Some("VAT")),
                               LaboratoryRecord("L02", "LAB NAME 2", None, None, None, None)]),
                       "Failed to deserialize Laboratorio XML", LaboratoryHeader, LaboratoryRow, Identity)
         == Success([["code", "name", "address", "zip", "city", "vat"],
                     ["L01", "LAB NAME", "ADDR", "ZIP", "CITY", "VAT"],
                     ["L02", "LAB NAME 2", "", "", "", ""]])
  {
    var records := [LaboratoryRecord("L01", "LAB NAME", Some("ADDR"), Some("ZIP"), Some("CITY"), Some("VAT")),
                    LaboratoryRecord("L02", "LAB NAME 2", None, None, None, None)];
    var rows := [["L01", "LAB NAME", "ADDR", "ZIP", "CITY", "VAT"], ["L02", "LAB NAME 2", "", "", "", ""]];
    assert MapRows(records, LaboratoryRow, Identity) == rows;
    assert SerializedFile(LaboratoryHeader, rows) == [LaboratoryHeader] + rows;
    assert [LaboratoryHeader] + rows
        == [["code", "name", "address", "zip", "city", "vat"],
            ["L01", "LAB NAME", "ADDR", "ZIP", "CITY", "VAT"],
            ["L02", "LAB NAME 2", "", "", "", ""]];
  }
}
