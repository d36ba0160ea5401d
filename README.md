# cima-rs core, modelled in Dafny

cima-rs is a Rust client for the CIMA service of the Spanish medicines agency
(AEMPS), and also a converter of the agency's "Nomenclátor" XML dictionaries
into CSV files. This project models the parts of the crate that decide things
and proves properties about them:

- **parser.rs.** This covers:
  - the `"0"`/`"1"` flag decoder;
  - the thirteen catalog converters generated by `impl_xml_parser!`, including the ATC description clean-up;
  - the flat prescription converter;
  - `parse_prescription_xml_to_csvs`, which splits the prescription document into seven tables: one main table and six child tables keyed by `cod_nacion`.

  Each converter is modelled as a method that drives a CSV writer object, record by record. Each method is proved equal to a specification function of its input document.
- **The endpoint parameter structs.** Their `to_query_params` methods are modelled, together with the identifier checks of `get_medicamento` and `get_medication`. Each `to_query_params` is modelled as a method with one guarded `push` per field. It is proved equal to `Present(Fields(p))`, the set slots of the struct in field order. The general lemmas about `Present` (length, order, membership, distinct keys) then apply to every endpoint, and each endpoint's `QueryKeysDistinct` proves that its query never repeats a key. The English structs are proved to send the same query as their Spanish twins.
- **api_client.rs.** `build_url`, and the loop in `get_with_params` that appends the query string.
- **bin/nomenclator_csv.rs and the `csv` command of bin/nomenclator.rs.** This covers:
  - the 13-entry job table;
  - the outcome of one job;
  - the successful and failed counts, which do not depend on completion order;
  - the prescription step;
  - the rule that decides when the run fails.
- **The `api` commands of bin/nomenclator.rs.** This covers:
  - how command-line flags become filters;
  - the `--tipo` names of `maestra` and its `--nombre` requirement;
  - the `--limit` cut of listings.

XML deserialisation is an input: a document is `Unreadable` (an I/O error), `Malformed` (the XML library's message), or `Parsed` into records. A CSV file is a sequence of rows of text fields. The writer follows the `csv` crate: `serialize` writes the header row before the first record only, and `write_record` never writes one. Percent-encoding of query values is a function parameter `encode`.

Modules, one per source file plus shared helpers:

- `Wrappers`: Option, Result and a map that stops at the first failure.
- `Text`: decimal rendering.
- `Csv`: the writer class.
- `Flags`, `Catalog`, `Prescription`, `PrescriptionWriter`.
- `QueryParams`.
- `Medicamentos`, `Medications`, `Presentaciones`, `Presentations`, `Maestras`, `MasterData`, `Vmpp`, `ClinicalDescriptions`.
- `ApiClient`, `NomenclatorCsv`, `Nomenclator`.

## Model

| member | source | states |
|---|---|---|
| Wrappers.MapUntilFailure | src/parser.rs:12-25 | The mapping succeeds iff every element succeeds; on success the results are those of the elements, in order. On failure the error is the first failing element's error. |
| Wrappers.FirstFailureAfterSuccess | src/parser.rs:12-25 | A successful first element does not change which failure is reported first. |
| Text.NatToString | src/endpoints/medicamentos.rs:61-132 | The rendering of `to_string` for unsigned values: non-empty, all digits, and no leading zero except for "0" itself. |
| Text.Decimal | src/endpoints/medicamentos.rs:61-132 | The rendering of `to_string` for signed values: digits, with a leading '-' exactly for negative numbers. |
| Text.NatToStringRoundTrip | src/endpoints/medicamentos.rs:61-132 | Parsing the rendering of a natural number gives back that number. |
| Text.DecimalRoundTrip | src/endpoints/medicamentos.rs:61-132 | Parsing the rendering of an integer gives back that integer. |
| Text.DecimalInjective | src/endpoints/medicamentos.rs:61-132 | Distinct integer filters are sent as distinct values. |
| Flags.BoolFromString | src/parser.rs:12-25 | Decoding succeeds iff the text is "0" or "1", and gives true iff the text is "1". Any other text fails with "expected '0' or '1', got '…'". |
| Flags.DecodeEncode | src/parser.rs:12-25 | Decoding the text of a flag gives the flag back. |
| Flags.EncodeDecode | src/parser.rs:12-25 | A text that decodes is exactly the text of its value, so no other spelling is accepted. |
| Flags.DecodeFlags | src/parser.rs:325-399 | Decoding a record's flag columns succeeds iff every column is "0" or "1". Each decoded flag is true iff its text is "1". Otherwise the error names the first bad column's text. |
| Flags.DecodeFlagTexts | src/parser.rs:325-399 | The texts of any flags decode to exactly those flags. |
| Csv.SerializedFile | src/parser.rs:416-430 | The file `serialize` produces: empty without records, otherwise the header followed by the rows in order. |
| Csv.SerializedFileSnoc | src/parser.rs:423-425 | Serializing one more record appends one row, plus the header if it is the first. |
| Csv.WrittenStep | src/parser.rs:423-425 | A writer whose lines are the file of the rows so far holds the file of rows + [row] after one `serialize`. |
| Csv.CsvWriter.constructor | src/parser.rs:422 | A new writer is empty, has written no header and has no record width yet. |
| Csv.CsvWriter.WriteRecord | src/parser.rs:602-607 | `write_record` appends the row iff the row matches the width of the first row, or there is no row yet. It never writes a header. On a width mismatch the model leaves the writer unchanged (see Left out). |
| Csv.CsvWriter.Serialize | src/parser.rs:423-425 | `serialize` appends the header before the first record only, then the record's row. |
| Catalog.MapRows | src/parser.rs:423-425 | One row per record, in document order, each the transformed record's row. |
| Catalog.CatalogCsv | src/parser.rs:416-446 | A converter's result: an I/O error for an unreadable file, a deserialize error with the converter's context for malformed XML, otherwise the serialized rows (an empty file for no records). |
| Catalog.OrEmpty | src/parser.rs:154-169 | A missing optional field is written as an empty cell, and a present one as its value. |
| Catalog.LaboratoryRow | src/parser.rs:154-169 | A laboratory row has the six header columns: code, then name, then address, zip, city and VAT, each the value itself when present and empty when absent. |
| Catalog.AtcRow | src/parser.rs:28-36 | An ATC row has the header's three columns: the number in decimal, the code, the description. |
| Catalog.DcpRow | src/parser.rs:45-53 | A DCP row has the header's three columns: code, name, DCSA code. |
| Catalog.DcpfRow | src/parser.rs:61-69 | A DCPF row has the header's three columns: code, name, DCP code. |
| Catalog.PharmaceuticalFormRow | src/parser.rs:122-130 | A pharmaceutical form row has the header's three columns: code, name, simplified form code. |
| Catalog.ActiveIngredientRow | src/parser.rs:177-185 | An active ingredient row has the header's three columns: number, code, name. |
| Catalog.CodeNameRow | src/parser.rs:78-84 | The row of each of the seven code-and-name dictionaries has the header's two columns: code, name. |
| Catalog.StripCodePrefix | src/parser.rs:457-461 | When the description starts with "CODE - ", the result is what follows that prefix; otherwise it is the description unchanged. |
| Catalog.StripCodePrefixOf | src/parser.rs:457-461 | Removing the prefix undoes prepending it. |
| Catalog.StripCodePrefixExample | src/parser.rs:677-719 | "A01 - DIGESTIVE" with code A01 becomes "DIGESTIVE", and "B01 - BLOOD" with code B01 becomes "BLOOD". |
| Catalog.StripCodePrefixOtherCode | src/parser.rs:457-461 | For any two different codes of the same length and any rest, the prefix of the other code is left in place. |
| Catalog.StripCodePrefixOnce | src/parser.rs:457-461 | Only one prefix is removed: a doubled prefix leaves one copy. |
| Catalog.CleanAtcRecord | src/parser.rs:450-463 | The ATC transform keeps the number and the code and strips the code's prefix from the description. |
| Catalog.ConvertXmlList | src/parser.rs:414-448 | The generic converter's loop, proved equal to CatalogCsv for every document, including both error paths. |
| Catalog.CatalogCsvParsed | src/parser.rs:423-425 | For a parsed document, the converter's output is the serialized file of its mapped rows. |
| Catalog.CatalogCsvUniform | src/parser.rs:423-425 | Every line of a converted file is as wide as the header, so the writer's width check never fails. |
| Catalog.ParseAtcXmlToCsv | src/parser.rs:450-463 | The ATC converter: context "Failed to deserialize ATC XML", with the prefix-stripping transform. |
| Catalog.ParseDcpXmlToCsv | src/parser.rs:465-470 | The DCP converter, with its context text and columns. |
| Catalog.ParseDcpfXmlToCsv | src/parser.rs:472-477 | The DCPF converter, with its context text and columns. |
| Catalog.ParseDcsaXmlToCsv | src/parser.rs:479-484 | The DCSA converter, with its context text and columns. |
| Catalog.ParseEnvasesXmlToCsv | src/parser.rs:486-491 | The Envases converter, with its context text and columns. |
| Catalog.ParseExcipientesXmlToCsv | src/parser.rs:493-498 | The Excipientes converter, with its context text and columns. |
| Catalog.ParseFormaFarmaceuticaXmlToCsv | src/parser.rs:500-505 | The pharmaceutical form converter, with its context text and columns. |
| Catalog.ParseFormaFarmaceuticaSimplificadaXmlToCsv | src/parser.rs:507-512 | The simplified form converter, with its context text and columns. |
| Catalog.ParseLaboratorioXmlToCsv | src/parser.rs:514-519 | The laboratory converter, with optional fields written as empty cells. |
| Catalog.ParsePrincipioActivoXmlToCsv | src/parser.rs:521-526 | The active ingredient converter, with its context text and columns. |
| Catalog.ParseSituacionRegistroXmlToCsv | src/parser.rs:528-533 | The registration status converter, with its context text and columns. |
| Catalog.ParseUnidadContenidoXmlToCsv | src/parser.rs:535-540 | The content unit converter, with its context text and columns. |
| Catalog.ParseViaAdministracionXmlToCsv | src/parser.rs:542-547 | The administration route converter, with its context text and columns. |
| Catalog.AtcConversionExample | src/parser.rs:677-719 | Two ATC records become the header plus two rows with stripped descriptions. |
| Catalog.LaboratoryConversionExample | src/parser.rs:973-1030 | A laboratory record with every field becomes the header plus one full row. |
| Prescription.BoolText | src/parser.rs:325-399 | A decoded flag is written as "true" or "false", matching its value. |
| Prescription.FlagsOf | src/parser.rs:325-399 | A record has exactly its 20 flag columns. |
| Prescription.WithFlags | src/parser.rs:325-399 | Replacing a record's flags gives a record whose flags are the new ones. |
| Prescription.WithOwnFlags | src/parser.rs:325-399 | Putting back a record's own flags changes nothing. |
| Prescription.WithFlagsTwice | src/parser.rs:325-399 | Replacing the flags twice is the same as replacing them once with the second set. |
| Prescription.MainRow | src/parser.rs:597 | A main-table row is as wide as the main header, and its first cell is the national code. |
| Prescription.DecodeRecord | src/parser.rs:325-399 | A raw record decodes iff all 20 flag texts are "0"/"1". Each flag is true iff its text is "1", and no other field changes. Otherwise the error comes from the first bad flag. |
| Prescription.DecodeKeepsOtherFields | src/parser.rs:325-399 | Putting the raw texts back into the decoded record restores the raw record. |
| Prescription.EncodeRecord | src/parser.rs:325-399 | Encoding writes each flag as its "0"/"1" text and changes nothing else. |
| Prescription.DecodeEncodeRecord | src/parser.rs:325-399 | Decoding an encoded record gives the record back. |
| Prescription.EncodedFlagsDecode | src/parser.rs:325-399 | The flag texts of an encoded record decode to its flags. |
| Prescription.DecodeSource | src/parser.rs:549-554 | A document is unreadable iff its source is. It parses iff the source parsed and every record's flags decode. Otherwise it is malformed. |
| Prescription.ParsePrescriptionXmlToCsv | src/parser.rs:549-554 | The flat prescription converter: the generic converter on the decoded document, with the prescription context. |
| Prescription.MainRowSkipsNested | src/parser.rs:597 | The main row ignores the nested form, ATC codes and supply problems. |
| Prescription.FormRow | src/parser.rs:600-607 | A form row has 4 cells: the national code, the form code, the simplified form code, then the ingredient count, empty when absent. |
| Prescription.IngredientRow | src/parser.rs:610-624 | An ingredient row has 11 cells: the national code, then the ten optional ingredient fields in order, each empty when absent. |
| Prescription.RouteRow | src/parser.rs:627-629 | A route row has 2 cells: the national code and the route code. |
| Prescription.AtcCodeRow | src/parser.rs:633-634 | An ATC row has 2 cells: the national code and the ATC code. |
| Prescription.DuplicateRow | src/parser.rs:637-646 | A duplicate row has 6 cells: the national code, the owning ATC code, the duplicate ATC code, then description, effect and recommendation, each empty when absent. |
| Prescription.SupplyRow | src/parser.rs:650-656 | A supply row has 3 cells: the national code, then start date and observations, each empty when absent. |
| Prescription.IngredientRows | src/parser.rs:610-624 | One uniform, keyed row per ingredient, in order. |
| Prescription.RouteRows | src/parser.rs:627-629 | One uniform, keyed row per route, in order. |
| Prescription.AtcCodeRows | src/parser.rs:633-634 | One uniform, keyed row per ATC code, in order. |
| Prescription.DuplicateRows | src/parser.rs:637-646 | One uniform, keyed row per duplicate of an ATC code, in order. |
| Prescription.AtcDuplicateRowsShape | src/parser.rs:633-646 | The duplicates of all ATC codes form a 6-wide table keyed by the national code. |
| Prescription.AtcDuplicateRowsCodes | src/parser.rs:637-646 | Every duplicate row names one of the record's ATC codes. |
| Prescription.AtcDuplicateRows | src/parser.rs:633-646 | The duplicate rows of a list of ATC codes: one per duplicate, summed over the codes. |
| Prescription.SupplyRows | src/parser.rs:650-656 | One uniform, keyed row per supply problem, in order. |
| Prescription.FormRows | src/parser.rs:600-607 | A record contributes one form row iff it has a form. |
| Prescription.IngredientRowsOf | src/parser.rs:600-624 | A record with a form contributes exactly the rows of its form's ingredients; one without a form contributes none. The count is IngredientCount. |
| Prescription.RouteRowsOf | src/parser.rs:600-629 | A record with a form contributes exactly the rows of its form's routes; one without a form contributes none. The count is RouteCount. |
| Prescription.AtcRowsOf | src/parser.rs:633-634 | A record contributes one ATC row per ATC code. |
| Prescription.DuplicateRowsOf | src/parser.rs:633-646 | A record's duplicate rows are 6 wide, keyed by its national code, and one per duplicate of any of its ATC codes. |
| Prescription.SupplyRowsOf | src/parser.rs:650-656 | A record contributes one supply row per supply problem. |
| Prescription.Table | src/parser.rs:595-669 | Every row of a child table is a row contributed by some record of the document. |
| Prescription.TableLength | src/parser.rs:595-669 | A child table has as many rows as its records contribute, summed over the document. |
| Prescription.TableSnoc | src/parser.rs:595-669 | One more record appends exactly that record's rows to a child table. |
| Prescription.TableKeyed | src/parser.rs:595-669 | If every record's rows are keyed by its code, every row of the table is keyed by some record of the document. |
| Prescription.TableUniform | src/parser.rs:595-669 | If every record's rows are n wide, so is the whole table. |
| Prescription.CountWithForm | src/parser.rs:600 | The number of records with a form never exceeds the number of records. |
| Prescription.FormsTableCount | src/parser.rs:600-607 | The forms table has one row per record with a form. |
| Prescription.AtcTableCount | src/parser.rs:633-634 | The ATC table has one row per ATC code of the document. |
| Prescription.DecomposeMainTable | src/parser.rs:597 | The main table is empty iff there are no records. Otherwise it is the header plus one row per record, all as wide as the header. |
| Prescription.Decompose | src/parser.rs:592-669 | The main table is empty iff there are no records; otherwise it is the main header followed by one main row per record, in order. |
| Prescription.DecomposeCsv | src/parser.rs:569-574 | The decomposer fails iff the document is unreadable, malformed, or has a record whose flags do not decode, with the I/O error or the prescription context. Otherwise its tables are Decompose of the decoded records. |
| Prescription.DecomposeChildTables | src/parser.rs:600-656 | The child tables have no header and fixed widths 4, 11, 2, 2, 6 and 3. Forms count the records with a form, ATC rows the ATC codes, ingredient and route rows the ingredients and routes of the records' forms, duplicate rows the duplicates of all ATC codes, and supply rows the supply problems. |
| Prescription.DecomposeKeys | src/parser.rs:600-656 | Every child row starts with the national code of a record of the document. |
| Prescription.DecomposeExampleMain | src/parser.rs:1240-1317 | The one-record document of the unit test gives a main table of the header plus a row for 600000. |
| Prescription.DecomposeExampleChildren | src/parser.rs:1240-1317 | The same document gives one form, ingredient, route and ATC row each, no duplicate or supply rows, and no headers. |
| Prescription.FlatFileIsMainTable | src/parser.rs:549-597 | The flat converter and the decomposer fail on the same documents with the same error. Otherwise the flat file is the main table. |
| PrescriptionWriter.WriteIngredients | src/parser.rs:610-624 | The ingredient loop appends exactly the record's ingredient rows. |
| PrescriptionWriter.WriteRoutes | src/parser.rs:627-629 | The route loop appends exactly the record's route rows. |
| PrescriptionWriter.WriteDuplicates | src/parser.rs:637-646 | The duplicate loop appends exactly one ATC code's duplicate rows. |
| PrescriptionWriter.WriteAtcCode | src/parser.rs:633-646 | One ATC code appends its row to the ATC table and its duplicates to the duplicates table. |
| PrescriptionWriter.WriteAtcCodes | src/parser.rs:633-646 | The ATC loop appends the record's ATC rows and all their duplicate rows. |
| PrescriptionWriter.WriteSupplyProblems | src/parser.rs:650-656 | The supply loop appends exactly the record's supply rows. |
| PrescriptionWriter.WriteForm | src/parser.rs:600-630 | A form appends its form row, ingredient rows and route rows; a record without a form appends none. |
| PrescriptionWriter.WriteNested | src/parser.rs:600-656 | One record appends its rows to each of the six child writers, and to nothing else. |
| PrescriptionWriter.WriteChildTables | src/parser.rs:600-656 | After record i, each child writer holds the table of the first i + 1 records. |
| PrescriptionWriter.NothingDecomposed | src/parser.rs:595-669 | An empty document gives seven empty tables. |
| PrescriptionWriter.TableWriters.constructor | src/parser.rs:576-589 | Seven fresh, distinct, empty writers, which hold the decomposition of no records. |
| PrescriptionWriter.TableWriters.StartHolds | src/parser.rs:576-589 | Seven empty writers hold the decomposition of no records. |
| PrescriptionWriter.TableWriters.HoldsContents | src/parser.rs:595-669 | Writers that hold the decomposition of some records contain exactly Decompose of those records. |
| PrescriptionWriter.TableWriters.Add | src/parser.rs:592-657 | Writing record i carries the decomposition of the first i records to that of the first i + 1. |
| PrescriptionWriter.WriteTables | src/parser.rs:592-669 | The decomposer's loop produces exactly Decompose of the document's records. |
| PrescriptionWriter.ParsePrescriptionXmlToCsvs | src/parser.rs:569-669 | The decomposer: the same errors as the flat converter, otherwise the seven tables of Decompose. |
| QueryParams.Present | src/endpoints/medicamentos.rs:61-132 | The query of a run of slots: never more pairs than slots. |
| QueryParams.PushSome | src/endpoints/medicamentos.rs:64-66 | A guarded `push` appends the pair iff the value is set. |
| QueryParams.Positions | src/endpoints/medicamentos.rs:61-132 | The indices of the set slots, ascending, each naming a set slot. |
| QueryParams.Keys | src/endpoints/medicamentos.rs:61-132 | The keys of the slots, one per slot, in order. |
| QueryParams.PresentLength | src/endpoints/medicamentos.rs:61-132 | The query has one pair per set field. |
| QueryParams.PresentAppend | src/endpoints/medicamentos.rs:61-132 | The query of two runs of fields is the query of each, concatenated. |
| QueryParams.PresentEmpty | src/endpoints/medicamentos.rs:61-132 | The query is empty iff no field is set. |
| QueryParams.PresentNone | src/endpoints/medicamentos.rs:61-132 | Unset fields send nothing. |
| QueryParams.PresentFromPositions | src/endpoints/medicamentos.rs:61-132 | The m-th pair is the key and unchanged value of the m-th set field, so the pairs keep field order. |
| QueryParams.PresentMember | src/endpoints/medicamentos.rs:61-132 | A pair is sent iff some field has that key and is set to that value. |
| QueryParams.PresentDistinct | src/endpoints/medicamentos.rs:61-132 | Fields with distinct keys never send a key twice. |
| QueryParams.PrefixedDistinct | src/endpoints/maestras.rs:31-60 | A leading pair whose key no slot has, followed by the query of slots with distinct keys, never repeats a key. |
| Medicamentos.Fields | src/endpoints/medicamentos.rs:61-132 | One slot per filter field, 22 in all. |
| Medicamentos.ToQueryParams | src/endpoints/medicamentos.rs:61-132 | The 22 guarded pushes send exactly the set fields, in struct order, under their wire keys. Numbers are in decimal. There is one pair per set field. |
| Medicamentos.QueryKeysDistinct | src/endpoints/medicamentos.rs:61-132 | The query never sends a key twice. |
| Medicamentos.WireKeysDistinct | src/endpoints/medicamentos.rs:61-132 | The 22 wire keys are pairwise distinct. |
| Medicamentos.DefaultQueryIsEmpty | src/endpoints/medicamentos.rs:55-59 | The default search sends no parameter. |
| Medicamentos.SearchExample | src/endpoints/medicamentos.rs:200-218 | nombre=Paracetamol, triangulo=1 and pagina=2 are sent as exactly those three pairs, in that order. |
| Medicamentos.GetMedicamento | src/endpoints/medicamentos.rs:148-170 | The lookup fails iff neither nregistro nor cn is given, with "Must provide either nregistro or cn". Otherwise it requests `medicamento` with the given identifiers, nregistro first. |
| Medications.Fields | src/endpoints/medications.rs:61-132 | One slot per filter field, 22 in all. |
| Medications.ToQueryParams | src/endpoints/medications.rs:61-132 | The English struct sends exactly its set fields, in struct order, under the Spanish wire keys, one pair per set field. |
| Medications.QueryKeysDistinct | src/endpoints/medications.rs:61-132 | The query never sends a key twice. |
| Medications.DefaultQueryIsEmpty | src/endpoints/medications.rs:55-59 | The default search sends no parameter. |
| Medications.SameQueryAsSpanish | src/endpoints/medications.rs:61-132 | A search sends the same query as the Spanish struct with the same values. |
| Medications.SearchExample | src/endpoints/medications.rs:203-221 | name, black triangle and page are sent as nombre, triangulo and pagina, in that order. |
| Medications.GetMedication | src/endpoints/medications.rs:151-173 | The lookup fails iff neither identifier is given, with its English message. Otherwise it requests `medicamento` with nregistro and cn. |
| Presentaciones.Fields | src/endpoints/presentaciones.rs:35-70 | One slot per filter field, 10 in all, with pairwise distinct wire keys. |
| Presentaciones.ToQueryParams | src/endpoints/presentaciones.rs:35-70 | Exactly the set fields, in struct order, one pair per set field. |
| Presentaciones.QueryKeysDistinct | src/endpoints/presentaciones.rs:35-70 | The query never sends a key twice. |
| Presentaciones.DefaultQueryIsEmpty | src/endpoints/presentaciones.rs:31-33 | The default search sends no parameter. |
| Presentations.Fields | src/endpoints/presentations.rs:35-70 | One slot per filter field, 10 in all, with pairwise distinct wire keys. |
| Presentations.ToQueryParams | src/endpoints/presentations.rs:35-70 | Exactly the set fields, in struct order, under the Spanish wire keys. |
| Presentations.QueryKeysDistinct | src/endpoints/presentations.rs:35-70 | The query never sends a key twice. |
| Presentations.DefaultQueryIsEmpty | src/endpoints/presentations.rs:31-33 | The default search sends no parameter. |
| Presentations.SameQueryAsSpanish | src/endpoints/presentations.rs:35-70 | The same query as the Spanish struct with the same values. |
| Maestras.Fields | src/endpoints/maestras.rs:31-60 | One slot per filter field, 8 in all, with pairwise distinct wire keys. |
| Maestras.ToQueryParams | src/endpoints/maestras.rs:31-60 | The `maestra` code comes first and is always sent, followed by the set filters in struct order. |
| Maestras.QueryKeysDistinct | src/endpoints/maestras.rs:31-60 | The query, `maestra` first, never sends a key twice. |
| Maestras.FilterFreeQuery | src/endpoints/maestras.rs:31-60 | Without filters, only the `maestra` pair is sent. |
| Maestras.NameOnlyQuery | src/endpoints/maestras.rs:31-60 | A name filter alone sends `maestra` and then `nombre`. |
| MasterData.AsU8 | src/models.rs:462-478 | A catalog code is one of 1, 3, 4, 6, 7, 11, 13, 14, 15 and 16. |
| MasterData.AsU8Injective | src/models.rs:462-478 | Distinct catalog types have distinct codes. |
| MasterData.Fields | src/endpoints/master_data.rs:31-60 | One slot per filter field, 8 in all, with pairwise distinct wire keys. |
| MasterData.ToQueryParams | src/endpoints/master_data.rs:31-60 | The type's code is sent first as `maestra`, followed by the set filters in struct order. |
| MasterData.QueryKeysDistinct | src/endpoints/master_data.rs:31-60 | The query, `maestra` first, never sends a key twice. |
| MasterData.FilterFreeQuery | src/endpoints/master_data.rs:31-60 | Without filters, only the `maestra` pair is sent. |
| MasterData.SameQueryAsSpanish | src/endpoints/master_data.rs:31-60 | The filters are sent exactly as the Spanish struct sends them. |
| Vmpp.Fields | src/endpoints/vmpp.rs:31-60 | One slot per filter field, 8 in all, with pairwise distinct wire keys. |
| Vmpp.ToQueryParams | src/endpoints/vmpp.rs:31-60 | Exactly the set fields, in struct order. The tree-mode flag sends "true" when set and nothing otherwise. |
| Vmpp.QueryKeysDistinct | src/endpoints/vmpp.rs:31-60 | The query never sends a key twice. |
| Vmpp.DefaultQueryIsEmpty | src/endpoints/vmpp.rs:27-29 | The default search sends no parameter. |
| Vmpp.TreeModeOnly | src/endpoints/vmpp.rs:52-54 | Tree mode alone sends exactly modoArbol=true. |
| ClinicalDescriptions.Fields | src/endpoints/clinical_descriptions.rs:31-60 | One slot per filter field, 8 in all, with pairwise distinct wire keys. |
| ClinicalDescriptions.ToQueryParams | src/endpoints/clinical_descriptions.rs:31-60 | Exactly the set fields, in struct order, under the Spanish wire keys. |
| ClinicalDescriptions.QueryKeysDistinct | src/endpoints/clinical_descriptions.rs:31-60 | The query never sends a key twice. |
| ClinicalDescriptions.DefaultQueryIsEmpty | src/endpoints/clinical_descriptions.rs:27-29 | The default search sends no parameter. |
| ClinicalDescriptions.SameQueryAsSpanish | src/endpoints/clinical_descriptions.rs:31-60 | The same query as the VMPP struct with the same values. |
| ApiClient.New | src/api_client.rs:7-20 | A new client's base is https://cima.aemps.es/cima/rest, which has no trailing slash. |
| ApiClient.BuildUrl | src/api_client.rs:40-42 | The URL is the base, one slash, then the endpoint, with both kept unchanged. |
| ApiClient.BuildUrlInjective | src/api_client.rs:40-42 | On one client, distinct endpoints give distinct URLs. |
| ApiClient.BuildUrlExamples | src/api_client.rs:193-206 | The two URLs of the unit tests, for the default base and for a custom base. |
| ApiClient.RequestUrl | src/api_client.rs:75-92 | The query loop builds the endpoint URL, followed by "?" and the key=encoded-value assignments in order, joined by "&". Without parameters it is the bare URL. |
| ApiClient.Joined | src/api_client.rs:80-92 | The assignments are empty iff there are no parameters. |
| ApiClient.QueryString | src/api_client.rs:80-92 | The query string is empty iff there are no parameters; otherwise it is "?" followed by the assignments. |
| ApiClient.JoinedSeparators | src/api_client.rs:80-92 | With keys and encoded values free of '&', n assignments are joined by exactly n - 1 separators. |
| ApiClient.JoinedAvoids | src/api_client.rs:80-92 | A character absent from keys and encoded values, other than '=' and '&', does not appear in the query. |
| ApiClient.QuestionMarks | src/api_client.rs:40-92 | The request URL has one '?' iff there are parameters. |
| ApiClient.SearchUrlExample | src/api_client.rs:80-92 | The medication search of the unit test gives ?nombre=Paracetamol&triangulo=1&pagina=2. |
| NomenclatorCsv.MappingDistinct | src/bin/nomenclator_csv.rs:70-129 | The job table has 13 entries with distinct XML inputs, distinct CSV outputs and distinct converters. |
| NomenclatorCsv.Concurrency | src/bin/nomenclator_csv.rs:57-58 | The requested concurrency if given, otherwise the number of cores. |
| NomenclatorCsv.RunJob | src/bin/nomenclator_csv.rs:139-169 | A missing file is a success marked not completed. A converted file is a success marked completed. A present file fails iff its conversion failed or its task did not join, and the error is the converter's error or "Task join error: …". |
| NomenclatorCsv.Reported | src/bin/nomenclator_csv.rs:152-168 | A converter's result as the job sees it: success iff the converter succeeded, otherwise the error's display text. |
| NomenclatorCsv.CatalogJob | src/bin/nomenclator_csv.rs:139-169 | A present dictionary file whose conversion ran fails iff its document gave no records, with the I/O message or the converter's context. |
| NomenclatorCsv.MissingFileIgnoresConverter | src/bin/nomenclator_csv.rs:146-149 | For a missing file the converter's outcome is irrelevant and the job succeeds. |
| NomenclatorCsv.CountsPartition | src/bin/nomenclator_csv.rs:203-205 | Every result is counted exactly once, as successful or as failed. |
| NomenclatorCsv.FailedPositive | src/bin/nomenclator_csv.rs:204 | The failed count is positive iff some result is an error. |
| NomenclatorCsv.SuccessfulAppend | src/bin/nomenclator_csv.rs:203 | Counts add up over concatenated result lists. |
| NomenclatorCsv.CountsOrderFree | src/bin/nomenclator_csv.rs:171-205 | Both counts are the same for any completion order of the jobs, as `buffer_unordered` allows. |
| NomenclatorCsv.PrescriptionStep | src/bin/nomenclator_csv.rs:176-200 | A missing prescription file is a success. A present one has the decomposer's result. |
| NomenclatorCsv.PrescriptionJob | src/bin/nomenclator_csv.rs:174-200 | A present prescription file fails iff it is unreadable, malformed or has an undecodable record, with the I/O message or the prescription context. |
| NomenclatorCsv.RunResult | src/bin/nomenclator_csv.rs:221-223 | A failed run fails with "Some files failed to parse". |
| NomenclatorCsv.JobResults | src/bin/nomenclator_csv.rs:139-171 | One result per job, each that job's outcome. |
| NomenclatorCsv.RunFailsIff | src/bin/nomenclator_csv.rs:139-223 | For results collected in any order, the run fails iff some present file failed to convert, or the prescription file is present and failed. |
| Nomenclator.Summarize | src/bin/nomenclator.rs:361-363 | The two counts add up to the number of jobs, and the prescription is reported successful iff its step succeeded. |
| Nomenclator.ProcessCsv | src/bin/nomenclator.rs:203-391 | The `csv` command counts 13 jobs. The prescription succeeds iff it is absent or decomposed. The command fails, with "Some files failed to parse", iff a present file failed or a present prescription failed. |
| Nomenclator.NothingToConvert | src/bin/nomenclator.rs:302-305 | With no input file, all 13 jobs count as successful and the command succeeds. |
| Nomenclator.FlagFilter | src/bin/nomenclator.rs:481-483 | A flag becomes the filter 1 iff it is given. |
| Nomenclator.FlagRendering | src/bin/nomenclator.rs:481-483 | A given flag sends "1"; an absent one sends nothing. |
| Nomenclator.SearchMedicamentosQuery | src/bin/nomenclator.rs:476-485 | `search-medicamentos` sends only its given filters, in the order nombre, laboratorio, practiv1, atc, triangulo, huerfano, comerc. |
| Nomenclator.CommandLineFields | src/bin/nomenclator.rs:476-485 | When only the command-line filters are set, the 22-field query reduces to those seven fields. |
| Nomenclator.SearchMedicamentosFlags | src/bin/nomenclator.rs:481-483 | comerc=1, huerfano=1 and triangulo=1 are each sent iff their flag is given. |
| Nomenclator.SearchMedicamentosArgs | src/bin/nomenclator.rs:476-485 | The command-line filters land in nombre, laboratorio, practiv1 and atc; each flag sets its filter to 1 iff given; every other field is unset. |
| Nomenclator.SearchPresentacionesQuery | src/bin/nomenclator.rs:528-533 | `search-presentaciones` sends nregistro, vmp and comerc=1, each only when given. |
| Nomenclator.SearchPresentacionesArgs | src/bin/nomenclator.rs:528-533 | nregistro and vmp are taken as given, comerc is 1 iff the flag is given, and every other field is unset. |
| Nomenclator.ParseTipo | src/bin/nomenclator.rs:664-674 | `--tipo` is accepted iff it is one of pa, ff, va, lab or atc. Otherwise it fails with "Tipo de maestra desconocido: …". |
| Nomenclator.TipoName | src/bin/nomenclator.rs:664-674 | Every catalog type has an accepted name. |
| Nomenclator.ParseTipoName | src/bin/nomenclator.rs:664-674 | The name of a type parses to that type. |
| Nomenclator.TipoNameOfParse | src/bin/nomenclator.rs:664-674 | An accepted name is the name of the type it parses to, so the mapping is a bijection. |
| Nomenclator.MaestraCommand | src/bin/nomenclator.rs:649-679 | A missing --nombre ends the command iff it is missing. Otherwise an unknown --tipo fails with its message. Otherwise the lookup uses the parsed type and filters on the name. |
| Nomenclator.MissingNombreFirst | src/bin/nomenclator.rs:649-662 | A missing --nombre is reported whatever --tipo is. |
| Nomenclator.MaestraQuery | src/bin/nomenclator.rs:664-679 | An accepted command sends exactly the catalog code and the name. |
| Nomenclator.EffectiveLimit | src/bin/nomenclator.rs:116-178 | The listing limit is the given one, otherwise 10 for the searches and 20 for `maestra`. |
| Nomenclator.Listing | src/bin/nomenclator.rs:497-512 | The listing shows the first min(n, limit) results numbered from 1, and is truncated iff there are more than `limit`. |

## Left out

- XML deserialisation (quick-xml with serde renames) is not modelled. A document is given already parsed, or as the error text the library would report.
- CSV quoting and escaping, the byte encoding of files, file creation, `flush`, and I/O errors while writing are left out. A file is a sequence of rows of text cells.
- Csv.CsvWriter.WriteRecord: the writer keeps only the width of the first row. On a width mismatch the `csv` crate has already written the row's fields when it reports the field-count error; that partial write is not modelled, and the model leaves the writer unchanged instead. The converters never reach this path, because every row of a table has the table's width (CatalogCsvUniform, DecomposeChildTables).
- Prescription.MainRow: the contract states the row's width and its national-code key, not the rendering of each of the other 41 columns (switches as `true`/`false`, absent optional values empty). Those columns are not stated, because indexing the 42-cell row for every column is beyond the solver's resource limit.
- HTTP (`get`, `post`, `get_text`, status handling, JSON decoding of responses) is left out. `get_with_params` is modelled up to the URL it requests, and percent-encoding is the parameter `encode`.
- The `buscar_en_ficha_tecnica` / `search_in_technical_sheet` POST bodies and the other endpoint files (documents, materials, notes, changes, supply problems) are not part of this model.
- The downloader, directory creation and the `exists()` checks are left out. Whether a file is present is an input of each job.
- Concurrency is not modelled: `spawn_blocking` and `buffer_unordered` are represented by each job's outcome as an input, and by an arbitrary order of the collected results (CountsOrderFree, RunFailsIff).
- Console output and tracing are left out, including the printed fields of each listed item and the page counts.
- Maestras.ToQueryParams, Nomenclator.MaestraQuery: the numeric code of a `TipoMaestra` is taken as a parameter; the enum's discriminants are not modelled.
- Nomenclator.MaestraCommand: `std::process::exit(1)` is modelled as the outcome `MissingNombre`.
- The other `api` sub-commands of the `nomenclator` binary (`medicamento`, `presentacion` and the rest), which only print a response, are left out.
- Nomenclator.ProcessCsv: the directory creation that precedes the jobs, and its errors, are left out.
- NomenclatorCsv.Concurrency: the number of cores is an input, and a requested concurrency of 0 is passed through unchanged, as in the source.
