// Search parameters of the English medication endpoints
// (src/endpoints/medications.rs). The struct uses English field names; the
// wire keys are the Spanish ones of the API.

module Medications {
  import opened Wrappers
  import opened Text
  import opened QueryParams
  import Medicamentos

  /** Filters of a medication search, under English names; every filter is optional. */
  datatype SearchMedicationsParams = SearchMedicationsParams(
    name: Option<string>,
    laboratory: Option<string>,
    activeIngredient1: Option<string>,
    activeIngredient2: Option<string>,
    activeIngredient1Id: Option<I32>,
    activeIngredient2Id: Option<I32>,
    nationalCode: Option<string>,
    atc: Option<string>,
    registrationNumber: Option<string>,
    activeIngredientCount: Option<I32>,
    blackTriangle: Option<U8>,
    orphan: Option<U8>,
    biosimilar: Option<U8>,
    substitutableType: Option<U8>,
    vmp: Option<string>,
    commercialized: Option<U8>,
    authorized: Option<U8>,
    prescription: Option<U8>,
    narcotic: Option<U8>,
    psychotropic: Option<U8>,
    narcoticOrPsychotropic: Option<U8>,
    page: Option<U32>)

  /** `SearchMedicationsParams::new()`: no filter set. */
  const Default := SearchMedicationsParams(None, None, None, None, None, None, None, None, None, None, None, None, None, None, None, None, None, None, None, None, None, None)

  /** The filters in push order, each with the Spanish wire key it is sent under. */
  function Fields(p: SearchMedicationsParams): (fs: seq<Field>)
    ensures |fs| == 22
  {
      [("nombre", p.name)]
    + [("laboratorio", p.laboratory)]
    + [("practiv1", p.activeIngredient1)]
    + [("practiv2", p.activeIngredient2)]
    + [("idpractiv1", IntValue(p.activeIngredient1Id))]
    + [("idpractiv2", IntValue(p.activeIngredient2Id))]
    + [("cn", p.nationalCode)]
    + [("atc", p.atc)]
    + [("nregistro", p.registrationNumber)]
    + [("npactiv", IntValue(p.activeIngredientCount))]
    + [("triangulo", ByteValue(p.blackTriangle))]
    + [("huerfano", ByteValue(p.orphan))]
    + [("biosimilar", ByteValue(p.biosimilar))]
    + [("sust", ByteValue(p.substitutableType))]
    + [("vmp", p.vmp)]
    + [("comerc", ByteValue(p.commercialized))]
    + [("autorizados", ByteValue(p.authorized))]
    + [("receta", ByteValue(p.prescription))]
    + [("estupefaciente", ByteValue(p.narcotic))]
    + [("psicotropo", ByteValue(p.psychotropic))]
    + [("estuopsico", ByteValue(p.narcoticOrPsychotropic))]
    + [("pagina", PageValue(p.page))]
  }

  /** `to_query_params`: one guarded `push` per filter, in field order. */
  method ToQueryParams(p: SearchMedicationsParams) returns (params: seq<Pair>)
    ensures params == Present(Fields(p))
    ensures |params| == SetCount(Fields(p))
  {
    params := [];
    assert [] + [("nombre", p.name)] == [("nombre", p.name)];
    PushNext(params, [], "nombre", p.name);
    params := PushSome(params, "nombre", p.name);
    ghost var fs: seq<Field> := [("nombre", p.name)];
    PushNext(params, fs, "laboratorio", p.laboratory);
    params := PushSome(params, "laboratorio", p.laboratory);
    fs := fs + [("laboratorio", p.laboratory)];
    PushNext(params, fs, "practiv1", p.activeIngredient1);
    params := PushSome(params, "practiv1", p.activeIngredient1);
    fs := fs + [("practiv1", p.activeIngredient1)];
    PushNext(params, fs, "practiv2", p.activeIngredient2);
    params := PushSome(params, "practiv2", p.activeIngredient2);
    fs := fs + [("practiv2", p.activeIngredient2)];
    PushNext(params, fs, "idpractiv1", IntValue(p.activeIngredient1Id));
    params := PushSome(params, "idpractiv1", IntValue(p.activeIngredient1Id));
    fs := fs + [("idpractiv1", IntValue(p.activeIngredient1Id))];
    PushNext(params, fs, "idpractiv2", IntValue(p.activeIngredient2Id));
    params := PushSome(params, "idpractiv2", IntValue(p.activeIngredient2Id));
    fs := fs + [("idpractiv2", IntValue(p.activeIngredient2Id))];
    PushNext(params, fs, "cn", p.nationalCode);
    params := PushSome(params, "cn", p.nationalCode);
    fs := fs + [("cn", p.nationalCode)];
    PushNext(params, fs, "atc", p.atc);
    params := PushSome(params, "atc", p.atc);
    fs := fs + [("atc", p.atc)];
    PushNext(params, fs, "nregistro", p.registrationNumber);
    params := PushSome(params, "nregistro", p.registrationNumber);
    fs := fs + [("nregistro", p.registrationNumber)];
    PushNext(params, fs, "npactiv", IntValue(p.activeIngredientCount));
    params := PushSome(params, "npactiv", IntValue(p.activeIngredientCount));
    fs := fs + [("npactiv", IntValue(p.activeIngredientCount))];
    PushNext(params, fs, "triangulo", ByteValue(p.blackTriangle));
    params := PushSome(params, "triangulo", ByteValue(p.blackTriangle));
    fs := fs + [("triangulo", ByteValue(p.blackTriangle))];
    PushNext(params, fs, "huerfano", ByteValue(p.orphan));
    params := PushSome(params, "huerfano", ByteValue(p.orphan));
    fs := fs + [("huerfano", ByteValue(p.orphan))];
    PushNext(params, fs, "biosimilar", ByteValue(p.biosimilar));
    params := PushSome(params, "biosimilar", ByteValue(p.biosimilar));
    fs := fs + [("biosimilar", ByteValue(p.biosimilar))];
    PushNext(params, fs, "sust", ByteValue(p.substitutableType));
    params := PushSome(params, "sust", ByteValue(p.substitutableType));
    fs := fs + [("sust", ByteValue(p.substitutableType))];
    PushNext(params, fs, "vmp", p.vmp);
    params := PushSome(params, "vmp", p.vmp);
    fs := fs + [("vmp", p.vmp)];
    PushNext(params, fs, "comerc", ByteValue(p.commercialized));
    params := PushSome(params, "comerc", ByteValue(p.commercialized));
    fs := fs + [("comerc", ByteValue(p.commercialized))];
    PushNext(params, fs, "autorizados", ByteValue(p.authorized));
    params := PushSome(params, "autorizados", ByteValue(p.authorized));
    fs := fs + [("autorizados", ByteValue(p.authorized))];
    PushNext(params, fs, "receta", ByteValue(p.prescription));
    params := PushSome(params, "receta", ByteValue(p.prescription));
    fs := fs + [("receta", ByteValue(p.prescription))];
    PushNext(params, fs, "estupefaciente", ByteValue(p.narcotic));
    params := PushSome(params, "estupefaciente", ByteValue(p.narcotic));
    fs := fs + [("estupefaciente", ByteValue(p.narcotic))];
    PushNext(params, fs, "psicotropo", ByteValue(p.psychotropic));
    params := PushSome(params, "psicotropo", ByteValue(p.psychotropic));
    fs := fs + [("psicotropo", ByteValue(p.psychotropic))];
    PushNext(params, fs, "estuopsico", ByteValue(p.narcoticOrPsychotropic));
    params := PushSome(params, "estuopsico", ByteValue(p.narcoticOrPsychotropic));
    fs := fs + [("estuopsico", ByteValue(p.narcoticOrPsychotropic))];
    PushNext(params, fs, "pagina", PageValue(p.page));
    params := PushSome(params, "pagina", PageValue(p.page));
    fs := fs + [("pagina", PageValue(p.page))];
    assert fs == Fields(p);
    PresentLength(fs);
  }

  /** Unset filters send nothing, so the default search sends no parameter. */
  lemma DefaultQueryIsEmpty()
    ensures Present(Fields(Default)) == []
  {
    PresentEmpty(Fields(Default));
  }

  /** The Spanish search struct holding the same filters. */
  function ToSpanish(p: SearchMedicationsParams): Medicamentos.SearchMedicamentosParams {
    Medicamentos.SearchMedicamentosParams(
      p.name, p.laboratory, p.activeIngredient1, p.activeIngredient2,
      p.activeIngredient1Id, p.activeIngredient2Id, p.nationalCode, p.atc, p.registrationNumber,
      p.activeIngredientCount, p.blackTriangle, p.orphan, p.biosimilar, p.substitutableType,
      p.vmp, p.commercialized, p.authorized, p.prescription, p.narcotic,
      p.psychotropic, p.narcoticOrPsychotropic, p.page)
  }

  /** The English struct sends, key for key, the query of the Spanish one. */
  lemma SameQueryAsSpanish(p: SearchMedicationsParams)
    ensures Present(Fields(p)) == Present(Medicamentos.Fields(ToSpanish(p)))
  {
  }

  /** The search of the unit test: a name, the black-triangle flag and a page. */
  lemma SearchExample()
    ensures Present(Fields(Default.(name := Some("Paracetamol"), blackTriangle := Some(1), page := Some(2))))
      == [("nombre", "Paracetamol"), ("triangulo", "1"), ("pagina", "2")]
  {
    var p := Default.(name := Some("Paracetamol"), blackTriangle := Some(1), page := Some(2));
    SameQueryAsSpanish(p);
    assert ToSpanish(p) == Medicamentos.Default.(nombre := Some("Paracetamol"), triangulo := Some(1), pagina := Some(2));
    Medicamentos.SearchExample();
  }

  /**
   * `get_medication`: the registration number, then the national code,
   * whichever are given, sent to the `medicamento` endpoint; with neither,
   * the call fails before any request is made.
   */
  method GetMedication(registrationNumber: Option<string>, nationalCode: Option<string>) returns (r: Result<GetRequest, string>)
    ensures r.Failure? <==> registrationNumber.None? && nationalCode.None?
    ensures r.Failure? ==> r.error == "Must provide either registration_number or national_code"
    ensures r.Success? ==> r.value == GetRequest("medicamento", Present([("nregistro", registrationNumber), ("cn", nationalCode)]))
  {
    var params: seq<Pair> := [];
    PresentSnoc([], ("nregistro", registrationNumber));
    PresentSnoc([("nregistro", registrationNumber)], ("cn", nationalCode));
    assert [] + [("nregistro", registrationNumber)] == [("nregistro", registrationNumber)];
    assert [("nregistro", registrationNumber)] + [("cn", nationalCode)] == [("nregistro", registrationNumber), ("cn", nationalCode)];
    if registrationNumber.Some? {
      params := params + [("nregistro", registrationNumber.value)];
    }
    if nationalCode.Some? {
      params := params + [("cn", nationalCode.value)];
    }
    if params == [] {
      return Failure("Must provide either registration_number or national_code");
    }
    return Success(GetRequest("medicamento", params));
  }

  /** Every field has its own wire key, so no key is ever sent twice. */
  lemma QueryKeysDistinct(p: SearchMedicationsParams)
    ensures DistinctPairKeys(Present(Fields(p)))
  {
    SameQueryAsSpanish(p);
    Medicamentos.QueryKeysDistinct(ToSpanish(p));
  }
}
