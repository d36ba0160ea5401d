// Search parameters of the English presentation endpoint
// (src/endpoints/presentations.rs): English field names, Spanish wire keys.

module Presentations {
  import opened Wrappers
  import opened Text
  import opened QueryParams
  import Presentaciones

  /** Filters of a presentation search, under English names; every filter is optional. */
  datatype SearchPresentationsParams = SearchPresentationsParams(
    nationalCode: Option<string>,
    registrationNumber: Option<string>,
    vmp: Option<string>,
    vmpp: Option<string>,
    activeIngredientId: Option<I32>,
    commercialized: Option<U8>,
    narcotic: Option<U8>,
    psychotropic: Option<U8>,
    narcoticOrPsychotropic: Option<U8>,
    page: Option<U32>)

  /** `SearchPresentationsParams::new()`: no filter set. */
  const Default := SearchPresentationsParams(None, None, None, None, None, None, None, None, None, None)

  /** The filters in push order, each with the Spanish wire key it is sent under. */
  function Fields(p: SearchPresentationsParams): (fs: seq<Field>)
    ensures |fs| == 10 && DistinctKeys(fs)
  {
      [("cn", p.nationalCode)]
    + [("nregistro", p.registrationNumber)]
    + [("vmp", p.vmp)]
    + [("vmpp", p.vmpp)]
    + [("idpractiv1", IntValue(p.activeIngredientId))]
    + [("comerc", ByteValue(p.commercialized))]
    + [("estupefaciente", ByteValue(p.narcotic))]
    + [("psicotropo", ByteValue(p.psychotropic))]
    + [("estuopsico", ByteValue(p.narcoticOrPsychotropic))]
    + [("pagina", PageValue(p.page))]
  }

  /** `to_query_params`: one guarded `push` per filter, in field order. */
  method ToQueryParams(p: SearchPresentationsParams) returns (params: seq<Pair>)
    ensures params == Present(Fields(p))
    ensures |params| == SetCount(Fields(p))
  {
    params := [];
    assert [] + [("cn", p.nationalCode)] == [("cn", p.nationalCode)];
    PushNext(params, [], "cn", p.nationalCode);
    params := PushSome(params, "cn", p.nationalCode);
    ghost var fs: seq<Field> := [("cn", p.nationalCode)];
    PushNext(params, fs, "nregistro", p.registrationNumber);
    params := PushSome(params, "nregistro", p.registrationNumber);
    fs := fs + [("nregistro", p.registrationNumber)];
    PushNext(params, fs, "vmp", p.vmp);
    params := PushSome(params, "vmp", p.vmp);
    fs := fs + [("vmp", p.vmp)];
    PushNext(params, fs, "vmpp", p.vmpp);
    params := PushSome(params, "vmpp", p.vmpp);
    fs := fs + [("vmpp", p.vmpp)];
    PushNext(params, fs, "idpractiv1", IntValue(p.activeIngredientId));
    params := PushSome(params, "idpractiv1", IntValue(p.activeIngredientId));
    fs := fs + [("idpractiv1", IntValue(p.activeIngredientId))];
    PushNext(params, fs, "comerc", ByteValue(p.commercialized));
    params := PushSome(params, "comerc", ByteValue(p.commercialized));
    fs := fs + [("comerc", ByteValue(p.commercialized))];
    PushNext(params, fs, "estupefaciente", ByteValue(p.narcotic));
    params := PushSome(params, "estupefaciente", ByteValue(p.narcotic));
    fs := fs + [("estupefaciente", ByteValue(p.narcotic))];
    PushNext(params, fs, "psicotropo", ByteValue(p.psychotropic));
    params := PushSome(params, "psicotropo", ByteValue(p.psychotropic));
    fs := fs + [("psicotropo", ByteValue(p.psychotropic))];
    PushNext(params, fs, "estuopsico", ByteValue(p.narcoticOrPsychotropic));
    params := PushSome(params, "estuopsico", ByteValue(p.narcoticOrPsychotropic));
    fs := fs + [("estuopsico", ByteValue(p.narcoticOrPsychotropic))];
    PushNext(params, fs, "pagina", PageValue(p.page));
    params := PushSome(params, "pagina", PageValue(p.page));
    fs := fs + [("pagina", PageValue(p.page))];
    assert fs == Fields(p);
    PresentLength(fs);
  }

  /** Unset filters send nothing, so the default search sends no parameter. */
  lemma DefaultQueryIsEmpty()
    ensures Present(Fields(Default)) == []
  {
    PresentEmpty(Fields(Default));
  }

  /** The Spanish search struct holding the same filters. */
  function ToSpanish(p: SearchPresentationsParams): Presentaciones.SearchPresentacionesParams {
    Presentaciones.SearchPresentacionesParams(
      p.nationalCode, p.registrationNumber, p.vmp, p.vmpp, p.activeIngredientId,
      p.commercialized, p.narcotic, p.psychotropic, p.narcoticOrPsychotropic, p.page)
  }

  /** The English struct sends, key for key, the query of the Spanish one. */
  lemma SameQueryAsSpanish(p: SearchPresentationsParams)
    ensures Present(Fields(p)) == Present(Presentaciones.Fields(ToSpanish(p)))
  {
  }

  /** Every field has its own wire key, so no key is ever sent twice. */
  lemma QueryKeysDistinct(p: SearchPresentationsParams)
    ensures DistinctPairKeys(Present(Fields(p)))
  {
    PresentDistinct(Fields(p));
  }
}
