// Search parameters of the Spanish presentation endpoint
// (src/endpoints/presentaciones.rs).

module Presentaciones {
  import opened Wrappers
  import opened Text
  import opened QueryParams

  /** Filters of a presentation search; every filter is optional. */
  datatype SearchPresentacionesParams = SearchPresentacionesParams(
    cn: Option<string>,
    nregistro: Option<string>,
    vmp: Option<string>,
    vmpp: Option<string>,
    idpractiv1: Option<I32>,
    comerc: Option<U8>,
    estupefaciente: Option<U8>,
    psicotropo: Option<U8>,
    estuopsico: Option<U8>,
    pagina: Option<U32>)

  /** `SearchPresentacionesParams::new()`: no filter set. */
  const Default := SearchPresentacionesParams(None, None, None, None, None, None, None, None, None, None)

  /**
   * The filters in push order, each with its wire key and its value as sent:
   * strings verbatim, numbers in decimal.
   */
  function Fields(p: SearchPresentacionesParams): (fs: seq<Field>)
    ensures |fs| == 10 && DistinctKeys(fs)
  {
      [("cn", p.cn)]
    + [("nregistro", p.nregistro)]
    + [("vmp", p.vmp)]
    + [("vmpp", p.vmpp)]
    + [("idpractiv1", IntValue(p.idpractiv1))]
    + [("comerc", ByteValue(p.comerc))]
    + [("estupefaciente", ByteValue(p.estupefaciente))]
    + [("psicotropo", ByteValue(p.psicotropo))]
    + [("estuopsico", ByteValue(p.estuopsico))]
    + [("pagina", PageValue(p.pagina))]
  }

  /** `to_query_params`: one guarded `push` per filter, in field order. */
  method ToQueryParams(p: SearchPresentacionesParams) returns (params: seq<Pair>)
    ensures params == Present(Fields(p))
    ensures |params| == SetCount(Fields(p))
  {
    params := [];
    assert [] + [("cn", p.cn)] == [("cn", p.cn)];
    PushNext(params, [], "cn", p.cn);
    params := PushSome(params, "cn", p.cn);
    ghost var fs: seq<Field> := [("cn", p.cn)];
    PushNext(params, fs, "nregistro", p.nregistro);
    params := PushSome(params, "nregistro", p.nregistro);
    fs := fs + [("nregistro", p.nregistro)];
    PushNext(params, fs, "vmp", p.vmp);
    params := PushSome(params, "vmp", p.vmp);
    fs := fs + [("vmp", p.vmp)];
    PushNext(params, fs, "vmpp", p.vmpp);
    params := PushSome(params, "vmpp", p.vmpp);
    fs := fs + [("vmpp", p.vmpp)];
    PushNext(params, fs, "idpractiv1", IntValue(p.idpractiv1));
    params := PushSome(params, "idpractiv1", IntValue(p.idpractiv1));
    fs := fs + [("idpractiv1", IntValue(p.idpractiv1))];
    PushNext(params, fs, "comerc", ByteValue(p.comerc));
    params := PushSome(params, "comerc", ByteValue(p.comerc));
    fs := fs + [("comerc", ByteValue(p.comerc))];
    PushNext(params, fs, "estupefaciente", ByteValue(p.estupefaciente));
    params := PushSome(params, "estupefaciente", ByteValue(p.estupefaciente));
    fs := fs + [("estupefaciente", ByteValue(p.estupefaciente))];
    PushNext(params, fs, "psicotropo", ByteValue(p.psicotropo));
    params := PushSome(params, "psicotropo", ByteValue(p.psicotropo));
    fs := fs + [("psicotropo", ByteValue(p.psicotropo))];
    PushNext(params, fs, "estuopsico", ByteValue(p.estuopsico));
    params := PushSome(params, "estuopsico", ByteValue(p.estuopsico));
    fs := fs + [("estuopsico", ByteValue(p.estuopsico))];
    PushNext(params, fs, "pagina", PageValue(p.pagina));
    params := PushSome(params, "pagina", PageValue(p.pagina));
    fs := fs + [("pagina", PageValue(p.pagina))];
    assert fs == Fields(p);
    PresentLength(fs);
  }

  /** Unset filters send nothing, so the default search sends no parameter. */
  lemma DefaultQueryIsEmpty()
    ensures Present(Fields(Default)) == []
  {
    PresentEmpty(Fields(Default));
  }

  /** Every field has its own wire key, so no key is ever sent twice. */
  lemma QueryKeysDistinct(p: SearchPresentacionesParams)
    ensures DistinctPairKeys(Present(Fields(p)))
  {
    PresentDistinct(Fields(p));
  }
}
