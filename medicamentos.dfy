// Search parameters of the Spanish medication endpoints
// (src/endpoints/medicamentos.rs): the `medicamentos` search and the
// identifier check of the `medicamento` lookup.

module Medicamentos {
  import opened Wrappers
  import opened Text
  import opened QueryParams

  /** Filters of a medication search; every filter is optional. */
  datatype SearchMedicamentosParams = SearchMedicamentosParams(
    nombre: Option<string>,
    laboratorio: Option<string>,
    practiv1: Option<string>,
    practiv2: Option<string>,
    idpractiv1: Option<I32>,
    idpractiv2: Option<I32>,
    cn: Option<string>,
    atc: Option<string>,
    nregistro: Option<string>,
    npactiv: Option<I32>,
    triangulo: Option<U8>,
    huerfano: Option<U8>,
    biosimilar: Option<U8>,
    sust: Option<U8>,
    vmp: Option<string>,
    comerc: Option<U8>,
    autorizados: Option<U8>,
    receta: Option<U8>,
    estupefaciente: Option<U8>,
    psicotropo: Option<U8>,
    estuopsico: Option<U8>,
    pagina: Option<U32>)

  /** `SearchMedicamentosParams::new()`: no filter set. */
  const Default := SearchMedicamentosParams(None, None, None, None, None, None, None, None, None, None, None, None, None, None, None, None, None, None, None, None, None, None)

  /** The wire keys, in push order. */
  const WireKeys: seq<string> := ["nombre", "laboratorio", "practiv1", "practiv2", "idpractiv1", "idpractiv2", "cn", "atc",
    "nregistro", "npactiv", "triangulo", "huerfano", "biosimilar", "sust", "vmp", "comerc", "autorizados", "receta",
    "estupefaciente", "psicotropo", "estuopsico", "pagina"]

  /**
   * The filters in push order, each with its wire key and its value as sent:
   * strings verbatim, numbers in decimal.
   */
  function Fields(p: SearchMedicamentosParams): (fs: seq<Field>)
    ensures |fs| == 22
  {
      [("nombre", p.nombre)]
    + [("laboratorio", p.laboratorio)]
    + [("practiv1", p.practiv1)]
    + [("practiv2", p.practiv2)]
    + [("idpractiv1", IntValue(p.idpractiv1))]
    + [("idpractiv2", IntValue(p.idpractiv2))]
    + [("cn", p.cn)]
    + [("atc", p.atc)]
    + [("nregistro", p.nregistro)]
    + [("npactiv", IntValue(p.npactiv))]
    + [("triangulo", ByteValue(p.triangulo))]
    + [("huerfano", ByteValue(p.huerfano))]
    + [("biosimilar", ByteValue(p.biosimilar))]
    + [("sust", ByteValue(p.sust))]
    + [("vmp", p.vmp)]
    + [("comerc", ByteValue(p.comerc))]
    + [("autorizados", ByteValue(p.autorizados))]
    + [("receta", ByteValue(p.receta))]
    + [("estupefaciente", ByteValue(p.estupefaciente))]
    + [("psicotropo", ByteValue(p.psicotropo))]
    + [("estuopsico", ByteValue(p.estuopsico))]
    + [("pagina", PageValue(p.pagina))]
  }

  /** `to_query_params`: one guarded `push` per filter, in field order. */
  method ToQueryParams(p: SearchMedicamentosParams) returns (params: seq<Pair>)
    ensures params == Present(Fields(p))
    ensures |params| == SetCount(Fields(p))
  {
    params := [];
    assert [] + [("nombre", p.nombre)] == [("nombre", p.nombre)];
    PushNext(params, [], "nombre", p.nombre);
    params := PushSome(params, "nombre", p.nombre);
    ghost var fs: seq<Field> := [("nombre", p.nombre)];
    PushNext(params, fs, "laboratorio", p.laboratorio);
    params := PushSome(params, "laboratorio", p.laboratorio);
    fs := fs + [("laboratorio", p.laboratorio)];
    PushNext(params, fs, "practiv1", p.practiv1);
    params := PushSome(params, "practiv1", p.practiv1);
    fs := fs + [("practiv1", p.practiv1)];
    PushNext(params, fs, "practiv2", p.practiv2);
    params := PushSome(params, "practiv2", p.practiv2);
    fs := fs + [("practiv2", p.practiv2)];
    PushNext(params, fs, "idpractiv1", IntValue(p.idpractiv1));
    params := PushSome(params, "idpractiv1", IntValue(p.idpractiv1));
    fs := fs + [("idpractiv1", IntValue(p.idpractiv1))];
    PushNext(params, fs, "idpractiv2", IntValue(p.idpractiv2));
    params := PushSome(params, "idpractiv2", IntValue(p.idpractiv2));
    fs := fs + [("idpractiv2", IntValue(p.idpractiv2))];
    PushNext(params, fs, "cn", p.cn);
    params := PushSome(params, "cn", p.cn);
    fs := fs + [("cn", p.cn)];
    PushNext(params, fs, "atc", p.atc);
    params := PushSome(params, "atc", p.atc);
    fs := fs + [("atc", p.atc)];
    PushNext(params, fs, "nregistro", p.nregistro);
    params := PushSome(params, "nregistro", p.nregistro);
    fs := fs + [("nregistro", p.nregistro)];
    PushNext(params, fs, "npactiv", IntValue(p.npactiv));
    params := PushSome(params, "npactiv", IntValue(p.npactiv));
    fs := fs + [("npactiv", IntValue(p.npactiv))];
    PushNext(params, fs, "triangulo", ByteValue(p.triangulo));
    params := PushSome(params, "triangulo", ByteValue(p.triangulo));
    fs := fs + [("triangulo", ByteValue(p.triangulo))];
    PushNext(params, fs, "huerfano", ByteValue(p.huerfano));
    params := PushSome(params, "huerfano", ByteValue(p.huerfano));
    fs := fs + [("huerfano", ByteValue(p.huerfano))];
    PushNext(params, fs, "biosimilar", ByteValue(p.biosimilar));
    params := PushSome(params, "biosimilar", ByteValue(p.biosimilar));
    fs := fs + [("biosimilar", ByteValue(p.biosimilar))];
    PushNext(params, fs, "sust", ByteValue(p.sust));
    params := PushSome(params, "sust", ByteValue(p.sust));
    fs := fs + [("sust", ByteValue(p.sust))];
    PushNext(params, fs, "vmp", p.vmp);
    params := PushSome(params, "vmp", p.vmp);
    fs := fs + [("vmp", p.vmp)];
    PushNext(params, fs, "comerc", ByteValue(p.comerc));
    params := PushSome(params, "comerc", ByteValue(p.comerc));
    fs := fs + [("comerc", ByteValue(p.comerc))];
    PushNext(params, fs, "autorizados", ByteValue(p.autorizados));
    params := PushSome(params, "autorizados", ByteValue(p.autorizados));
    fs := fs + [("autorizados", ByteValue(p.autorizados))];
    PushNext(params, fs, "receta", ByteValue(p.receta));
    params := PushSome(params, "receta", ByteValue(p.receta));
    fs := fs + [("receta", ByteValue(p.receta))];
    PushNext(params, fs, "estupefaciente", ByteValue(p.estupefaciente));
    params := PushSome(params, "estupefaciente", ByteValue(p.estupefaciente));
    fs := fs + [("estupefaciente", ByteValue(p.estupefaciente))];
    PushNext(params, fs, "psicotropo", ByteValue(p.psicotropo));
    params := PushSome(params, "psicotropo", ByteValue(p.psicotropo));
    fs := fs + [("psicotropo", ByteValue(p.psicotropo))];
    PushNext(params, fs, "estuopsico", ByteValue(p.estuopsico));
    params := PushSome(params, "estuopsico", ByteValue(p.estuopsico));
    fs := fs + [("estuopsico", ByteValue(p.estuopsico))];
    PushNext(params, fs, "pagina", PageValue(p.pagina));
    params := PushSome(params, "pagina", PageValue(p.pagina));
    fs := fs + [("pagina", PageValue(p.pagina))];
    assert fs == Fields(p);
    PresentLength(fs);
  }

  /** Slots 0 to 3 of a search, by position. */
  lemma SlotsHead(p: SearchMedicamentosParams)
    ensures |Fields(p)| == 22
    ensures Fields(p)[0] == ("nombre", p.nombre)
    ensures Fields(p)[1] == ("laboratorio", p.laboratorio)
    ensures Fields(p)[2] == ("practiv1", p.practiv1)
    ensures Fields(p)[3] == ("practiv2", p.practiv2)
  {
  }

  /** Slots 4 to 6 of a search, by position. */
  lemma SlotsNext(p: SearchMedicamentosParams)
    ensures |Fields(p)| == 22
    ensures Fields(p)[4] == ("idpractiv1", IntValue(p.idpractiv1))
    ensures Fields(p)[5] == ("idpractiv2", IntValue(p.idpractiv2))
    ensures Fields(p)[6] == ("cn", p.cn)
  {
  }

  /** Slots 7 to 13 of a search, by position. */
  lemma SlotsMiddle(p: SearchMedicamentosParams)
    ensures |Fields(p)| == 22
    ensures Fields(p)[7] == ("atc", p.atc)
    ensures Fields(p)[8] == ("nregistro", p.nregistro)
    ensures Fields(p)[9] == ("npactiv", IntValue(p.npactiv))
    ensures Fields(p)[10] == ("triangulo", ByteValue(p.triangulo))
    ensures Fields(p)[11] == ("huerfano", ByteValue(p.huerfano))
    ensures Fields(p)[12] == ("biosimilar", ByteValue(p.biosimilar))
    ensures Fields(p)[13] == ("sust", ByteValue(p.sust))
  {
  }

  /** Slots 14 to 21 of a search, by position. */
  lemma SlotsTail(p: SearchMedicamentosParams)
    ensures |Fields(p)| == 22
    ensures Fields(p)[14] == ("vmp", p.vmp)
    ensures Fields(p)[15] == ("comerc", ByteValue(p.comerc))
    ensures Fields(p)[16] == ("autorizados", ByteValue(p.autorizados))
    ensures Fields(p)[17] == ("receta", ByteValue(p.receta))
    ensures Fields(p)[18] == ("estupefaciente", ByteValue(p.estupefaciente))
    ensures Fields(p)[19] == ("psicotropo", ByteValue(p.psicotropo))
    ensures Fields(p)[20] == ("estuopsico", ByteValue(p.estuopsico))
    ensures Fields(p)[21] == ("pagina", PageValue(p.pagina))
  {
  }

  /** Unset filters send nothing, so the default search sends no parameter. */
  lemma DefaultQueryIsEmpty()
    ensures Present(Fields(Default)) == []
  {
    PresentEmpty(Fields(Default));
  }

  /** The search of the unit test: a name, the black-triangle flag and a page. */
  lemma SearchExample()
    ensures Present(Fields(Default.(nombre := Some("Paracetamol"), triangulo := Some(1), pagina := Some(2))))
      == [("nombre", "Paracetamol"), ("triangulo", "1"), ("pagina", "2")]
  {
    var p := Default.(nombre := Some("Paracetamol"), triangulo := Some(1), pagina := Some(2));
    SearchExampleHead(p);
    var fs := Fields(p);
    SlotsMiddle(p);
    SlotsTail(p);
    UnsetStep(fs, 11); UnsetStep(fs, 12); UnsetStep(fs, 13); UnsetStep(fs, 14); UnsetStep(fs, 15);
    UnsetStep(fs, 16); UnsetStep(fs, 17); UnsetStep(fs, 18); UnsetStep(fs, 19); UnsetStep(fs, 20);
    assert fs[21] == ("pagina", Some("2"));
    PresentStep(fs, 21);
    assert fs[..22] == fs;
  }

  /** The first eleven slots of the unit test's search send the name and the flag. */
  lemma SearchExampleHead(p: SearchMedicamentosParams)
    requires p == Default.(nombre := Some("Paracetamol"), triangulo := Some(1), pagina := Some(2))
    ensures |Fields(p)| == 22
    ensures Present(Fields(p)[..11]) == [("nombre", "Paracetamol"), ("triangulo", "1")]
  {
    var fs := Fields(p);
    SlotsHead(p);
    SlotsNext(p);
    SlotsMiddle(p);
    assert fs[..0] == [];
    PresentStep(fs, 0);
    UnsetStep(fs, 1); UnsetStep(fs, 2); UnsetStep(fs, 3); UnsetStep(fs, 4); UnsetStep(fs, 5);
    UnsetStep(fs, 6); UnsetStep(fs, 7); UnsetStep(fs, 8); UnsetStep(fs, 9);
    assert fs[10] == ("triangulo", Some("1"));
    PresentStep(fs, 10);
  }

  /**
   * `get_medicamento`: the registration number, then the national code,
   * whichever are given, sent to the `medicamento` endpoint; with neither,
   * the call fails before any request is made.
   */
  method GetMedicamento(nregistro: Option<string>, cn: Option<string>) returns (r: Result<GetRequest, string>)
    ensures r.Failure? <==> nregistro.None? && cn.None?
    ensures r.Failure? ==> r.error == "Must provide either nregistro or cn"
    ensures r.Success? ==> r.value == GetRequest("medicamento", Present([("nregistro", nregistro), ("cn", cn)]))
  {
    var params: seq<Pair> := [];
    PresentSnoc([], ("nregistro", nregistro));
    PresentSnoc([("nregistro", nregistro)], ("cn", cn));
    assert [] + [("nregistro", nregistro)] == [("nregistro", nregistro)];
    assert [("nregistro", nregistro)] + [("cn", cn)] == [("nregistro", nregistro), ("cn", cn)];
    if nregistro.Some? {
      params := params + [("nregistro", nregistro.value)];
    }
    if cn.Some? {
      params := params + [("cn", cn.value)];
    }
    if params == [] {
      return Failure("Must provide either nregistro or cn");
    }
    return Success(GetRequest("medicamento", params));
  }

  /** No wire key is repeated. */
  lemma WireKeysDistinct()
    ensures |WireKeys| == 22
    ensures forall i, j :: 0 <= i < j < |WireKeys| ==> WireKeys[i] != WireKeys[j]
  {
  }

  /** Slot `k` of every search carries the `k`-th wire key: slots 0 to 10. */
  lemma KeysHead(p: SearchMedicamentosParams)
    ensures forall k :: 0 <= k < 11 ==> Fields(p)[k].0 == WireKeys[k]
  {
    SlotsHead(p);
    SlotsNext(p);
    SlotsMiddle(p);
  }

  /** Slot `k` of every search carries the `k`-th wire key: slots 11 to 21. */
  lemma KeysTail(p: SearchMedicamentosParams)
    ensures forall k :: 11 <= k < 22 ==> Fields(p)[k].0 == WireKeys[k]
  {
    SlotsMiddle(p);
    SlotsTail(p);
  }

  /** Every field has its own wire key, so no key is ever sent twice. */
  lemma QueryKeysDistinct(p: SearchMedicamentosParams)
    ensures DistinctPairKeys(Present(Fields(p)))
  {
    SlotsHead(p);
    WireKeysDistinct();
    KeysHead(p);
    KeysTail(p);
    assert DistinctKeys(Fields(p));
    PresentDistinct(Fields(p));
  }
}
