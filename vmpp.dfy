// Search parameters of the Spanish VMP/VMPP endpoint (src/endpoints/vmpp.rs).

module Vmpp {
  import opened Wrappers
  import opened Text
  import opened QueryParams

  /** Filters of a VMP/VMPP search; the tree mode is a plain flag. */
  datatype SearchVmppParams = SearchVmppParams(
    practiv1: Option<string>,
    idpractiv1: Option<I32>,
    dosis: Option<string>,
    forma: Option<string>,
    atc: Option<string>,
    nombre: Option<string>,
    modoArbol: bool,
    pagina: Option<U32>)

  /** `SearchVmppParams::new()`: no filter set and the tree mode off. */
  const Default := SearchVmppParams(None, None, None, None, None, None, false, None)

  /**
   * The filters in push order, each with its wire key and its value as sent;
   * the tree mode contributes `"true"` when set and nothing otherwise.
   */
  function Fields(p: SearchVmppParams): (fs: seq<Field>)
    ensures |fs| == 8 && DistinctKeys(fs)
  {
      [("practiv1", p.practiv1)]
    + [("idpractiv1", IntValue(p.idpractiv1))]
    + [("dosis", p.dosis)]
    + [("forma", p.forma)]
    + [("atc", p.atc)]
    + [("nombre", p.nombre)]
    + [("modoArbol", TrueValue(p.modoArbol))]
    + [("pagina", PageValue(p.pagina))]
  }

  /** `to_query_params`: one guarded `push` per filter, in field order. */
  method ToQueryParams(p: SearchVmppParams) returns (params: seq<Pair>)
    ensures params == Present(Fields(p))
    ensures |params| == SetCount(Fields(p))
  {
    params := [];
    assert [] + [("practiv1", p.practiv1)] == [("practiv1", p.practiv1)];
    PushNext(params, [], "practiv1", p.practiv1);
    params := PushSome(params, "practiv1", p.practiv1);
    ghost var fs: seq<Field> := [("practiv1", p.practiv1)];
    PushNext(params, fs, "idpractiv1", IntValue(p.idpractiv1));
    params := PushSome(params, "idpractiv1", IntValue(p.idpractiv1));
    fs := fs + [("idpractiv1", IntValue(p.idpractiv1))];
    PushNext(params, fs, "dosis", p.dosis);
    params := PushSome(params, "dosis", p.dosis);
    fs := fs + [("dosis", p.dosis)];
    PushNext(params, fs, "forma", p.forma);
    params := PushSome(params, "forma", p.forma);
    fs := fs + [("forma", p.forma)];
    PushNext(params, fs, "atc", p.atc);
    params := PushSome(params, "atc", p.atc);
    fs := fs + [("atc", p.atc)];
    PushNext(params, fs, "nombre", p.nombre);
    params := PushSome(params, "nombre", p.nombre);
    fs := fs + [("nombre", p.nombre)];
    PushNext(params, fs, "modoArbol", TrueValue(p.modoArbol));
    params := PushSome(params, "modoArbol", TrueValue(p.modoArbol));
    fs := fs + [("modoArbol", TrueValue(p.modoArbol))];
    PushNext(params, fs, "pagina", PageValue(p.pagina));
    params := PushSome(params, "pagina", PageValue(p.pagina));
    fs := fs + [("pagina", PageValue(p.pagina))];
    assert fs == Fields(p);
    PresentLength(fs);
  }

  /** Unset filters and the tree mode off send nothing. */
  lemma DefaultQueryIsEmpty()
    ensures Present(Fields(Default)) == []
  {
    PresentEmpty(Fields(Default));
  }

  /** The tree mode on its own sends `modoArbol=true` and nothing else. */
  lemma TreeModeOnly()
    ensures Present(Fields(Default.(modoArbol := true))) == [("modoArbol", "true")]
  {
    var fs := Fields(Default.(modoArbol := true));
    assert fs[..0] == [];
    NextSet(fs, 0, 6, []);
    PresentUnsetRun(fs, 7, 8);
    assert fs[..8] == fs;
  }

  /** Every field has its own wire key, so no key is ever sent twice. */
  lemma QueryKeysDistinct(p: SearchVmppParams)
    ensures DistinctPairKeys(Present(Fields(p)))
  {
    PresentDistinct(Fields(p));
  }
}
