// Search parameters of the English clinical-description endpoint
// (src/endpoints/clinical_descriptions.rs): English field names, Spanish wire
// keys, the same `vmpp` endpoint as the Spanish search.

module ClinicalDescriptions {
  import opened Wrappers
  import opened Text
  import opened QueryParams
  import Vmpp

  /** Filters of a clinical-description search, under English names. */
  datatype SearchClinicalDescriptionParams = SearchClinicalDescriptionParams(
    activeIngredient: Option<string>,
    activeIngredientId: Option<I32>,
    dose: Option<string>,
    pharmaceuticalForm: Option<string>,
    atc: Option<string>,
    name: Option<string>,
    treeMode: bool,
    page: Option<U32>)

  /** `SearchClinicalDescriptionParams::new()`: no filter set and the tree mode off. */
  const Default := SearchClinicalDescriptionParams(None, None, None, None, None, None, false, None)

  /** The filters in push order, each with the Spanish wire key it is sent under. */
  function Fields(p: SearchClinicalDescriptionParams): (fs: seq<Field>)
    ensures |fs| == 8 && DistinctKeys(fs)
  {
      [("practiv1", p.activeIngredient)]
    + [("idpractiv1", IntValue(p.activeIngredientId))]
    + [("dosis", p.dose)]
    + [("forma", p.pharmaceuticalForm)]
    + [("atc", p.atc)]
    + [("nombre", p.name)]
    + [("modoArbol", TrueValue(p.treeMode))]
    + [("pagina", PageValue(p.page))]
  }

  /** `to_query_params`: one guarded `push` per filter, in field order. */
  method ToQueryParams(p: SearchClinicalDescriptionParams) returns (params: seq<Pair>)
    ensures params == Present(Fields(p))
    ensures |params| == SetCount(Fields(p))
  {
    params := [];
    assert [] + [("practiv1", p.activeIngredient)] == [("practiv1", p.activeIngredient)];
    PushNext(params, [], "practiv1", p.activeIngredient);
    params := PushSome(params, "practiv1", p.activeIngredient);
    ghost var fs: seq<Field> := [("practiv1", p.activeIngredient)];
    PushNext(params, fs, "idpractiv1", IntValue(p.activeIngredientId));
    params := PushSome(params, "idpractiv1", IntValue(p.activeIngredientId));
    fs := fs + [("idpractiv1", IntValue(p.activeIngredientId))];
    PushNext(params, fs, "dosis", p.dose);
    params := PushSome(params, "dosis", p.dose);
    fs := fs + [("dosis", p.dose)];
    PushNext(params, fs, "forma", p.pharmaceuticalForm);
    params := PushSome(params, "forma", p.pharmaceuticalForm);
    fs := fs + [("forma", p.pharmaceuticalForm)];
    PushNext(params, fs, "atc", p.atc);
    params := PushSome(params, "atc", p.atc);
    fs := fs + [("atc", p.atc)];
    PushNext(params, fs, "nombre", p.name);
    params := PushSome(params, "nombre", p.name);
    fs := fs + [("nombre", p.name)];
    PushNext(params, fs, "modoArbol", TrueValue(p.treeMode));
    params := PushSome(params, "modoArbol", TrueValue(p.treeMode));
    fs := fs + [("modoArbol", TrueValue(p.treeMode))];
    PushNext(params, fs, "pagina", PageValue(p.page));
    params := PushSome(params, "pagina", PageValue(p.page));
    fs := fs + [("pagina", PageValue(p.page))];
    assert fs == Fields(p);
    PresentLength(fs);
  }

  /** Unset filters and the tree mode off send nothing. */
  lemma DefaultQueryIsEmpty()
    ensures Present(Fields(Default)) == []
  {
    PresentEmpty(Fields(Default));
  }

  /** The Spanish search struct holding the same filters. */
  function ToSpanish(p: SearchClinicalDescriptionParams): Vmpp.SearchVmppParams {
    Vmpp.SearchVmppParams(p.activeIngredient, p.activeIngredientId, p.dose, p.pharmaceuticalForm, p.atc, p.name, p.treeMode, p.page)
  }

  /** The English struct sends, key for key, the query of the Spanish one. */
  lemma SameQueryAsSpanish(p: SearchClinicalDescriptionParams)
    ensures Present(Fields(p)) == Present(Vmpp.Fields(ToSpanish(p)))
  {
  }

  /** Every field has its own wire key, so no key is ever sent twice. */
  lemma QueryKeysDistinct(p: SearchClinicalDescriptionParams)
    ensures DistinctPairKeys(Present(Fields(p)))
  {
    PresentDistinct(Fields(p));
  }
}
