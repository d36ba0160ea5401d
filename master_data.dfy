// Parameters of the English master-data endpoint (src/endpoints/master_data.rs),
// with the catalogue codes of `MasterDataType` (src/models.rs).

module MasterData {
  import opened Wrappers
  import opened Text
  import opened QueryParams
  import Maestras

  /** The catalogues of the master-data endpoint. */
  datatype MasterDataType =
    | ActiveIngredients
    | PharmaceuticalForms
    | AdministrationRoutes
    | Laboratories
    | AtcCodes
    | ActiveIngredientsSnomed
    | SimplifiedPharmaceuticalFormsSnomed
    | AdministrationRoutesSnomed
    | Medications
    | CommercializedMedicationsSnomed

  /** `as_u8`: the catalogue's discriminant. */
  function AsU8(t: MasterDataType): (code: U8)
    ensures code in {1, 3, 4, 6, 7, 11, 13, 14, 15, 16}
  {
    match t
    case ActiveIngredients => 1
    case PharmaceuticalForms => 3
    case AdministrationRoutes => 4
    case Laboratories => 6
    case AtcCodes => 7
    case ActiveIngredientsSnomed => 11
    case SimplifiedPharmaceuticalFormsSnomed => 13
    case AdministrationRoutesSnomed => 14
    case Medications => 15
    case CommercializedMedicationsSnomed => 16
  }

  /** Distinct catalogues have distinct codes, so the code names the catalogue. */
  lemma AsU8Injective(s: MasterDataType, t: MasterDataType)
    ensures AsU8(s) == AsU8(t) ==> s == t
  {
  }

  /** Filters of a master-data query, under English names; every filter is optional. */
  datatype MasterDataParams = MasterDataParams(
    name: Option<string>,
    id: Option<I32>,
    code: Option<string>,
    narcotic: Option<U8>,
    psychotropic: Option<U8>,
    narcoticOrPsychotropic: Option<U8>,
    inUse: Option<U8>,
    page: Option<U32>)

  /** `MasterDataParams::new()`: no filter set. */
  const Default := MasterDataParams(None, None, None, None, None, None, None, None)

  /** The filters in push order, each with the Spanish wire key it is sent under. */
  function Fields(p: MasterDataParams): (fs: seq<Field>)
    ensures |fs| == 8 && DistinctKeys(fs)
  {
      [("nombre", p.name)]
    + [("id", IntValue(p.id))]
    + [("codigo", p.code)]
    + [("estupefaciente", ByteValue(p.narcotic))]
    + [("psicotropo", ByteValue(p.psychotropic))]
    + [("estuopsico", ByteValue(p.narcoticOrPsychotropic))]
    + [("enuso", ByteValue(p.inUse))]
    + [("pagina", PageValue(p.page))]
  }

  /** `to_query_params`: the `maestra` pair first, then one guarded `push` per filter. */
  method ToQueryParams(p: MasterDataParams, dataType: MasterDataType) returns (params: seq<Pair>)
    ensures params == [("maestra", Decimal(AsU8(dataType) as int))] + Present(Fields(p))
    ensures |params| == 1 + SetCount(Fields(p))
  {
    params := [("maestra", Decimal(AsU8(dataType) as int))];
    ghost var head := params;
    PushAfter(params, head, [], "nombre", p.name);
    params := PushSome(params, "nombre", p.name);
    ghost var fs: seq<Field> := [("nombre", p.name)];
    PushAfter(params, head, fs, "id", IntValue(p.id));
    params := PushSome(params, "id", IntValue(p.id));
    fs := fs + [("id", IntValue(p.id))];
    PushAfter(params, head, fs, "codigo", p.code);
    params := PushSome(params, "codigo", p.code);
    fs := fs + [("codigo", p.code)];
    PushAfter(params, head, fs, "estupefaciente", ByteValue(p.narcotic));
    params := PushSome(params, "estupefaciente", ByteValue(p.narcotic));
    fs := fs + [("estupefaciente", ByteValue(p.narcotic))];
    PushAfter(params, head, fs, "psicotropo", ByteValue(p.psychotropic));
    params := PushSome(params, "psicotropo", ByteValue(p.psychotropic));
    fs := fs + [("psicotropo", ByteValue(p.psychotropic))];
    PushAfter(params, head, fs, "estuopsico", ByteValue(p.narcoticOrPsychotropic));
    params := PushSome(params, "estuopsico", ByteValue(p.narcoticOrPsychotropic));
    fs := fs + [("estuopsico", ByteValue(p.narcoticOrPsychotropic))];
    PushAfter(params, head, fs, "enuso", ByteValue(p.inUse));
    params := PushSome(params, "enuso", ByteValue(p.inUse));
    fs := fs + [("enuso", ByteValue(p.inUse))];
    PushAfter(params, head, fs, "pagina", PageValue(p.page));
    params := PushSome(params, "pagina", PageValue(p.page));
    fs := fs + [("pagina", PageValue(p.page))];
    assert fs == Fields(p);
    PresentLength(fs);
  }

  /** With no filter the query is exactly one pair, the catalogue code. */
  lemma FilterFreeQuery(t: MasterDataType)
    ensures [("maestra", Decimal(AsU8(t) as int))] + Present(Fields(Default)) == [("maestra", Decimal(AsU8(t) as int))]
  {
    PresentEmpty(Fields(Default));
  }

  /** The Spanish parameter struct holding the same filters. */
  function ToSpanish(p: MasterDataParams): Maestras.MaestraParams {
    Maestras.MaestraParams(p.name, p.id, p.code, p.narcotic, p.psychotropic, p.narcoticOrPsychotropic, p.inUse, p.page)
  }

  /** The English struct sends, key for key, the query of the Spanish one. */
  lemma SameQueryAsSpanish(p: MasterDataParams)
    ensures Present(Fields(p)) == Present(Maestras.Fields(ToSpanish(p)))
  {
  }

  /** The `maestra` pair and every filter have their own keys, so no key is ever sent twice. */
  lemma QueryKeysDistinct(p: MasterDataParams, dataType: MasterDataType)
    ensures DistinctPairKeys([("maestra", Decimal(AsU8(dataType) as int))] + Present(Fields(p)))
  {
    PrefixedDistinct("maestra", Decimal(AsU8(dataType) as int), Fields(p));
  }
}
