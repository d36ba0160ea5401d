// Parameters of the Spanish master-data endpoint (src/endpoints/maestras.rs).
// The query always starts with the catalogue code of the requested `tipo`.

module Maestras {
  import opened Wrappers
  import opened Text
  import opened QueryParams

  /**
   * The catalogues the command line can name. Their numeric codes
   * (`TipoMaestra::as_u8`) are not part of this model: the query functions
   * take the code itself.
   */
  datatype TipoMaestra = PrincipiosActivos | FormasFarmaceuticas | ViasAdministracion | Laboratorios | CodigosATC

  /** Filters of a master-data query; every filter is optional. */
  datatype MaestraParams = MaestraParams(
    nombre: Option<string>,
    id: Option<I32>,
    codigo: Option<string>,
    estupefaciente: Option<U8>,
    psicotropo: Option<U8>,
    estuopsico: Option<U8>,
    enuso: Option<U8>,
    pagina: Option<U32>)

  /** `MaestraParams::new()`: no filter set. */
  const Default := MaestraParams(None, None, None, None, None, None, None, None)

  /**
   * The filters in push order, each with its wire key and its value as sent:
   * strings verbatim, numbers in decimal.
   */
  function Fields(p: MaestraParams): (fs: seq<Field>)
    ensures |fs| == 8 && DistinctKeys(fs)
  {
      [("nombre", p.nombre)]
    + [("id", IntValue(p.id))]
    + [("codigo", p.codigo)]
    + [("estupefaciente", ByteValue(p.estupefaciente))]
    + [("psicotropo", ByteValue(p.psicotropo))]
    + [("estuopsico", ByteValue(p.estuopsico))]
    + [("enuso", ByteValue(p.enuso))]
    + [("pagina", PageValue(p.pagina))]
  }

  /** `to_query_params`: the `maestra` pair first, then one guarded `push` per filter. */
  method ToQueryParams(p: MaestraParams, code: U8) returns (params: seq<Pair>)
    ensures params == [("maestra", Decimal(code as int))] + Present(Fields(p))
    ensures |params| == 1 + SetCount(Fields(p))
  {
    params := [("maestra", Decimal(code as int))];
    ghost var head := params;
    PushAfter(params, head, [], "nombre", p.nombre);
    params := PushSome(params, "nombre", p.nombre);
    ghost var fs: seq<Field> := [("nombre", p.nombre)];
    PushAfter(params, head, fs, "id", IntValue(p.id));
    params := PushSome(params, "id", IntValue(p.id));
    fs := fs + [("id", IntValue(p.id))];
    PushAfter(params, head, fs, "codigo", p.codigo);
    params := PushSome(params, "codigo", p.codigo);
    fs := fs + [("codigo", p.codigo)];
    PushAfter(params, head, fs, "estupefaciente", ByteValue(p.estupefaciente));
    params := PushSome(params, "estupefaciente", ByteValue(p.estupefaciente));
    fs := fs + [("estupefaciente", ByteValue(p.estupefaciente))];
    PushAfter(params, head, fs, "psicotropo", ByteValue(p.psicotropo));
    params := PushSome(params, "psicotropo", ByteValue(p.psicotropo));
    fs := fs + [("psicotropo", ByteValue(p.psicotropo))];
    PushAfter(params, head, fs, "estuopsico", ByteValue(p.estuopsico));
    params := PushSome(params, "estuopsico", ByteValue(p.estuopsico));
    fs := fs + [("estuopsico", ByteValue(p.estuopsico))];
    PushAfter(params, head, fs, "enuso", ByteValue(p.enuso));
    params := PushSome(params, "enuso", ByteValue(p.enuso));
    fs := fs + [("enuso", ByteValue(p.enuso))];
    PushAfter(params, head, fs, "pagina", PageValue(p.pagina));
    params := PushSome(params, "pagina", PageValue(p.pagina));
    fs := fs + [("pagina", PageValue(p.pagina))];
    assert fs == Fields(p);
    PresentLength(fs);
  }

  /** With no filter the query is the catalogue code alone. */
  lemma FilterFreeQuery(code: U8)
    ensures [("maestra", Decimal(code as int))] + Present(Fields(Default)) == [("maestra", Decimal(code as int))]
  {
    PresentEmpty(Fields(Default));
  }

  /** A query filtered by name only: the catalogue code, then the name. */
  lemma NameOnlyQuery(code: U8, nombre: string)
    ensures [("maestra", Decimal(code as int))] + Present(Fields(Default.(nombre := Some(nombre))))
      == [("maestra", Decimal(code as int)), ("nombre", nombre)]
  {
    var fs := Fields(Default.(nombre := Some(nombre)));
    assert fs[..0] == [];
    NextSet(fs, 0, 0, []);
    PresentUnsetRun(fs, 1, 8);
    assert fs[..8] == fs;
  }

  /** The `maestra` pair and every filter have their own keys, so no key is ever sent twice. */
  lemma QueryKeysDistinct(p: MaestraParams, code: U8)
    ensures DistinctPairKeys([("maestra", Decimal(code as int))] + Present(Fields(p)))
  {
    PrefixedDistinct("maestra", Decimal(code as int), Fields(p));
  }
}
