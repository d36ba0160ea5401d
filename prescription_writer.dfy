/**
 * The decomposer of the prescription dictionary: one pass over the decoded
 * records with seven CSV writers open at once.
 */
module PrescriptionWriter {
  import opened Wrappers
  import opened Csv
  import opened Catalog
  import opened Prescription

  /** The rows after element `j`, in terms of the rows of the elements before it. */
  lemma IngredientStep(before: seq<Row>, id: string, xs: seq<ActiveIngredient>, j: nat)
    requires j < |xs|
    ensures before + IngredientRows(id, xs[..j]) + [IngredientRow(id, xs[j])] == before + IngredientRows(id, xs[..j + 1])
  {
    assert xs[..j + 1][..j] == xs[..j];
    AppendAssoc(before, IngredientRows(id, xs[..j]), [IngredientRow(id, xs[j])]);
  }

  /** The rows after element `j`, in terms of the rows of the elements before it. */
  lemma RouteStep(before: seq<Row>, id: string, xs: seq<AdminRoute>, j: nat)
    requires j < |xs|
    ensures before + RouteRows(id, xs[..j]) + [RouteRow(id, xs[j])] == before + RouteRows(id, xs[..j + 1])
  {
    assert xs[..j + 1][..j] == xs[..j];
    AppendAssoc(before, RouteRows(id, xs[..j]), [RouteRow(id, xs[j])]);
  }

  /** The rows after element `j`, in terms of the rows of the elements before it. */
  lemma DuplicateStep(before: seq<Row>, id: string, atcCode: string, xs: seq<AtcDuplicate>, j: nat)
    requires j < |xs|
    ensures before + DuplicateRows(id, atcCode, xs[..j]) + [DuplicateRow(id, atcCode, xs[j])] == before + DuplicateRows(id, atcCode, xs[..j + 1])
  {
    assert xs[..j + 1][..j] == xs[..j];
    AppendAssoc(before, DuplicateRows(id, atcCode, xs[..j]), [DuplicateRow(id, atcCode, xs[j])]);
  }

  /** The rows after element `j`, in terms of the rows of the elements before it. */
  lemma SupplyStep(before: seq<Row>, id: string, xs: seq<SupplyProblem>, j: nat)
    requires j < |xs|
    ensures before + SupplyRows(id, xs[..j]) + [SupplyRow(id, xs[j])] == before + SupplyRows(id, xs[..j + 1])
  {
    assert xs[..j + 1][..j] == xs[..j];
    AppendAssoc(before, SupplyRows(id, xs[..j]), [SupplyRow(id, xs[j])]);
  }

  method WriteIngredients(w: CsvWriter, id: string, xs: seq<ActiveIngredient>)
    requires w.Accepts(11)
    modifies w
    ensures w.Accepts(11) && w.headerWritten == old(w.headerWritten)
    ensures w.lines == old(w.lines) + IngredientRows(id, xs)
  {
    for j := 0 to |xs|
      invariant w.Accepts(11) && w.headerWritten == old(w.headerWritten)
      invariant w.lines == old(w.lines) + IngredientRows(id, xs[..j])
    {
      var ok := w.WriteRecord(IngredientRow(id, xs[j]));
      assert ok;
      IngredientStep(old(w.lines), id, xs, j);
    }
    assert xs[..|xs|] == xs;
  }

  method WriteRoutes(w: CsvWriter, id: string, xs: seq<AdminRoute>)
    requires w.Accepts(2)
    modifies w
    ensures w.Accepts(2) && w.headerWritten == old(w.headerWritten)
    ensures w.lines == old(w.lines) + RouteRows(id, xs)
  {
    for j := 0 to |xs|
      invariant w.Accepts(2) && w.headerWritten == old(w.headerWritten)
      invariant w.lines == old(w.lines) + RouteRows(id, xs[..j])
    {
      var ok := w.WriteRecord(RouteRow(id, xs[j]));
      assert ok;
      RouteStep(old(w.lines), id, xs, j);
    }
    assert xs[..|xs|] == xs;
  }

  method WriteDuplicates(w: CsvWriter, id: string, atcCode: string, xs: seq<AtcDuplicate>)
    requires w.Accepts(6)
    modifies w
    ensures w.Accepts(6) && w.headerWritten == old(w.headerWritten)
    ensures w.lines == old(w.lines) + DuplicateRows(id, atcCode, xs)
  {
    for j := 0 to |xs|
      invariant w.Accepts(6) && w.headerWritten == old(w.headerWritten)
      invariant w.lines == old(w.lines) + DuplicateRows(id, atcCode, xs[..j])
    {
      var ok := w.WriteRecord(DuplicateRow(id, atcCode, xs[j]));
      assert ok;
      DuplicateStep(old(w.lines), id, atcCode, xs, j);
    }
    assert xs[..|xs|] == xs;
  }

  lemma AtcRowsSnoc(id: string, atcs: seq<PrescriptionAtc>, a: PrescriptionAtc)
    ensures AtcCodeRows(id, atcs + [a]) == AtcCodeRows(id, atcs) + [AtcCodeRow(id, a)]
    ensures AtcDuplicateRows(id, atcs + [a]) == AtcDuplicateRows(id, atcs) + DuplicateRows(id, a.atcCode, a.duplicates)
  {
    assert (atcs + [a])[..|atcs|] == atcs;
  }

  /** One ATC code's row, then that code's duplicate rows in the other writer. */
  method WriteAtcCode(wAtc: CsvWriter, wDup: CsvWriter, id: string, a: PrescriptionAtc)
    requires wAtc != wDup
    requires wAtc.Accepts(2) && wDup.Accepts(6)
    modifies wAtc, wDup
    ensures wAtc.Accepts(2) && wDup.Accepts(6)
    ensures wAtc.headerWritten == old(wAtc.headerWritten) && wDup.headerWritten == old(wDup.headerWritten)
    ensures wAtc.lines == old(wAtc.lines) + [AtcCodeRow(id, a)]
    ensures wDup.lines == old(wDup.lines) + DuplicateRows(id, a.atcCode, a.duplicates)
  {
    var ok := wAtc.WriteRecord(AtcCodeRow(id, a));
    assert ok;
    WriteDuplicates(wDup, id, a.atcCode, a.duplicates);
  }

  /** The writers' contents after the ATC code at `j`, in terms of the prefix up to it. */
  lemma AtcStep(atcLines: seq<Row>, dupLines: seq<Row>, id: string, atcs: seq<PrescriptionAtc>, j: nat)
    requires j < |atcs|
    ensures atcLines + AtcCodeRows(id, atcs[..j]) + [AtcCodeRow(id, atcs[j])] == atcLines + AtcCodeRows(id, atcs[..j + 1])
    ensures dupLines + AtcDuplicateRows(id, atcs[..j]) + DuplicateRows(id, atcs[j].atcCode, atcs[j].duplicates)
         == dupLines + AtcDuplicateRows(id, atcs[..j + 1])
  {
    assert atcs[..j + 1] == atcs[..j] + [atcs[j]];
    AtcRowsSnoc(id, atcs[..j], atcs[j]);
    AppendAssoc(atcLines, AtcCodeRows(id, atcs[..j]), [AtcCodeRow(id, atcs[j])]);
    AppendAssoc(dupLines, AtcDuplicateRows(id, atcs[..j]), DuplicateRows(id, atcs[j].atcCode, atcs[j].duplicates));
  }

  /** Each ATC code's row, followed by that code's duplicate rows in the other writer. */
  method WriteAtcCodes(wAtc: CsvWriter, wDup: CsvWriter, id: string, atcs: seq<PrescriptionAtc>)
    requires wAtc != wDup
    requires wAtc.Accepts(2) && wDup.Accepts(6)
    modifies wAtc, wDup
    ensures wAtc.Accepts(2) && wDup.Accepts(6)
    ensures wAtc.headerWritten == old(wAtc.headerWritten) && wDup.headerWritten == old(wDup.headerWritten)
    ensures wAtc.lines == old(wAtc.lines) + AtcCodeRows(id, atcs)
    ensures wDup.lines == old(wDup.lines) + AtcDuplicateRows(id, atcs)
  {
    for j := 0 to |atcs|
      invariant wAtc.Accepts(2) && wDup.Accepts(6)
      invariant wAtc.headerWritten == old(wAtc.headerWritten) && wDup.headerWritten == old(wDup.headerWritten)
      invariant wAtc.lines == old(wAtc.lines) + AtcCodeRows(id, atcs[..j])
      invariant wDup.lines == old(wDup.lines) + AtcDuplicateRows(id, atcs[..j])
    {
      WriteAtcCode(wAtc, wDup, id, atcs[j]);
      AtcStep(old(wAtc.lines), old(wDup.lines), id, atcs, j);
    }
    assert atcs[..|atcs|] == atcs;
  }

  method WriteSupplyProblems(w: CsvWriter, id: string, xs: seq<SupplyProblem>)
    requires w.Accepts(3)
    modifies w
    ensures w.Accepts(3) && w.headerWritten == old(w.headerWritten)
    ensures w.lines == old(w.lines) + SupplyRows(id, xs)
  {
    for j := 0 to |xs|
      invariant w.Accepts(3) && w.headerWritten == old(w.headerWritten)
      invariant w.lines == old(w.lines) + SupplyRows(id, xs[..j])
    {
      var ok := w.WriteRecord(SupplyRow(id, xs[j]));
      assert ok;
      SupplyStep(old(w.lines), id, xs, j);
    }
    assert xs[..|xs|] == xs;
  }

  /** The main table after the record at `i`, in terms of the records before it. */
  lemma MainStep(rs: seq<Prescription>, i: nat)
    requires i < |rs|
    ensures SerializedFile(MainHeader, MapRows(rs[..i + 1], MainRow, Identity))
         == SerializedFile(MainHeader, MapRows(rs[..i], MainRow, Identity)) + (if i > 0 then [] else [MainHeader]) + [MainRow(rs[i])]
  {
    var front := MapRows(rs[..i], MainRow, Identity);
    MapRowsStep(rs, i, MainRow, Identity);
    assert Identity(rs[i]) == rs[i];
    SerializedFileSnoc(MainHeader, front, MainRow(rs[i]));
  }

  /** A child table after the record at `i`, in terms of the records before it. */
  lemma ChildStep(rs: seq<Prescription>, i: nat, part: Prescription -> seq<Row>)
    requires i < |rs|
    ensures Table(rs[..i + 1], part) == Table(rs[..i], part) + part(rs[i])
  {
    assert rs[..i + 1] == rs[..i] + [rs[i]];
    TableSnoc(rs[..i], rs[i], part);
  }

  /** The form of one record, when it has one, with its ingredients and routes. */
  method WriteForm(record: Prescription, wForms: CsvWriter, wIngredients: CsvWriter, wRoutes: CsvWriter)
    requires wForms != wIngredients && wForms != wRoutes && wIngredients != wRoutes
    requires wForms.Accepts(4) && wIngredients.Accepts(11) && wRoutes.Accepts(2)
    modifies wForms, wIngredients, wRoutes
    ensures wForms.Accepts(4) && wIngredients.Accepts(11) && wRoutes.Accepts(2)
    ensures wForms.lines == old(wForms.lines) + FormRows(record)
    ensures wIngredients.lines == old(wIngredients.lines) + IngredientRowsOf(record)
    ensures wRoutes.lines == old(wRoutes.lines) + RouteRowsOf(record)
  {
    if record.forms.Some? {
      var id := record.codNacion;
      var form := record.forms.value;
      var ok := wForms.WriteRecord(FormRow(id, form));
      assert ok;
      WriteIngredients(wIngredients, id, form.activeIngredients);
      WriteRoutes(wRoutes, id, form.adminRoutes);
    }
  }

  /** The nested collections of one record, each to its own writer. */
  method WriteNested(record: Prescription, wForms: CsvWriter, wIngredients: CsvWriter, wRoutes: CsvWriter,
                     wAtc: CsvWriter, wDuplicates: CsvWriter, wSupply: CsvWriter)
    requires wForms != wIngredients && wForms != wRoutes && wForms != wAtc && wForms != wDuplicates && wForms != wSupply
    requires wIngredients != wRoutes && wIngredients != wAtc && wIngredients != wDuplicates && wIngredients != wSupply
    requires wRoutes != wAtc && wRoutes != wDuplicates && wRoutes != wSupply
    requires wAtc != wDuplicates && wAtc != wSupply && wDuplicates != wSupply
    requires wForms.Accepts(4) && wIngredients.Accepts(11) && wRoutes.Accepts(2)
    requires wAtc.Accepts(2) && wDuplicates.Accepts(6) && wSupply.Accepts(3)
    modifies wForms, wIngredients, wRoutes, wAtc, wDuplicates, wSupply
    ensures wForms.Accepts(4) && wIngredients.Accepts(11) && wRoutes.Accepts(2)
    ensures wAtc.Accepts(2) && wDuplicates.Accepts(6) && wSupply.Accepts(3)
    ensures wForms.lines == old(wForms.lines) + FormRows(record)
    ensures wIngredients.lines == old(wIngredients.lines) + IngredientRowsOf(record)
    ensures wRoutes.lines == old(wRoutes.lines) + RouteRowsOf(record)
    ensures wAtc.lines == old(wAtc.lines) + AtcRowsOf(record)
    ensures wDuplicates.lines == old(wDuplicates.lines) + DuplicateRowsOf(record)
    ensures wSupply.lines == old(wSupply.lines) + SupplyRowsOf(record)
  {
    WriteForm(record, wForms, wIngredients, wRoutes);
    WriteAtcCodes(wAtc, wDuplicates, record.codNacion, record.atcCodes);
    WriteSupplyProblems(wSupply, record.codNacion, record.supplyProblems);
  }

  /** The child tables after record `i`, given the child tables of the records before it. */
  method WriteChildTables(rs: seq<Prescription>, i: nat, wForms: CsvWriter, wIngredients: CsvWriter, wRoutes: CsvWriter,
                          wAtc: CsvWriter, wDuplicates: CsvWriter, wSupply: CsvWriter)
    requires i < |rs|
    requires wForms != wIngredients && wForms != wRoutes && wForms != wAtc && wForms != wDuplicates && wForms != wSupply
    requires wIngredients != wRoutes && wIngredients != wAtc && wIngredients != wDuplicates && wIngredients != wSupply
    requires wRoutes != wAtc && wRoutes != wDuplicates && wRoutes != wSupply
    requires wAtc != wDuplicates && wAtc != wSupply && wDuplicates != wSupply
    requires wForms.Accepts(4) && wForms.lines == Table(rs[..i], FormRows)
    requires wIngredients.Accepts(11) && wIngredients.lines == Table(rs[..i], IngredientRowsOf)
    requires wRoutes.Accepts(2) && wRoutes.lines == Table(rs[..i], RouteRowsOf)
    requires wAtc.Accepts(2) && wAtc.lines == Table(rs[..i], AtcRowsOf)
    requires wDuplicates.Accepts(6) && wDuplicates.lines == Table(rs[..i], DuplicateRowsOf)
    requires wSupply.Accepts(3) && wSupply.lines == Table(rs[..i], SupplyRowsOf)
    modifies wForms, wIngredients, wRoutes, wAtc, wDuplicates, wSupply
    ensures wForms.Accepts(4) && wForms.lines == Table(rs[..i + 1], FormRows)
    ensures wIngredients.Accepts(11) && wIngredients.lines == Table(rs[..i + 1], IngredientRowsOf)
    ensures wRoutes.Accepts(2) && wRoutes.lines == Table(rs[..i + 1], RouteRowsOf)
    ensures wAtc.Accepts(2) && wAtc.lines == Table(rs[..i + 1], AtcRowsOf)
    ensures wDuplicates.Accepts(6) && wDuplicates.lines == Table(rs[..i + 1], DuplicateRowsOf)
    ensures wSupply.Accepts(3) && wSupply.lines == Table(rs[..i + 1], SupplyRowsOf)
  {
    WriteNested(rs[i], wForms, wIngredients, wRoutes, wAtc, wDuplicates, wSupply);
    ChildStep(rs, i, FormRows);
    ChildStep(rs, i, IngredientRowsOf);
    ChildStep(rs, i, RouteRowsOf);
    ChildStep(rs, i, AtcRowsOf);
    ChildStep(rs, i, DuplicateRowsOf);
    ChildStep(rs, i, SupplyRowsOf);
  }

  /**
   * Writes the main record through `serialize` and the nested collections
   * through `write_record`: the form (with its ingredients and routes) only
   * when present, then the ATC codes with their duplicates, then the supply
   * problems, all keyed by the national code.
   */
  method ParsePrescriptionXmlToCsvs(src: Source<RawPrescription>) returns (r: Result<Tables, ConvertError>)
    ensures r == DecomposeCsv(src)
  {
    var decoded := DecodeSource(src);
    if !decoded.Parsed? {
      return Failure(SourceError(decoded, PrescriptionContext));
    }
    var tables := WriteTables(decoded.records);
    r := Success(tables);
  }

  /** No records: seven empty tables. */
  lemma NothingDecomposed()
    ensures Decompose([]) == Tables([], [], [], [], [], [], [])
  {
    assert MapRows([], MainRow, Identity) == [];
  }

  /** The seven writers of the decomposer, one per table. */
  class TableWriters {
    const main: CsvWriter
    const forms: CsvWriter
    const ingredients: CsvWriter
    const routes: CsvWriter
    const atc: CsvWriter
    const duplicates: CsvWriter
    const supply: CsvWriter

    ghost predicate Distinct() {
      && main != forms && main != ingredients && main != routes && main != atc && main != duplicates && main != supply
      && forms != ingredients && forms != routes && forms != atc && forms != duplicates && forms != supply
      && ingredients != routes && ingredients != atc && ingredients != duplicates && ingredients != supply
      && routes != atc && routes != duplicates && routes != supply
      && atc != duplicates && atc != supply && duplicates != supply
    }

    /** What the seven files hold so far. */
    function Contents(): Tables
      reads main, forms, ingredients, routes, atc, duplicates, supply
    {
      Tables(main.lines, forms.lines, ingredients.lines, routes.lines, atc.lines, duplicates.lines, supply.lines)
    }

    /** The writers hold the decomposition of `done` and accept the next record of each table. */
    ghost predicate Holds(done: seq<Prescription>)
      reads main, forms, ingredients, routes, atc, duplicates, supply
    {
      && Distinct()
      && main.Valid() && main.headerWritten == (done != [])
      && main.width == (if done != [] then Some(|MainHeader|) else None)
      && forms.Accepts(4) && ingredients.Accepts(11) && routes.Accepts(2)
      && atc.Accepts(2) && duplicates.Accepts(6) && supply.Accepts(3)
      && main.lines == SerializedFile(MainHeader, MapRows(done, MainRow, Identity))
      && forms.lines == Table(done, FormRows)
      && ingredients.lines == Table(done, IngredientRowsOf)
      && routes.lines == Table(done, RouteRowsOf)
      && atc.lines == Table(done, AtcRowsOf)
      && duplicates.lines == Table(done, DuplicateRowsOf)
      && supply.lines == Table(done, SupplyRowsOf)
    }

    /** Holding the decomposition table by table is holding it. */
    lemma HoldsContents(done: seq<Prescription>)
      requires Holds(done)
      ensures Contents() == Decompose(done)
    {
    }

    /** Seven distinct writers that have written nothing yet. */
    ghost predicate Start()
      reads main, forms, ingredients, routes, atc, duplicates, supply
    {
      && Distinct()
      && main.Empty() && forms.Empty() && ingredients.Empty() && routes.Empty()
      && atc.Empty() && duplicates.Empty() && supply.Empty()
    }

    /** At the start the writers hold the decomposition of no records. */
    lemma StartHolds()
      requires Start()
      ensures Holds([])
    {
      NothingDecomposed();
    }

    constructor ()
      ensures Holds([])
      ensures fresh(main) && fresh(forms) && fresh(ingredients) && fresh(routes)
      ensures fresh(atc) && fresh(duplicates) && fresh(supply)
    {
      var m := new CsvWriter();
      var f := new CsvWriter();
      assert f != m;
      var g := new CsvWriter();
      assert g !in {m, f};
      var r := new CsvWriter();
      assert r !in {m, f, g};
      var a := new CsvWriter();
      assert a !in {m, f, g, r};
      var d := new CsvWriter();
      assert d !in {m, f, g, r, a};
      var s := new CsvWriter();
      assert s !in {m, f, g, r, a, d};
      main, forms, ingredients, routes, atc, duplicates, supply := m, f, g, r, a, d, s;
      new;
      StartHolds();
    }

    /** Writes record `i` to every table, after the records before it. */
    method Add(rs: seq<Prescription>, i: nat)
      requires i < |rs| && Holds(rs[..i])
      modifies main, forms, ingredients, routes, atc, duplicates, supply
      ensures Holds(rs[..i + 1])
    {
      var ok := main.Serialize(MainHeader, MainRow(rs[i]));
      MainStep(rs, i);
      WriteChildTables(rs, i, forms, ingredients, routes, atc, duplicates, supply);
      assert rs[..i + 1] != [];
    }
  }

  /** The loop over the decoded records, with the seven writers. */
  method WriteTables(rs: seq<Prescription>) returns (t: Tables)
    ensures t == Decompose(rs)
  {
    var w := new TableWriters();
    for i := 0 to |rs|
      invariant fresh(w.main) && fresh(w.forms) && fresh(w.ingredients) && fresh(w.routes)
      invariant fresh(w.atc) && fresh(w.duplicates) && fresh(w.supply)
      invariant w.Holds(rs[..i])
    {
      w.Add(rs, i);
    }
    assert rs[..|rs|] == rs;
    w.HoldsContents(rs);
    t := w.Contents();
  }
}
