/**
 * The part of the CSV writer the converters rely on: records are appended in
 * order, `serialize` emits the header record lazily with the first serialised
 * record, `write_record` never emits a header, and a writer that is not
 * flexible rejects a record whose field count differs from the first record's.
 * Quoting and byte encoding are not modelled: a file is its sequence of records.
 */
module Csv {
  import opened Wrappers

  /** One CSV record: its fields in column order. */
  type Row = seq<string>

  /** Every record of `lines` has exactly `width` fields. */
  predicate Uniform(lines: seq<Row>, width: nat) {
    forall k :: 0 <= k < |lines| ==> |lines[k]| == width
  }

  /**
   * The content of a file written only through `serialize`: nothing at all for
   * no records, otherwise the header record followed by one record per row.
   */
  function SerializedFile(header: Row, rows: seq<Row>): (lines: seq<Row>)
    ensures rows == [] ==> lines == []
    ensures rows != [] ==> |lines| == |rows| + 1 && lines[0] == header
    ensures forall k :: 0 <= k < |rows| ==> lines[k + 1] == rows[k]
  {
    if rows == [] then [] else [header] + rows
  }

  /** Appending rows in two steps is appending their concatenation. */
  lemma AppendAssoc(a: seq<Row>, b: seq<Row>, c: seq<Row>)
    ensures (a + b) + c == a + (b + c)
  {
  }

  /** Appending one serialised row to a serialised file. */
  lemma SerializedFileSnoc(header: Row, rows: seq<Row>, row: Row)
    ensures SerializedFile(header, rows + [row])
         == (if rows == [] then [header] else SerializedFile(header, rows)) + [row]
  {
  }

  /** One more row serialised after the file of `rows`: the file of the rows and that one. */
  lemma WrittenStep(header: Row, rows: seq<Row>, row: Row, before: seq<Row>, after: seq<Row>)
    requires before == SerializedFile(header, rows)
    requires after == before + (if rows != [] then [] else [header]) + [row]
    ensures after == SerializedFile(header, rows + [row])
  {
    SerializedFileSnoc(header, rows, row);
  }

  /** A writer of the csv crate (not flexible, headers on): the records written so far, in order. */
  class CsvWriter {
    var lines: seq<Row>
    var headerWritten: bool
    /** Field count of the first record written, once there is one. */
    var width: Option<nat>

    ghost predicate Valid()
      reads this
    {
      && (width.None? <==> lines == [])
      && (width.Some? ==> |lines[0]| == width.value)
    }

    /** Valid, and a record of `n` fields would be accepted: nothing written yet, or `n` is the width. */
    ghost predicate Accepts(n: nat)
      reads this
    {
      Valid() && (width.None? || width == Some(n))
    }

    /** Nothing written yet. */
    ghost predicate Empty()
      reads this
    {
      Valid() && lines == [] && !headerWritten && width == None
    }

    constructor ()
      ensures Empty()
    {
      lines := [];
      headerWritten := false;
      width := None;
    }

    /** `write_record`: appends `row`, or fails when its field count differs from the first record's. */
    method WriteRecord(row: Row) returns (ok: bool)
      requires Valid()
      modifies this
      ensures Valid() && headerWritten == old(headerWritten)
      ensures ok <==> old(width).None? || |row| == old(width).value
      ensures ok ==> lines == old(lines) + [row] && width == Some(|lines[0]|)
      ensures !ok ==> lines == old(lines) && width == old(width)
    {
      if width.Some? && |row| != width.value {
        return false;
      }
      if width.None? {
        width := Some(|row|);
      }
      lines := lines + [row];
      ok := true;
    }

    /**
     * `serialize` of one struct: the header record (its field names) first if none
     * was written yet, then `row`. Header and row come from the same struct type,
     * so they have the same field count and the field-count check cannot fail.
     */
    method Serialize(header: Row, row: Row) returns (ok: bool)
      requires Valid()
      requires |row| == |header|
      requires headerWritten ==> width == Some(|header|)
      requires !headerWritten ==> width.None?
      modifies this
      ensures Valid() && headerWritten && ok && width == Some(|header|)
      ensures lines == old(lines) + (if old(headerWritten) then [] else [header]) + [row]
    {
      if !headerWritten {
        ok := WriteRecord(header);
        headerWritten := true;
      }
      ok := WriteRecord(row);
    }
  }
}
