/**
 * The writer's column-to-row projection as a specification: the text of one cell,
 * the whole row-major matrix a record becomes, and its inverse, which parses the
 * matrix back into columns and shows that no value is lost or moved.
 */
module Projection {
  import opened Wrappers
  import opened Arrow
  import opened Text

  /** Go's `%v` formatting of a float, which this model does not interpret. */
  type FloatFormatter = Float -> string

  /** A float parser for the given field type, in the manner of `strconv.ParseFloat` with its bit size. */
  type FloatParser = (FieldType, string) -> Option<Float>

  /**
   * The float values of a column of type `t` are read back by `pf` at that type from
   * their text. Vacuous for a column of any other type.
   */
  predicate FloatsRecoverable(t: FieldType, col: Column, ff: FloatFormatter, pf: FloatParser)
  {
    (t.Float32? || t.Float64?) && col.FloatColumn? ==>
      forall k :: 0 <= k < |col.floats| ==> pf(t, ff(col.floats[k])) == Some(col.floats[k])
  }

  /**
   * The text of value `i` of a column whose field type is `t`: one arm per case of
   * the writer's type switch. A type with no arm leaves the cell as the empty
   * string it was allocated with.
   */
  function CellText(t: FieldType, col: Column, i: nat, ff: FloatFormatter): (r: string)
    requires Conforms(col, t) && i < Len(col)
    ensures t.Boolean? ==> (r == "true" || r == "false") && ParseBool(r) == Some(col.bools[i])
    ensures IsInteger(t) ==> CanonicalDecimal(r) && ParseIntOfWidth(t, r) == Some(col.ints[i])
    ensures t.Float32? || t.Float64? ==> r == ff(col.floats[i])
    ensures t.Utf8? ==> r == col.strings[i]
    ensures t.OtherType? ==> r == ""
  {
    if t.Boolean? then FormatBool(col.bools[i])
    else if IsInteger(t) then
      var v := col.ints[i];
      IntOfWidthRoundTrip(t, v);
      FormatInt(v)
    else if t.Float32? || t.Float64? then ff(col.floats[i])
    else if t.Utf8? then col.strings[i]
    else ""
  }

  /**
   * The buffer a valid record becomes: `numRows` rows of `NumCols()` cells, cell `j`
   * of row `i` being the text of value `i` of column `j`.
   */
  function Project(rec: Record, ff: FloatFormatter): (rows: seq<seq<string>>)
    requires rec.Valid()
    ensures |rows| == rec.numRows
    ensures forall i :: 0 <= i < |rows| ==> |rows[i]| == rec.NumCols()
  {
    seq(rec.numRows, i requires 0 <= i < rec.numRows =>
      seq(rec.NumCols(), j requires 0 <= j < rec.NumCols() =>
        CellText(rec.schema.fields[j].fieldType, rec.columns[j], i, ff)))
  }

  /** A column whose type has no arm in the type switch comes out as empty cells. */
  lemma OtherTypeCellsEmpty(rec: Record, ff: FloatFormatter, i: nat, j: nat)
    requires rec.Valid() && i < rec.numRows && j < rec.NumCols()
    requires rec.schema.fields[j].fieldType.OtherType?
    ensures Project(rec, ff)[i][j] == ""
  {
  }

  /** `strconv.ParseInt` / `strconv.ParseUint` with the bit size of `t`. */
  function ParseIntOfWidth(t: FieldType, s: string): (r: Option<int>)
    ensures r.Some? ==> InRange(t, r.value)
  {
    if IsUnsignedInteger(t) && |s| > 0 && (s[0] == '-' || s[0] == '+') then None
    else
      match ParseInt(s)
      case Some(v) => if InRange(t, v) then Some(v) else None
      case None => None
  }

  /** Every value of an integer type is recovered from its text by the parser of that type. */
  lemma IntOfWidthRoundTrip(t: FieldType, v: int)
    requires InRange(t, v)
    ensures ParseIntOfWidth(t, FormatInt(v)) == Some(v)
  {
    IntRoundTrip(v);
    var s := FormatInt(v);
    if IsUnsignedInteger(t) {
      assert v >= 0;
      assert AllDigits(s) by {
        assert s == FormatNat(v);
      }
      assert IsDigit(s[0]);
    }
  }

  /** Cell `j` of every row, parsed with `parse`; None if any cell fails to parse. */
  function ParseCells<T>(rows: seq<seq<string>>, j: nat, parse: string -> Option<T>): (r: Option<seq<T>>)
    requires forall i :: 0 <= i < |rows| ==> j < |rows[i]|
    ensures r.Some? ==> |r.value| == |rows|
  {
    if |rows| == 0 then Some([])
    else
      match parse(rows[0][j])
      case None => None
      case Some(v) =>
        match ParseCells(rows[1..], j, parse)
        case None => None
        case Some(vs) => Some([v] + vs)
  }

  lemma {:induction false} ParseCellsInverts<T>(rows: seq<seq<string>>, j: nat, parse: string -> Option<T>, vals: seq<T>)
    requires forall i :: 0 <= i < |rows| ==> j < |rows[i]|
    requires |vals| == |rows|
    requires forall i :: 0 <= i < |rows| ==> parse(rows[i][j]) == Some(vals[i])
    ensures ParseCells(rows, j, parse) == Some(vals)
  {
    if |rows| > 0 {
      assert parse(rows[0][j]) == Some(vals[0]);
      forall i | 0 <= i < |rows| - 1
        ensures parse(rows[1..][i][j]) == Some(vals[1..][i])
      {
        assert rows[1..][i] == rows[i + 1];
      }
      ParseCellsInverts(rows[1..], j, parse, vals[1..]);
      assert vals == [vals[0]] + vals[1..];
    }
  }

  /** Column `j` of a row-major matrix read back as a column of type `t`. */
  function ParseColumn(t: FieldType, rows: seq<seq<string>>, j: nat, pf: FloatParser): Option<Column>
    requires forall i :: 0 <= i < |rows| ==> j < |rows[i]|
  {
    if t.Boolean? then ParseCells(rows, j, ParseBool).Map(bs => BooleanColumn(bs))
    else if IsInteger(t) then ParseCells(rows, j, s => ParseIntOfWidth(t, s)).Map(vs => IntegerColumn(vs))
    else if t.Float32? || t.Float64? then ParseCells(rows, j, s => pf(t, s)).Map(fs => FloatColumn(fs))
    else if t.Utf8? then ParseCells(rows, j, (s: string) => Some(s)).Map(ss => StringColumn(ss))
    else Some(OtherColumn(|rows|))
  }

  /** The columns of a schema read back from a row-major matrix; None if any row or cell is malformed. */
  function Unproject(schema: Schema, rows: seq<seq<string>>, pf: FloatParser): (r: Option<seq<Column>>)
    ensures r.Some? ==> |r.value| == |schema.fields|
  {
    if (forall i :: 0 <= i < |rows| ==> |rows[i]| == |schema.fields|) &&
       (forall j :: 0 <= j < |schema.fields| ==> ParseColumn(schema.fields[j].fieldType, rows, j, pf).Some?)
    then Some(seq(|schema.fields|, j requires 0 <= j < |schema.fields| =>
      ParseColumn(schema.fields[j].fieldType, rows, j, pf).value))
    else None
  }

  /**
   * Column `j` of the projected buffer holds exactly column `j` of the record, value `i`
   * in row `i`. For a float column, this needs a parser that reads its values back.
   */
  lemma ColumnRoundTrip(rec: Record, ff: FloatFormatter, pf: FloatParser, j: nat)
    requires rec.Valid() && j < rec.NumCols()
    requires FloatsRecoverable(rec.schema.fields[j].fieldType, rec.columns[j], ff, pf)
    ensures ParseColumn(rec.schema.fields[j].fieldType, Project(rec, ff), j, pf) == Some(rec.columns[j])
  {
    var rows := Project(rec, ff);
    var t := rec.schema.fields[j].fieldType;
    var col := rec.columns[j];
    assert Conforms(col, t) && Len(col) == |rows|;
    assert forall i :: 0 <= i < |rows| ==> rows[i][j] == CellText(t, col, i, ff);
    if t.Boolean? {
      ParseCellsInverts(rows, j, ParseBool, col.bools);
    } else if IsInteger(t) {
      ParseCellsInverts(rows, j, s => ParseIntOfWidth(t, s), col.ints);
    } else if t.Float32? || t.Float64? {
      ParseCellsInverts(rows, j, s => pf(t, s), col.floats);
    } else if t.Utf8? {
      ParseCellsInverts(rows, j, (s: string) => Some(s), col.strings);
    }
  }

  /**
   * Projection loses nothing: reading the buffer back with the record's schema gives
   * the record's columns, in schema order, whenever the float columns can be read back.
   */
  lemma RecordRoundTrip(rec: Record, ff: FloatFormatter, pf: FloatParser)
    requires rec.Valid()
    requires forall j :: 0 <= j < rec.NumCols() ==>
      FloatsRecoverable(rec.schema.fields[j].fieldType, rec.columns[j], ff, pf)
    ensures Unproject(rec.schema, Project(rec, ff), pf) == Some(rec.columns)
  {
    var rows := Project(rec, ff);
    var fields := rec.schema.fields;
    forall j | 0 <= j < |fields|
      ensures ParseColumn(fields[j].fieldType, rows, j, pf) == Some(rec.columns[j])
    {
      ColumnRoundTrip(rec, ff, pf, j);
    }
    var r := Unproject(rec.schema, rows, pf);
    assert r.Some?;
    assert r.value == rec.columns;
  }

  /**
   * A record without float columns is recovered from its buffer whatever the float
   * formatter and parser are.
   */
  lemma RecordWithoutFloatsRoundTrip(rec: Record, ff: FloatFormatter, pf: FloatParser)
    requires rec.Valid()
    requires forall j :: 0 <= j < rec.NumCols() ==>
      !rec.schema.fields[j].fieldType.Float32? && !rec.schema.fields[j].fieldType.Float64?
    ensures Unproject(rec.schema, Project(rec, ff), pf) == Some(rec.columns)
  {
    RecordRoundTrip(rec, ff, pf);
  }

  /**
   * The float parser is asked only for the width of each column: a formatter that
   * prints a `float32` and a `float64` alike still lets both columns round-trip.
   */
  lemma FloatWidthsKeptApart(ff: FloatFormatter, pf: FloatParser)
    requires ff(F32(0x3f80_0000)) == "1" && ff(F64(0x3ff0_0000_0000_0000)) == "1"
    requires pf(Float32, "1") == Some(F32(0x3f80_0000)) && pf(Float64, "1") == Some(F64(0x3ff0_0000_0000_0000))
    ensures
      var rec := Record(Schema([Field("s", Float32), Field("d", Float64)]),
                        [FloatColumn([F32(0x3f80_0000)]), FloatColumn([F64(0x3ff0_0000_0000_0000)])], 1);
      rec.Valid() && Unproject(rec.schema, Project(rec, ff), pf) == Some(rec.columns)
  {
    var rec := Record(Schema([Field("s", Float32), Field("d", Float64)]),
                      [FloatColumn([F32(0x3f80_0000)]), FloatColumn([F64(0x3ff0_0000_0000_0000)])], 1);
    assert rec.Valid();
    assert FloatsRecoverable(Float32, rec.columns[0], ff, pf);
    assert FloatsRecoverable(Float64, rec.columns[1], ff, pf);
    RecordRoundTrip(rec, ff, pf);
  }
}
