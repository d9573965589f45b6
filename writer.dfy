/**
 * The CSV writer: a schema fixed at construction, the settings of the wrapped
 * `encoding/csv` writer, and `Write`, which turns one record into a row-major
 * buffer of strings and hands it to that writer.
 */
module CsvWriter {
  import Wrappers
  import opened Arrow
  import opened Projection

  /** The settings of the wrapped `encoding/csv` writer that options may change. */
  datatype Config = Config(comma: char)

  /** `encoding/csv.NewWriter`'s defaults. */
  const DefaultConfig := Config(',')

  /** A construction option: an update of the wrapped writer's settings. */
  type Option = Config -> Config

  /** The option that sets the field delimiter. */
  function WithComma(c: char): Option
  {
    (cfg: Config) => cfg.(comma := c)
  }

  /**
   * The settings after applying `opts` to `cfg`, first option first: the last option
   * acts on the result of all the earlier ones.
   */
  function ApplyOptions(cfg: Config, opts: seq<Option>): (r: Config)
    ensures opts != [] ==> r == opts[|opts| - 1](ApplyOptions(cfg, opts[..|opts| - 1]))
    decreases |opts|
  {
    if opts == [] then cfg
    else
      assert |opts| > 1 ==> opts[..|opts| - 1][1..] == opts[1..][..|opts| - 2];
      ApplyOptions(opts[0](cfg), opts[1..])
  }

  /** A later delimiter option overrides every earlier setting of the delimiter. */
  lemma LastCommaWins(cfg: Config, opts: seq<Option>, c: char)
    ensures ApplyOptions(cfg, opts + [WithComma(c)]).comma == c
  {
  }

  /** The schemas `validate` admits; a writer never holds any other. */
  type ValidSchema = s: Schema | Supported(s) witness Schema([])

  datatype Error = MismatchFields | IOError(cause: string)

  /** The cells of row arrays, read as a matrix. */
  ghost function Snapshot(recs: seq<array<string>>): seq<seq<string>>
    reads set i | 0 <= i < |recs| :: recs[i]
  {
    seq(|recs|, i requires 0 <= i < |recs| reads set k | 0 <= k < |recs| :: recs[k] => recs[i][..])
  }

  /**
   * The fill loops' progress: columns before `j`, and rows before `i` of column `j`,
   * hold their text; every other cell still holds the empty string.
   */
  ghost predicate Filled(recs: seq<array<string>>, rec: Record, ff: FloatFormatter, j: nat, i: nat)
    reads set r | 0 <= r < |recs| :: recs[r]
  {
    rec.Valid() && |recs| == rec.numRows &&
    (forall r :: 0 <= r < |recs| ==> recs[r].Length == rec.NumCols()) &&
    forall r, c {:trigger recs[r][c]} :: 0 <= r < |recs| && 0 <= c < rec.NumCols() ==>
      recs[r][c] == if c < j || (c == j && r < i)
                    then CellText(rec.schema.fields[c].fieldType, rec.columns[c], r, ff)
                    else ""
  }

  /** A column whose every row is filled is done; the next column starts at row 0. */
  lemma FilledNextColumn(recs: seq<array<string>>, rec: Record, ff: FloatFormatter, j: nat)
    requires Filled(recs, rec, ff, j, rec.numRows)
    ensures Filled(recs, rec, ff, j + 1, 0)
  {
  }

  /** Once every column is done, the row arrays hold the record's projection. */
  lemma FilledIsProjection(recs: seq<array<string>>, rec: Record, ff: FloatFormatter)
    requires Filled(recs, rec, ff, rec.NumCols(), 0)
    ensures Snapshot(recs) == Project(rec, ff)
  {
    var p := Project(rec, ff);
    forall r | 0 <= r < |recs|
      ensures recs[r][..] == p[r]
    {
    }
  }

  class Writer {
    const schema: ValidSchema
    var config: Config
    /** Every buffer handed to the wrapped writer's `WriteAll`, oldest first. */
    ghost var sent: seq<seq<seq<string>>>

    /** `NewWriter`: `validate` first (a precondition here), then each option in turn. */
    constructor (schema: Schema, opts: seq<Option>)
      requires Supported(schema)
      ensures this.schema == schema && Schema() == schema
      ensures config == ApplyOptions(DefaultConfig, opts)
      ensures sent == []
    {
      this.schema := schema;
      config := DefaultConfig;
      sent := [];
      new;
      for k := 0 to |opts|
        invariant config == ApplyOptions(DefaultConfig, opts[..k])
        invariant sent == []
      {
        assert opts[..k + 1][..k] == opts[..k];
        config := opts[k](config);
      }
      assert opts[..|opts|] == opts;
    }

    /** `Schema()`: the schema fixed at construction, one that `validate` admits. */
    function Schema(): (s: Schema)
      ensures s == schema && Supported(s)
    {
      schema
    }

    /**
     * Writes one record. A record whose schema differs from the writer's is refused
     * and nothing reaches the wrapped writer; otherwise the buffer handed to it holds
     * the record's projection, and its error, if any, is returned unchanged.
     * `ioFailure` stands for the outcome of `WriteAll`.
     */
    method Write(record: Record, ff: FloatFormatter, ioFailure: Wrappers.Option<string>) returns (err: Wrappers.Option<Error>)
      requires record.schema == schema ==> record.Valid()
      modifies this`sent
      ensures record.schema != schema ==> err == Wrappers.Some(MismatchFields) && sent == old(sent)
      ensures record.schema == schema ==>
        sent == old(sent) + [Project(record, ff)] &&
        err == ioFailure.Map(cause => IOError(cause))
    {
      if !SchemaEqual(record.schema, schema) {
        return Wrappers.Some(MismatchFields);
      }
      assert record.schema == schema;
      assert record.Valid();

      var n, m := record.numRows, record.NumCols();
      var recs: seq<array<string>> := [];
      for i := 0 to n
        invariant |recs| == i
        invariant forall r :: 0 <= r < i ==> fresh(recs[r]) && recs[r].Length == m
        invariant forall r, c :: 0 <= r < i && 0 <= c < m ==> recs[r][c] == ""
        invariant forall r, s :: 0 <= r < s < i ==> recs[r] != recs[s]
        invariant sent == old(sent)
      {
        var row := new string[m](_ => "");
        recs := recs + [row];
      }
      assert Filled(recs, record, ff, 0, 0);

      for j := 0 to m
        invariant Filled(recs, record, ff, j, 0)
        invariant forall r :: 0 <= r < n ==> fresh(recs[r])
        invariant sent == old(sent)
      {
        var ft := schema.fields[j].fieldType;
        var col := record.columns[j];
        // the type switch: every primitive type has an arm that fills the column
        // with the text of its values; a type with no arm cannot occur, because
        // the writer's schema is one `validate` admitted
        if ft.OtherType? {
          assert false;
        } else {
          var i := 0;
          while i < Len(col)
            invariant 0 <= i <= n
            invariant Filled(recs, record, ff, j, i)
            invariant sent == old(sent)
          {
            recs[i][j] := CellText(ft, col, i, ff);
            i := i + 1;
          }
          FilledNextColumn(recs, record, ff, j);
        }
      }

      FilledIsProjection(recs, record, ff);
      ghost var buffer := Snapshot(recs);
      sent := sent + [buffer];
      err := ioFailure.Map(cause => IOError(cause));
    }
  }
}
