/** Concrete records and writers, worked through the model. */
module Scenarios {
  import Wrappers
  import opened Arrow
  import opened Text
  import opened Projection
  import opened CsvWriter

  /** Integers and strings: rows in record order, cells in field order, '-' only on the negative value. */
  lemma IntegerAndStringRows(ff: FloatFormatter)
    ensures
      var rec := Record(Schema([Field("a", Int32), Field("b", Utf8)]),
                        [IntegerColumn([1, -5]), StringColumn(["x", "y"])], 2);
      rec.Valid() && Project(rec, ff) == [["1", "x"], ["-5", "y"]]
  {
    var rec := Record(Schema([Field("a", Int32), Field("b", Utf8)]),
                      [IntegerColumn([1, -5]), StringColumn(["x", "y"])], 2);
    assert FormatInt(1) == "1";
    assert FormatInt(-5) == "-" + FormatNat(5) == "-5";
    assert Project(rec, ff)[0] == ["1", "x"];
    assert Project(rec, ff)[1] == ["-5", "y"];
  }

  /** Booleans come out as the lower-case literals. */
  lemma BooleanRows(ff: FloatFormatter)
    ensures
      var rec := Record(Schema([Field("flag", Boolean)]), [BooleanColumn([true, false])], 2);
      rec.Valid() && Project(rec, ff) == [["true"], ["false"]]
  {
    var rec := Record(Schema([Field("flag", Boolean)]), [BooleanColumn([true, false])], 2);
    assert Project(rec, ff)[0] == ["true"];
    assert Project(rec, ff)[1] == ["false"];
  }

  /** A record with no rows becomes an empty buffer. */
  lemma EmptyRecordRows(ff: FloatFormatter)
    ensures
      var rec := Record(Schema([Field("a", Int64)]), [IntegerColumn([])], 0);
      rec.Valid() && Project(rec, ff) == []
  {
  }

  /** `validate` refuses a schema with a nested type, so no writer can be built on it. */
  lemma NestedTypeUnsupported()
    ensures !Supported(Schema([Field("a", Int32), Field("l", OtherType("list<int32>"))]))
  {
    var s := Schema([Field("a", Int32), Field("l", OtherType("list<int32>"))]);
    assert !IsPrimitive(s.fields[1].fieldType);
  }

  /** A writer refuses a record whose field has another width, and accepts a matching one. */
  method MismatchThenMatch(ff: FloatFormatter)
    returns (comma: char, refused: Wrappers.Option<Error>, accepted: Wrappers.Option<Error>,
             ghost sentAfterRefusal: seq<seq<seq<string>>>, ghost sentAfterAcceptance: seq<seq<seq<string>>>)
    ensures comma == ';'
    ensures refused == Wrappers.Some(MismatchFields) && sentAfterRefusal == []
    ensures accepted == Wrappers.None && sentAfterAcceptance == [[["7"]]]
  {
    var w := new Writer(Schema([Field("a", Int32)]), [WithComma(';')]);
    assert w.config.comma == ';' by {
      LastCommaWins(DefaultConfig, [], ';');
      assert [] + [WithComma(';')] == [WithComma(';')];
    }

    var wide := Record(Schema([Field("a", Int64)]), [IntegerColumn([7])], 1);
    refused := w.Write(wide, ff, Wrappers.None);
    sentAfterRefusal := w.sent;

    var narrow := Record(Schema([Field("a", Int32)]), [IntegerColumn([7])], 1);
    accepted := w.Write(narrow, ff, Wrappers.None);
    assert FormatInt(7) == "7";
    assert Project(narrow, ff)[0] == ["7"];
    assert Project(narrow, ff) == [["7"]];
    sentAfterAcceptance := w.sent;
    comma := w.config.comma;
    assert w.Schema() == Schema([Field("a", Int32)]);
  }
}
