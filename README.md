# Arrow CSV writer, modelled in Dafny

This project models the CSV writer of Apache Arrow's Go implementation
(`go/arrow/csv/writer.go`). A `Writer` holds an Arrow schema and a wrapped
`encoding/csv` writer. `NewWriter` checks that every field of the schema has a
primitive type (`validate`), stores the schema, and applies construction options
in order. `Write` takes one record and works in four steps:

1. It refuses a record whose schema differs from the writer's (`ErrMismatchFields`).
2. It allocates a `NumRows × NumCols` matrix of empty strings.
3. For each column, it dispatches on the schema's field type and writes the text
   of value `i` of column `j` into cell `[i][j]`.
4. It hands the matrix to `WriteAll`.

Modules:

- `Wrappers` (wrappers.dfy): `Option`, used for parse results and for Go's `error`.
- `Arrow` (arrow.dfy): field types and their integer ranges, fields, schemas,
  `Schema.Equal`, `validate` (`Supported`), typed columns and records with the
  well-formedness this model assumes (`Record.Valid`).
- `Text` (text.dfy): the `%v` text of booleans and integers. It also holds reference
  parsers in the manner of `strconv.ParseBool` and `strconv.ParseInt`, and the
  round trips between them.
- `Projection` (projection.dfy): the text of one cell (`CellText`, one branch per
  arm of the type switch), and the whole row-major buffer as a function of the
  record (`Project`). It also holds the inverse, `Unproject`, which reads the
  buffer back into columns. `RecordRoundTrip` proves that the projection moves
  and loses no value.
- `CsvWriter` (writer.dfy): writer settings and options, and the `Writer` class.
  Its constructor applies the options in a loop. `Write` builds the buffer as row
  arrays that nested loops fill in place, and proves that the buffer handed over
  equals `Project(record, ff)`.
- `Scenarios` (scenarios.dfy): concrete records and a client of `Writer`.

## Model

| member | source | states |
|---|---|---|
| `Arrow.SchemaEqual` | go/arrow/csv/writer.go:54 | The schema gate's equality, field by field, holds exactly when the two schemas have the same fields, with the same names and types, in the same order. |
| `Arrow.Supported` | go/arrow/csv/writer.go:40 | `validate` admits a schema exactly when every field type is in the closed set of twelve primitive types that the type switch has arms for. |
| `Text.FormatBool` | go/arrow/csv/writer.go:68 | `%v` of a bool is one of the literals `"true"` and `"false"`, and parsing it gives back the value. |
| `Text.FormatNat` | go/arrow/csv/writer.go:70-109 | The decimal text of a natural number has at least one character, is all digits, and starts with `0` only when the number is 0, when it is exactly `"0"`. |
| `Text.FormatInt` | go/arrow/csv/writer.go:70-109 | An integer cell is canonical decimal: no leading zeros and never `-0`. It starts with `-` exactly when the value is negative. |
| `Text.DigitsRoundTrip` | go/arrow/csv/writer.go:70-109 | Reading the digits of a natural number back gives the number. |
| `Text.IntRoundTrip` | go/arrow/csv/writer.go:70-109 | Parsing the text of any integer gives back that integer. |
| `Text.FormatIntInjective` | go/arrow/csv/writer.go:70-109 | Two integers with the same text are equal. |
| `Projection.IntOfWidthRoundTrip` | go/arrow/csv/writer.go:70-109 | For each of the eight integer types, every value in the type's range is recovered from its text by the parser of that width and signedness. |
| `Projection.CellText` | go/arrow/csv/writer.go:64-125 | The text of one value, by the arm of the type switch for its field type. A boolean cell is `"true"` or `"false"` and parses back to the value. An integer cell is canonical decimal and parses back to the value at the column's own width. A float cell is the float formatter's text. A string cell is the value verbatim. A type with no arm gives the empty string. |
| `Projection.Project` | go/arrow/csv/writer.go:58-125 | The buffer for a valid record has exactly `NumRows` rows, each with exactly `NumCols` cells. |
| `Projection.OtherTypeCellsEmpty` | go/arrow/csv/writer.go:58-125 | A column whose field type has no arm in the type switch leaves every one of its cells as the empty string it was allocated with. |
| `Projection.ColumnRoundTrip` | go/arrow/csv/writer.go:63-125 | Column `j` of the buffer, read back at field `j`'s type, is exactly column `j` of the record, with value `i` in row `i`. This holds unconditionally for booleans, all integer widths, strings and columns of unsupported types (of those, only the length is recoverable). For a float column, it needs a parser, at the field's own width, that reads back that column's values. |
| `Projection.RecordRoundTrip` | go/arrow/csv/writer.go:58-125 | Reading the buffer back with the record's schema gives the record's columns, in field order, whenever each float column's values are read back at its width. No value is lost, moved between rows or moved between columns. |
| `Projection.RecordWithoutFloatsRoundTrip` | go/arrow/csv/writer.go:58-125 | A record without float columns is recovered exactly from its buffer, with no assumption about float formatting. |
| `Projection.FloatWidthsKeptApart` | go/arrow/csv/writer.go:110-119 | A `float32` 1 and a `float64` 1 both printed as `"1"` still round-trip, because each float column is read back at its own width. |
| `CsvWriter.ApplyOptions` | go/arrow/csv/writer.go:43-45 | Options are applied in the order given: the last option acts on the result of all the earlier ones. |
| `CsvWriter.LastCommaWins` | go/arrow/csv/writer.go:43-45 | A later delimiter option overrides any delimiter set by earlier options. |
| `CsvWriter.Writer.constructor` | go/arrow/csv/writer.go:39-50 | It requires a schema that `validate` accepts. It stores that schema, which `Schema()` then returns. The settings are the `encoding/csv` defaults with the options applied in order, and nothing has been written yet. |
| `CsvWriter.Writer.Schema` | go/arrow/csv/writer.go:50 | `Schema()` returns the schema the writer was built with, which `validate` admits. |
| `CsvWriter.Writer.Write` | go/arrow/csv/writer.go:53-128 | For any record whose schema differs from the writer's, it returns `ErrMismatchFields` and hands nothing to the CSV writer. Otherwise it hands over exactly one buffer, equal to `Project(record, ff)`, and returns `WriteAll`'s error unchanged. The schema and the settings do not change. Because the writer's schema is one `validate` admitted, the type switch never meets a field type without an arm. |
| `Scenarios.IntegerAndStringRows` | go/arrow/csv/writer.go:63-125 | The record with schema `(a: int32, b: utf8)` and rows `(1, "x")`, `(-5, "y")` becomes `[["1","x"], ["-5","y"]]`. |
| `Scenarios.BooleanRows` | go/arrow/csv/writer.go:65-69 | A boolean column `[true, false]` becomes `[["true"], ["false"]]`. |
| `Scenarios.EmptyRecordRows` | go/arrow/csv/writer.go:58-61 | A record with no rows becomes an empty buffer. |
| `Scenarios.NestedTypeUnsupported` | go/arrow/csv/writer.go:37-40 | A schema with a list field is refused by `validate`, so no writer can be built on it. |
| `Scenarios.MismatchThenMatch` | go/arrow/csv/writer.go:43-56 | A writer built with `WithComma(';')` has comma `;`; writing a record whose field is Int64 against an Int32 schema returns `ErrMismatchFields` and sends nothing; writing a matching record then returns no error and sends the single row `["7"]`. |

## Left out

- The wrapped `encoding/csv` writer and the `io.Writer` are not modelled. That covers quoting, escaping, applying the delimiter, line endings, buffering and flushing (writer.go:42, 128). `Writer.sent` records each buffer handed to `WriteAll`. The parameter `ioFailure` of `Write` stands for the error `WriteAll` reports.
- Float formatting (`%v` of `float32`/`float64`, writer.go:110-119) is floating-point numerics. It is the parameter `ff` of `Write` and `Project`. The float round trip assumes a parser that reads back, at each float column's own width, the values that column holds.
- NaN payloads do not round-trip: `%v` prints every NaN as `NaN`, so a float column holding a NaN other than the one the parser returns is outside `RecordRoundTrip`'s hypothesis.
- `validate`, `Option` and `ErrMismatchFields` are defined in files that are not part of this model. `validate` is the predicate `Supported`, and a writer's schema has the subset type `ValidSchema`.
- Writer.constructor: `NewWriter` panics when `validate` fails. Here that is the precondition `Supported(schema)`, not a result.
- Options are modelled as updates of the wrapped writer's settings (`Config -> Config`), so they cannot change the schema. `WithComma` is the one concrete option.
- `Schema.Equal` is modelled as equality of field names and types. Field nullability and schema metadata are not modelled.
- Arrow arrays are plain sequences of values. Validity bitmaps, nulls and offsets are not modelled. The source reads `arr.Value(i)` without a null check.
- Writer.Write: requires `Record.Valid()` of a record whose schema matches the writer's (a mismatching record is refused whatever its columns). This is an assumption of this model rather than a guarantee of Arrow's record type: one column per field, of the field's type, each with exactly `NumRows` values. Under it the type assertions `col.(*array.X)` always succeed. Arrow's record constructor only refuses a row count larger than a column's length, so a column longer than `NumRows` is accepted; the loops at go/arrow/csv/writer.go:67-68 (and in every other arm) then index `recs[i]` past its end and panic, and a shorter column would leave cells empty. Neither case is modelled.
- The type switch's twelve copies of the fill loop are one loop. It runs for every primitive type and writes `CellText`, the per-type formatter. A type with no arm runs no loop, as in the source.
- The outer slice `recs` is a sequence of row arrays. The rows are allocated fresh and filled in place; the outer slice is not itself a mutable array.
- Integer widths are value ranges (`InRange`) on unbounded integers. No arithmetic is performed on the values, so wrap-around cannot arise.
- The type switch at writer.go:64-125 has no default arm, so a column of another type keeps the empty cells allocated at line 60 (`OtherTypeCellsEmpty`). Only `validate` at line 40 keeps such schemas out, and `Write` proves that branch unreachable for a writer's schema.
- `ParseBool`, `ParseInt`, `ParseIntOfWidth`, `ParseColumn` and `Unproject` are reference parsers used to state round trips. They are modelled after `strconv`, not taken from this source.
