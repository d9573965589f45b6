/**
 * The parts of the Arrow type system and array layer that the CSV writer consumes:
 * field types, schemas and their equality, typed columns and records, and the
 * `validate` check that admits only primitive field types.
 */
module Arrow {

  /** The field types the writer distinguishes; every other Arrow type is `OtherType`. */
  datatype FieldType =
    | Boolean
    | Int8 | Int16 | Int32 | Int64
    | Uint8 | Uint16 | Uint32 | Uint64
    | Float32 | Float64
    | Utf8
    | OtherType(name: string)

  predicate IsSignedInteger(t: FieldType)
  {
    t.Int8? || t.Int16? || t.Int32? || t.Int64?
  }

  predicate IsUnsignedInteger(t: FieldType)
  {
    t.Uint8? || t.Uint16? || t.Uint32? || t.Uint64?
  }

  predicate IsInteger(t: FieldType)
  {
    IsSignedInteger(t) || IsUnsignedInteger(t)
  }

  /** The values an integer type of the given width and signedness can hold. */
  predicate InRange(t: FieldType, v: int)
  {
    match t
    case Int8 => -0x80 <= v < 0x80
    case Int16 => -0x8000 <= v < 0x8000
    case Int32 => -0x8000_0000 <= v < 0x8000_0000
    case Int64 => -0x8000_0000_0000_0000 <= v < 0x8000_0000_0000_0000
    case Uint8 => 0 <= v < 0x100
    case Uint16 => 0 <= v < 0x1_0000
    case Uint32 => 0 <= v < 0x1_0000_0000
    case Uint64 => 0 <= v < 0x1_0000_0000_0000_0000
    case _ => false
  }

  /** One of the types the writer's type switch has an arm for. */
  predicate IsPrimitive(t: FieldType)
  {
    !t.OtherType?
  }

  datatype Field = Field(name: string, fieldType: FieldType)

  datatype Schema = Schema(fields: seq<Field>)

  /** Field equality as the writer's schema gate uses it: same name, same type. */
  predicate FieldEqual(a: Field, b: Field)
  {
    a.name == b.name && a.fieldType == b.fieldType
  }

  /**
   * `Schema.Equal`: same number of fields, and field `k` of one equals field `k` of
   * the other; that is exactly structural equality of the field sequences.
   */
  function SchemaEqual(a: Schema, b: Schema): (eq: bool)
    ensures eq <==> a == b
  {
    |a.fields| == |b.fields| &&
    forall k :: 0 <= k < |a.fields| ==> FieldEqual(a.fields[k], b.fields[k])
  }

  /** The closed set of types the writer's type switch has an arm for. */
  const PrimitiveTypes: set<FieldType> :=
    {Boolean, Int8, Int16, Int32, Int64, Uint8, Uint16, Uint32, Uint64, Float32, Float64, Utf8}

  /** What `validate` admits: every field has one of the primitive types. */
  function Supported(s: Schema): (ok: bool)
    ensures ok <==> forall k :: 0 <= k < |s.fields| ==> s.fields[k].fieldType in PrimitiveTypes
  {
    forall k :: 0 <= k < |s.fields| ==> IsPrimitive(s.fields[k].fieldType)
  }

  /** An IEEE 754 value, kept as its bit pattern; the writer never computes with it. */
  datatype Float = F32(bits32: bv32) | F64(bits64: bv64)

  /** A column as a plain sequence of values; validity bitmaps and offsets are not modelled. */
  datatype Column =
    | BooleanColumn(bools: seq<bool>)
    | IntegerColumn(ints: seq<int>)
    | FloatColumn(floats: seq<Float>)
    | StringColumn(strings: seq<string>)
    | OtherColumn(length: nat)

  function Len(c: Column): nat
  {
    match c
    case BooleanColumn(bs) => |bs|
    case IntegerColumn(vs) => |vs|
    case FloatColumn(fs) => |fs|
    case StringColumn(ss) => |ss|
    case OtherColumn(n) => n
  }

  /** A column is an array of the field type: the right variant, integers within the width. */
  predicate Conforms(c: Column, t: FieldType)
  {
    if t.Boolean? then c.BooleanColumn?
    else if IsInteger(t) then c.IntegerColumn? && forall k :: 0 <= k < |c.ints| ==> InRange(t, c.ints[k])
    else if t.Float32? then c.FloatColumn? && forall k :: 0 <= k < |c.floats| ==> c.floats[k].F32?
    else if t.Float64? then c.FloatColumn? && forall k :: 0 <= k < |c.floats| ==> c.floats[k].F64?
    else if t.Utf8? then c.StringColumn?
    else c.OtherColumn?
  }

  /** A record: a schema, one column per field and a row count. */
  datatype Record = Record(schema: Schema, columns: seq<Column>, numRows: nat) {

    function NumCols(): nat
    {
      |columns|
    }

    /** The well-formedness this model assumes of a record: one conforming column of exactly `numRows` values per field. */
    predicate Valid()
    {
      |columns| == |schema.fields| &&
      forall j :: 0 <= j < |columns| ==>
        Conforms(columns[j], schema.fields[j].fieldType) && Len(columns[j]) == numRows
    }
  }
}
