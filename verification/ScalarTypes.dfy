/** The types of scalar values as messages: primitive types, and lists of them nested to any depth, which are
    flattened into a list of field names and the innermost type. */
module ScalarTypes {
  import opened Plans
  import opened ArrowTypes

  datatype PrimitiveScalarType =
    | BoolType
    | Uint8Type | Int8Type | Uint16Type | Int16Type | Uint32Type | Int32Type | Uint64Type | Int64Type
    | Float32Type | Float64Type
    | Utf8Type | LargeUtf8Type
    | Date32Type | TimeMicrosecondType | TimeNanosecondType
    | NullType

  function ToI32(p: PrimitiveScalarType): int {
    match p
    case BoolType => 0
    case Uint8Type => 1
    case Int8Type => 2
    case Uint16Type => 3
    case Int16Type => 4
    case Uint32Type => 5
    case Int32Type => 6
    case Uint64Type => 7
    case Int64Type => 8
    case Float32Type => 9
    case Float64Type => 10
    case Utf8Type => 11
    case LargeUtf8Type => 12
    case Date32Type => 13
    case TimeMicrosecondType => 14
    case TimeNanosecondType => 15
    case NullType => 16
  }

  function FromI32(n: int): Option<PrimitiveScalarType> {
    match n
    case 0 => Some(BoolType)
    case 1 => Some(Uint8Type)
    case 2 => Some(Int8Type)
    case 3 => Some(Uint16Type)
    case 4 => Some(Int16Type)
    case 5 => Some(Uint32Type)
    case 6 => Some(Int32Type)
    case 7 => Some(Uint64Type)
    case 8 => Some(Int64Type)
    case 9 => Some(Float32Type)
    case 10 => Some(Float64Type)
    case 11 => Some(Utf8Type)
    case 12 => Some(LargeUtf8Type)
    case 13 => Some(Date32Type)
    case 14 => Some(TimeMicrosecondType)
    case 15 => Some(TimeNanosecondType)
    case 16 => Some(NullType)
    case _ => None
  }

  /** `scalar_type::Datatype`. */
  datatype ScalarDatatype = Scalar(number: int) | ListOf(fieldNames: seq<string>, deepestType: int)

  // ---- Encoding ----

  /** The primitive type of a type that is no list. */
  function LeafType(t: DataType): Option<PrimitiveScalarType> {
    match t
    case Boolean => Some(BoolType)
    case Int8 => Some(Int8Type)
    case Int16 => Some(Int16Type)
    case Int32 => Some(Int32Type)
    case Int64 => Some(Int64Type)
    case UInt8 => Some(Uint8Type)
    case UInt16 => Some(Uint16Type)
    case UInt32 => Some(Uint32Type)
    case UInt64 => Some(Uint64Type)
    case Float32 => Some(Float32Type)
    case Float64 => Some(Float64Type)
    case Date32 => Some(Date32Type)
    case Time64(u) =>
      if u.Microsecond? then Some(TimeMicrosecondType)
      else if u.Nanosecond? then Some(TimeNanosecondType)
      else None
    case Utf8 => Some(Utf8Type)
    case LargeUtf8 => Some(LargeUtf8Type)
    case _ => None
  }

  predicate IsValidScalarTypeNoListCheck(t: DataType) {
    match t
    case Boolean => true
    case Int8 => true
    case Int16 => true
    case Int32 => true
    case Int64 => true
    case UInt8 => true
    case UInt16 => true
    case UInt32 => true
    case UInt64 => true
    case Float32 => true
    case Float64 => true
    case LargeUtf8 => true
    case Utf8 => true
    case Date32 => true
    case Time64(u) => u.Microsecond? || u.Nanosecond?
    case List(_) => true
    case _ => false
  }

  /** The field names of nested lists, outermost first. */
  function Names(f: Field): seq<string>
    decreases f, 0
  {
    [f.name] + NamesBelow(f.dataType)
  }

  function NamesBelow(t: DataType): seq<string>
    decreases t, 0
  {
    if t.List? then Names(t.item) else []
  }

  /** The type inside all nested lists. */
  function Deepest(t: DataType): DataType {
    if t.List? then Deepest(t.item.dataType) else t
  }

  function EncodeScalarType(t: DataType): Option<ScalarDatatype> {
    var leaf := LeafType(Deepest(t));
    if leaf.None? then None
    else if t.List? then Some(ListOf(Names(t.item), ToI32(leaf.value)))
    else Some(Scalar(ToI32(leaf.value)))
  }

  /** The loop that flattens nested lists. */
  method FlattenList(fieldType: Field) returns (r: Option<ScalarDatatype>)
    ensures r == EncodeScalarType(List(fieldType))
    ensures r.Some? <==> ValidScalarType(List(fieldType))
    ensures r.Some? ==> DecodeScalarType(r.value) == Some(AllNullable(List(fieldType)))
  {
    hide PrimitiveScalar, AllNullable, DecodeScalarType;
    EncodesExactly(List(fieldType));
    if ValidScalarType(List(fieldType)) {
      ScalarTypeRoundTrip(List(fieldType));
    }
    var currField := fieldType;
    var fieldNames := [currField.name];
    while currField.dataType.List?
      invariant fieldNames + NamesBelow(currField.dataType) == Names(fieldType)
      invariant Deepest(currField.dataType) == Deepest(List(fieldType))
      decreases currField
    {
      currField := currField.dataType.item;
      fieldNames := fieldNames + [currField.name];
      if !IsValidScalarTypeNoListCheck(currField.dataType) {
        return None;
      }
    }
    if !IsValidScalarTypeNoListCheck(currField.dataType) {
      return None;
    }
    var deepest := LeafType(currField.dataType);
    if deepest.None? {
      return None;
    }
    assert fieldNames + [] == fieldNames;
    r := Some(ListOf(fieldNames, ToI32(deepest.value)));
  }

  // ---- Decoding ----

  function PrimitiveType(p: PrimitiveScalarType): DataType {
    match p
    case BoolType => Boolean
    case Uint8Type => UInt8
    case Int8Type => Int8
    case Uint16Type => UInt16
    case Int16Type => Int16
    case Uint32Type => UInt32
    case Int32Type => Int32
    case Uint64Type => UInt64
    case Int64Type => Int64
    case Float32Type => Float32
    case Float64Type => Float64
    case Utf8Type => Utf8
    case LargeUtf8Type => LargeUtf8
    case Date32Type => Date32
    case TimeMicrosecondType => Time64(Microsecond)
    case TimeNanosecondType => Time64(Nanosecond)
    case NullType => Null
  }

  /** Lists nested under the names, outermost first, all nullable. */
  function Nested(names: seq<string>, leaf: DataType): DataType {
    if names == [] then leaf else List(Field(names[0], Nested(names[1..], leaf), true))
  }

  function DecodeScalarType(d: ScalarDatatype): Option<DataType> {
    match d
    case Scalar(n) => (var p := FromI32(n); if p.Some? then Some(PrimitiveType(p.value)) else None)
    case ListOf(names, n) =>
      (var p := FromI32(n); if names != [] && p.Some? then Some(Nested(names, PrimitiveType(p.value))) else None)
  }

  /** The decoder of `&scalar_type::Datatype`, with its reversed loop. */
  method DecodeDatatype(d: ScalarDatatype) returns (r: Option<DataType>)
    ensures r == DecodeScalarType(d)
  {
    match d
    case Scalar(n) =>
      var p := FromI32(n);
      if p.None? {
        return None;
      }
      r := Some(PrimitiveType(p.value));
    case ListOf(names, n) =>
      if names == [] {
        return None;
      }
      var p := FromI32(n);
      if p.None? {
        return None;
      }
      var leaf := PrimitiveType(p.value);
      var scalarType := List(Field(names[|names| - 1], leaf, true));
      assert Nested(names[|names| - 1..], leaf) == scalarType by {
        assert names[|names| - 1..][1..] == [];
      }
      for i := |names| - 1 downto 0
        invariant scalarType == Nested(names[i..], leaf)
      {
        scalarType := List(Field(names[i], scalarType, true));
        assert names[i..][1..] == names[i + 1..];
      }
      r := Some(scalarType);
  }

  /** The decoder of `&ScalarListType`, with a loop of its own. */
  method DecodeScalarListType(names: seq<string>, deepestType: int) returns (r: Option<DataType>)
    ensures r == DecodeScalarType(ListOf(names, deepestType))
  {
    var depth := |names|;
    if depth == 0 {
      return None;
    }
    var p := FromI32(deepestType);
    if p.None? {
      return None;
    }
    ghost var leaf := PrimitiveType(p.value);
    var currType := List(Field(names[depth - 1], PrimitiveType(p.value), true));
    assert Nested(names[depth - 1..], leaf) == currType by {
      assert names[depth - 1..][1..] == [];
    }
    var k := 1;
    while k < depth
      invariant 1 <= k <= depth && currType == Nested(names[depth - k..], leaf)
    {
      var name := names[depth - 1 - k];
      currType := List(Field(name, currType, true));
      assert names[depth - 1 - k..][1..] == names[depth - k..];
      k := k + 1;
    }
    r := Some(currType);
  }

  // ---- What can be decoded ----

  /** The number is a known one, and a list has a field name for each level, one at least. */
  predicate WellFormedDatatype(d: ScalarDatatype) {
    match d
    case Scalar(n) => 0 <= n <= 16
    case ListOf(names, n) => names != [] && 0 <= n <= 16
  }

  lemma ScalarTypeDecodesExactly(d: ScalarDatatype)
    ensures DecodeScalarType(d).Some? <==> WellFormedDatatype(d)
  {
    hide PrimitiveType, Nested;
  }

  // ---- Round trip ----

  /** The types of scalars that are no lists. */
  predicate PrimitiveScalar(t: DataType) {
    t in {Boolean, Int8, Int16, Int32, Int64, UInt8, UInt16, UInt32, UInt64, Float32, Float64, Utf8, LargeUtf8, Date32,
          Time64(Microsecond), Time64(Nanosecond)}
  }

  /** Types that scalars can have: the primitive ones, and lists of such types. */
  predicate ValidScalarType(t: DataType) {
    if t.List? then ValidScalarType(t.item.dataType) else PrimitiveScalar(t)
  }

  /** Encoding succeeds exactly on these, and the check without lists accepts the primitive ones and every list. */
  lemma {:induction false} EncodesExactly(t: DataType)
    ensures EncodeScalarType(t).Some? <==> ValidScalarType(t)
    ensures IsValidScalarTypeNoListCheck(t) <==> t.List? || PrimitiveScalar(t)
    decreases t
  {
    hide PrimitiveScalar, ToI32, Names;
    LeavesExactly(t);
    if t.List? {
      EncodesExactly(t.item.dataType);
    }
  }

  lemma LeavesExactly(t: DataType)
    ensures LeafType(t).Some? <==> PrimitiveScalar(t)
    ensures IsValidScalarTypeNoListCheck(t) <==> t.List? || PrimitiveScalar(t)
  {
  }

  /** Every nested list field marked nullable. */
  function AllNullable(t: DataType): DataType {
    if t.List? then List(Field(t.item.name, AllNullable(t.item.dataType), true)) else t
  }

  lemma {:induction false} NestedNames(t: DataType)
    ensures Nested(NamesBelow(t), Deepest(t)) == AllNullable(t)
    decreases t
  {
    if t.List? {
      NestedNames(t.item.dataType);
      assert NamesBelow(t) == [t.item.name] + NamesBelow(t.item.dataType);
    }
  }

  lemma NumbersComeBack(p: PrimitiveScalarType)
    ensures FromI32(ToI32(p)) == Some(p)
  {
  }

  lemma LeafComesBack(t: DataType)
    requires LeafType(t).Some?
    ensures PrimitiveType(LeafType(t).value) == t
  {
  }

  /** Decoding an encoded type gives it back with every nested list field nullable. */
  lemma ScalarTypeRoundTrip(t: DataType)
    requires ValidScalarType(t)
    ensures EncodeScalarType(t).Some? && DecodeScalarType(EncodeScalarType(t).value) == Some(AllNullable(t))
  {
    hide ToI32, FromI32, LeafType, PrimitiveType, Names, ValidScalarType, PrimitiveScalar;
    EncodesExactly(t);
    var leaf := LeafType(Deepest(t)).value;
    NumbersComeBack(leaf);
    LeafComesBack(Deepest(t));
    NestedNames(t);
    NamesOfList(t);
  }

  lemma NamesOfList(t: DataType)
    ensures t.List? ==> Names(t.item) == NamesBelow(t) && Names(t.item) != []
    ensures !t.List? ==> NamesBelow(t) == []
  {
  }

  predicate NullableFields(t: DataType) {
    t.List? ==> t.item.nullable && NullableFields(t.item.dataType)
  }

  lemma {:induction false} NullableIsSame(t: DataType)
    ensures AllNullable(t) == t <==> NullableFields(t)
    decreases t
  {
    if t.List? {
      NullableIsSame(t.item.dataType);
    }
  }

  /** So a type comes back as it was if and only if every nested list field is nullable. */
  lemma ScalarTypeComesBack(t: DataType)
    requires ValidScalarType(t)
    ensures EncodeScalarType(t).Some?
    ensures DecodeScalarType(EncodeScalarType(t).value) == Some(t) <==> NullableFields(t)
  {
    hide EncodeScalarType, DecodeScalarType, ValidScalarType;
    ScalarTypeRoundTrip(t);
    NullableIsSame(t);
  }
}
