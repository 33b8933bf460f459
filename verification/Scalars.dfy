/** Scalar values as messages, and back. */
module Scalars {
  import opened Plans
  import opened ArrowTypes
  import opened ScalarTypes

  newtype i8 = x: int | -0x80 <= x < 0x80
  newtype i16 = x: int | -0x8000 <= x < 0x8000
  newtype i32 = x: int | -0x8000_0000 <= x < 0x8000_0000
  newtype i64 = x: int | -0x8000_0000_0000_0000 <= x < 0x8000_0000_0000_0000
  newtype u8 = x: int | 0 <= x < 0x100
  newtype u16 = x: int | 0 <= x < 0x1_0000
  newtype u32 = x: int | 0 <= x < 0x1_0000_0000
  newtype u64 = x: int | 0 <= x < 0x1_0000_0000_0000_0000

  type F32(==)
  type F64(==)

  /** `List(Some(values), type)` and `List(None, type)` are two constructors here. */
  datatype ScalarValue =
    | ScalarBool(truth: Option<bool>)
    | ScalarFloat32(f32: Option<F32>) | ScalarFloat64(f64: Option<F64>)
    | ScalarInt8(i8: Option<i8>) | ScalarInt16(i16: Option<i16>)
    | ScalarInt32(i32: Option<i32>) | ScalarInt64(i64: Option<i64>)
    | ScalarUInt8(u8: Option<u8>) | ScalarUInt16(u16: Option<u16>)
    | ScalarUInt32(u32: Option<u32>) | ScalarUInt64(u64: Option<u64>)
    | ScalarUtf8(text: Option<string>) | ScalarLargeUtf8(text: Option<string>)
    | ScalarList(values: seq<ScalarValue>, dataType: DataType) | ScalarNullList(dataType: DataType)
    | ScalarDate32(i32: Option<i32>) | ScalarTimeMicrosecond(i64: Option<i64>) | ScalarTimeNanosecond(i64: Option<i64>)
    | ScalarOther

  // ---- Messages ----

  datatype PbScalarType = PbScalarType(scalarType: Option<ScalarDatatype>)

  datatype PbScalar = PbScalar(value: Option<PbValue>)

  datatype PbValue =
    | BoolValue(truth: bool)
    | Utf8Value(text: string) | LargeUtf8Value(text: string)
    | Int8Value(i32: i32) | Int16Value(i32: i32) | Int32Value(i32: i32) | Int64Value(i64: i64)
    | Uint8Value(u32: u32) | Uint16Value(u32: u32) | Uint32Value(u32: u32) | Uint64Value(u64: u64)
    | Float32Value(f32: F32) | Float64Value(f64: F64)
    | Date32Value(i32: i32) | TimeMicrosecondValue(i64: i64) | TimeNanosecondValue(i64: i64)
    | ListValue(listType: Option<PbScalarType>, values: seq<PbScalar>)
    | NullListValue(nullListType: PbScalarType)
    | NullValue(primitive: int)

  // ---- Encoding ----

  function NullOf(p: PrimitiveScalarType): PbValue {
    NullValue(ToI32(p))
  }

  predicate IsFlat(v: ScalarValue) {
    !v.ScalarList? && !v.ScalarNullList?
  }

  /** Scalars other than lists. */
  function EncodeFlat(v: ScalarValue): Outcome<PbValue>
    requires IsFlat(v)
  {
    match v
    case ScalarBool(x) => Ok(if x.Some? then BoolValue(x.value) else NullOf(BoolType))
    case ScalarFloat32(x) => Ok(if x.Some? then Float32Value(x.value) else NullOf(Float32Type))
    case ScalarFloat64(x) => Ok(if x.Some? then Float64Value(x.value) else NullOf(Float64Type))
    case ScalarInt8(x) => Ok(if x.Some? then Int8Value(x.value as i32) else NullOf(Int8Type))
    case ScalarInt16(x) => Ok(if x.Some? then Int16Value(x.value as i32) else NullOf(Int16Type))
    case ScalarInt32(x) => Ok(if x.Some? then Int32Value(x.value) else NullOf(Int32Type))
    case ScalarInt64(x) => Ok(if x.Some? then Int64Value(x.value) else NullOf(Int64Type))
    case ScalarUInt8(x) => Ok(if x.Some? then Uint8Value(x.value as u32) else NullOf(Uint8Type))
    case ScalarUInt16(x) => Ok(if x.Some? then Uint16Value(x.value as u32) else NullOf(Uint16Type))
    case ScalarUInt32(x) => Ok(if x.Some? then Uint32Value(x.value) else NullOf(Uint32Type))
    case ScalarUInt64(x) => Ok(if x.Some? then Uint64Value(x.value) else NullOf(Uint64Type))
    case ScalarUtf8(x) => Ok(if x.Some? then Utf8Value(x.value) else NullOf(Utf8Type))
    case ScalarLargeUtf8(x) => Ok(if x.Some? then LargeUtf8Value(x.value) else NullOf(LargeUtf8Type))
    case ScalarDate32(x) => Ok(if x.Some? then Date32Value(x.value) else NullOf(Date32Type))
    case ScalarTimeMicrosecond(x) => Ok(if x.Some? then TimeMicrosecondValue(x.value) else NullOf(TimeMicrosecondType))
    case ScalarTimeNanosecond(x) => Ok(if x.Some? then TimeNanosecondValue(x.value) else NullOf(TimeNanosecondType))
    case ScalarOther => Err
  }

  // ---- Decoding ----

  function AsI8(v: i32): i8 {
    var m := v as int % 0x100;
    (if m < 0x80 then m else m - 0x100) as i8
  }

  function AsI16(v: i32): i16 {
    var m := v as int % 0x1_0000;
    (if m < 0x8000 then m else m - 0x1_0000) as i16
  }

  function AsU8(v: u32): u8 {
    (v as int % 0x100) as u8
  }

  function AsU16(v: u32): u16 {
    (v as int % 0x1_0000) as u16
  }

  function NullScalar(p: PrimitiveScalarType): Option<ScalarValue> {
    match p
    case NullType => None
    case BoolType => Some(ScalarBool(None))
    case Uint8Type => Some(ScalarUInt8(None))
    case Int8Type => Some(ScalarInt8(None))
    case Uint16Type => Some(ScalarUInt16(None))
    case Int16Type => Some(ScalarInt16(None))
    case Uint32Type => Some(ScalarUInt32(None))
    case Int32Type => Some(ScalarInt32(None))
    case Uint64Type => Some(ScalarUInt64(None))
    case Int64Type => Some(ScalarInt64(None))
    case Float32Type => Some(ScalarFloat32(None))
    case Float64Type => Some(ScalarFloat64(None))
    case Utf8Type => Some(ScalarUtf8(None))
    case LargeUtf8Type => Some(ScalarLargeUtf8(None))
    case Date32Type => Some(ScalarDate32(None))
    case TimeMicrosecondType => Some(ScalarTimeMicrosecond(None))
    case TimeNanosecondType => Some(ScalarTimeNanosecond(None))
  }

  function DecodePbScalarType(t: PbScalarType): Option<DataType> {
    if t.scalarType.Some? then DecodeScalarType(t.scalarType.value) else None
  }

  /** Values other than lists. */
  function DecodeFlat(v: PbValue): Option<ScalarValue>
    requires !v.ListValue? && !v.NullListValue?
  {
    match v
    case BoolValue(b) => Some(ScalarBool(Some(b)))
    case Utf8Value(t) => Some(ScalarUtf8(Some(t)))
    case LargeUtf8Value(t) => Some(ScalarLargeUtf8(Some(t)))
    case Int8Value(n) => Some(ScalarInt8(Some(AsI8(n))))
    case Int16Value(n) => Some(ScalarInt16(Some(AsI16(n))))
    case Int32Value(n) => Some(ScalarInt32(Some(n)))
    case Int64Value(n) => Some(ScalarInt64(Some(n)))
    case Uint8Value(n) => Some(ScalarUInt8(Some(AsU8(n))))
    case Uint16Value(n) => Some(ScalarUInt16(Some(AsU16(n))))
    case Uint32Value(n) => Some(ScalarUInt32(Some(n)))
    case Uint64Value(n) => Some(ScalarUInt64(Some(n)))
    case Float32Value(f) => Some(ScalarFloat32(Some(f)))
    case Float64Value(f) => Some(ScalarFloat64(Some(f)))
    case Date32Value(n) => Some(ScalarDate32(Some(n)))
    case TimeMicrosecondValue(n) => Some(ScalarTimeMicrosecond(Some(n)))
    case TimeNanosecondValue(n) => Some(ScalarTimeNanosecond(Some(n)))
    case NullValue(n) => (var p := FromI32(n); if p.Some? then NullScalar(p.value) else None)
  }

  predicate IsSigned(v: ScalarValue) {
    v.ScalarInt8? || v.ScalarInt16? || v.ScalarInt32? || v.ScalarInt64?
  }

  predicate IsUnsigned(v: ScalarValue) {
    v.ScalarUInt8? || v.ScalarUInt16? || v.ScalarUInt32? || v.ScalarUInt64?
  }

  predicate IsTime(v: ScalarValue) {
    v.ScalarDate32? || v.ScalarTimeMicrosecond? || v.ScalarTimeNanosecond?
  }

  ghost predicate ComesBack(v: ScalarValue)
    requires IsFlat(v) && EncodeFlat(v).Ok?
  {
    var p := EncodeFlat(v).value;
    !p.ListValue? && !p.NullListValue? && DecodeFlat(p) == Some(v)
  }

  lemma SignedRoundTrip(v: ScalarValue)
    requires IsSigned(v)
    ensures EncodeFlat(v).Ok? && ComesBack(v)
  {
    hide ToI32, FromI32, AsU8, AsU16;
    forall p ensures FromI32(ToI32(p)) == Some(p) {
      NumbersComeBack(p);
    }
  }

  lemma UnsignedRoundTrip(v: ScalarValue)
    requires IsUnsigned(v)
    ensures EncodeFlat(v).Ok? && ComesBack(v)
  {
    hide ToI32, FromI32, AsI8, AsI16;
    forall p ensures FromI32(ToI32(p)) == Some(p) {
      NumbersComeBack(p);
    }
  }

  lemma TimeRoundTrip(v: ScalarValue)
    requires IsTime(v)
    ensures EncodeFlat(v).Ok? && ComesBack(v)
  {
    hide ToI32, FromI32, AsI8, AsI16, AsU8, AsU16;
    forall p ensures FromI32(ToI32(p)) == Some(p) {
      NumbersComeBack(p);
    }
  }

  lemma OtherRoundTrip(v: ScalarValue)
    requires IsFlat(v) && !v.ScalarOther? && !IsSigned(v) && !IsUnsigned(v) && !IsTime(v)
    ensures EncodeFlat(v).Ok? && ComesBack(v)
  {
    hide ToI32, FromI32, AsI8, AsI16, AsU8, AsU16;
    forall p ensures FromI32(ToI32(p)) == Some(p) {
      NumbersComeBack(p);
    }
  }

  /** Every kind of scalar the messages provide for can be encoded, and comes back unchanged. */
  lemma FlatRoundTrip(v: ScalarValue)
    requires IsFlat(v) && !v.ScalarOther?
    ensures EncodeFlat(v).Ok? && ComesBack(v)
  {
    hide ComesBack, EncodeFlat, IsSigned, IsUnsigned, IsTime;
    if IsSigned(v) {
      SignedRoundTrip(v);
    } else if IsUnsigned(v) {
      UnsignedRoundTrip(v);
    } else if IsTime(v) {
      TimeRoundTrip(v);
    } else {
      OtherRoundTrip(v);
    }
  }

  // ---- Lists ----

  /** `std::mem::discriminant`. */
  function Discriminant(t: DataType): nat {
    match t
    case Null => 0 case Boolean => 1
    case Int8 => 2 case Int16 => 3 case Int32 => 4 case Int64 => 5
    case UInt8 => 6 case UInt16 => 7 case UInt32 => 8 case UInt64 => 9
    case Float16 => 10 case Float32 => 11 case Float64 => 12
    case Timestamp(_, _) => 13 case Date32 => 14 case Date64 => 15
    case Time32(_) => 16 case Time64(_) => 17 case Duration(_) => 18 case Interval(_) => 19
    case Binary => 20 case FixedSizeBinary(_) => 21 case LargeBinary => 22
    case Utf8 => 23 case LargeUtf8 => 24
    case List(_) => 25 case FixedSizeList(_, _) => 26 case LargeList(_) => 27
    case Struct(_) => 28 case Union(_) => 29 case Dictionary(_, _) => 30 case Decimal(_, _) => 31
  }

  /** An item the encoder accepts in a list of the given item type. */
  predicate Fits(v: ScalarValue, t: DataType) {
    match v
    case ScalarList(_, u) => u.List? && t.List? && Discriminant(u.item.dataType) == Discriminant(t.item.dataType)
    case ScalarNullList(u) => u.List? && t.List? && Discriminant(u.item.dataType) == Discriminant(t.item.dataType)
    case ScalarBool(_) => t.Boolean?
    case ScalarFloat32(_) => t.Float32?
    case ScalarFloat64(_) => t.Float64?
    case ScalarInt8(_) => t.Int8?
    case ScalarInt16(_) => t.Int16?
    case ScalarInt32(_) => t.Int32?
    case ScalarInt64(_) => t.Int64?
    case ScalarUInt8(_) => t.UInt8?
    case ScalarUInt16(_) => t.UInt16?
    case ScalarUInt32(_) => t.UInt32?
    case ScalarUInt64(_) => t.UInt64?
    case ScalarUtf8(_) => t.Utf8?
    case ScalarLargeUtf8(_) => t.LargeUtf8?
    case _ => false
  }

  /** A list; items under a type that is no list are not handled. */
  function EncodeScalar(v: ScalarValue): Outcome<PbScalar>
    decreases v, 1
  {
    match v
    case ScalarNullList(dataType) =>
      (var t := EncodeScalarType(dataType); if t.Some? then Ok(PbScalar(Some(NullListValue(PbScalarType(t))))) else Err)
    case ScalarList(values, dataType) =>
      if values != [] && !dataType.List? then Panic
      else
        (match EncodeItems(values, dataType)
         case Ok(ps) =>
           var t := EncodeScalarType(dataType);
           if t.Some? then Ok(PbScalar(Some(ListValue(Some(PbScalarType(t)), ps)))) else Err
         case Err => Err
         case Panic => Panic)
    case _ =>
      (match EncodeFlat(v)
       case Ok(p) => Ok(PbScalar(Some(p)))
       case Err => Err
       case Panic => Panic)
  }

  /** The items of a list of type `t`, up to the first that fails. */
  function EncodeItems(vs: seq<ScalarValue>, t: DataType): Outcome<seq<PbScalar>>
    requires vs != [] ==> t.List?
    decreases vs, 0
  {
    if vs == [] then Ok([])
    else
      var last := vs[|vs| - 1];
      match EncodeItems(vs[..|vs| - 1], t)
      case Err => Err
      case Panic => Panic
      case Ok(ps) =>
        if !Fits(last, t.item.dataType) then Err
        else
          match EncodeScalar(last)
          case Ok(p) => Ok(ps + [p])
          case Err => Err
          case Panic => Panic
  }

  function DecodeScalar(p: PbScalar): Option<ScalarValue>
    decreases p, 1
  {
    if p.value.None? then None
    else
      match p.value.value
      case ListValue(t, ps) =>
        if t.None? then None
        else
          var vs, dataType := DecodeScalars(ps), DecodePbScalarType(t.value);
          if vs.Some? && dataType.Some? then Some(ScalarList(vs.value, dataType.value)) else None
      case NullListValue(t) =>
        (var dataType := DecodePbScalarType(t); if dataType.Some? then Some(ScalarNullList(dataType.value)) else None)
      case _ => DecodeFlat(p.value.value)
  }

  function DecodeScalars(ps: seq<PbScalar>): Option<seq<ScalarValue>>
    decreases ps, 0
  {
    if ps == [] then Some([])
    else
      var init, last := DecodeScalars(ps[..|ps| - 1]), DecodeScalar(ps[|ps| - 1]);
      if init.Some? && last.Some? then Some(init.value + [last.value]) else None
  }

  // ---- What can be decoded ----

  /** A value is there, its types are there and well-formed, and a null names a type other than null. */
  predicate WellFormedScalar(p: PbScalar) {
    && p.value.Some?
    && match p.value.value
       case ListValue(t, ps) =>
         t.Some? && WellFormedScalarType(t.value) && forall q <- ps :: WellFormedScalar(q)
       case NullListValue(t) => WellFormedScalarType(t)
       case NullValue(n) => 0 <= n < 16
       case _ => true
  }

  predicate WellFormedScalarType(t: PbScalarType) {
    t.scalarType.Some? && WellFormedDatatype(t.scalarType.value)
  }

  /** Decoding succeeds exactly on these messages. */
  lemma {:induction false} ScalarDecodesExactly(p: PbScalar)
    ensures DecodeScalar(p).Some? <==> WellFormedScalar(p)
    decreases p, 1
  {
    hide DecodeScalars, DecodeScalarType, WellFormedDatatype, DecodeFlat;
    if p.value.Some? {
      var v := p.value.value;
      if v.ListValue? {
        ScalarsDecodeExactly(v.values);
        if v.listType.Some? && v.listType.value.scalarType.Some? {
          ScalarTypeDecodesExactly(v.listType.value.scalarType.value);
        }
      } else if v.NullListValue? {
        if v.nullListType.scalarType.Some? {
          ScalarTypeDecodesExactly(v.nullListType.scalarType.value);
        }
      } else {
        FlatDecodesExactly(v);
      }
    }
  }

  lemma FlatDecodesExactly(v: PbValue)
    requires !v.ListValue? && !v.NullListValue?
    ensures DecodeFlat(v).Some? <==> v.NullValue? ==> 0 <= v.primitive < 16
  {
    hide AsI8, AsI16, AsU8, AsU16;
  }

  lemma {:induction false} ScalarsDecodeExactly(ps: seq<PbScalar>)
    ensures DecodeScalars(ps).Some? <==> forall p <- ps :: WellFormedScalar(p)
    decreases ps, 0
  {
    hide DecodeScalar, WellFormedScalar;
    if ps != [] {
      var init, last := ps[..|ps| - 1], ps[|ps| - 1];
      assert ps == init + [last];
      ScalarsDecodeExactly(init);
      ScalarDecodesExactly(last);
    }
  }

  /** Numbers that are too big for their type lose their upper bits. */
  lemma NarrowingWraps(n: i32, m: u32)
    ensures AsI8(n) as int % 0x100 == n as int % 0x100 && AsI16(n) as int % 0x1_0000 == n as int % 0x1_0000
    ensures AsU8(m) as int % 0x100 == m as int % 0x100 && AsU16(m) as int % 0x1_0000 == m as int % 0x1_0000
  {
  }

  // ---- What can be encoded ----

  /** The types whose scalars may be items of a list, apart from lists. */
  function ItemType(v: ScalarValue): Option<DataType> {
    if v.ScalarBool? then Some(Boolean)
    else if v.ScalarInt8? then Some(Int8)
    else if v.ScalarInt16? then Some(Int16)
    else if v.ScalarInt32? then Some(Int32)
    else if v.ScalarInt64? then Some(Int64)
    else if v.ScalarUInt8? then Some(UInt8)
    else if v.ScalarUInt16? then Some(UInt16)
    else if v.ScalarUInt32? then Some(UInt32)
    else if v.ScalarUInt64? then Some(UInt64)
    else if v.ScalarFloat32? then Some(Float32)
    else if v.ScalarFloat64? then Some(Float64)
    else if v.ScalarUtf8? then Some(Utf8)
    else if v.ScalarLargeUtf8? then Some(LargeUtf8)
    else None
  }

  /** Types of the same kind: the same one, or two lists or two times. */
  predicate SameKind(t: DataType, u: DataType) {
    t == u || (t.List? && u.List?) || (t.Time64? && u.Time64?)
  }

  /** Items agree with the item type of their list; of nested lists only the kind of their items is compared. */
  predicate ValidItem(v: ScalarValue, t: DataType) {
    if v.ScalarList? || v.ScalarNullList? then
      t.List? && v.dataType.List? && SameKind(v.dataType.item.dataType, t.item.dataType)
    else
      ItemType(v) == Some(t)
  }

  /** The values that can be encoded: of a kind the messages provide for, lists with a valid type and valid items. */
  predicate ValidScalar(v: ScalarValue) {
    if v.ScalarNullList? then ValidScalarType(v.dataType)
    else if v.ScalarList? then
      && ValidScalarType(v.dataType)
      && forall x <- v.values :: v.dataType.List? && ValidItem(x, v.dataType.item.dataType) && ValidScalar(x)
    else !v.ScalarOther?
  }

  /** The one value the encoder does not handle: items under a type that is no list. */
  predicate Unhandled(v: ScalarValue) {
    v.ScalarList? && v.values != [] && !v.dataType.List?
  }

  /** The primitive type, other than a time, with a given discriminant. */
  function OfKind(n: nat): Option<DataType> {
    match n
    case 1 => Some(Boolean)
    case 2 => Some(Int8) case 3 => Some(Int16) case 4 => Some(Int32) case 5 => Some(Int64)
    case 6 => Some(UInt8) case 7 => Some(UInt16) case 8 => Some(UInt32) case 9 => Some(UInt64)
    case 11 => Some(Float32) case 12 => Some(Float64)
    case 14 => Some(Date32) case 23 => Some(Utf8) case 24 => Some(LargeUtf8)
    case _ => None
  }

  lemma KindComesBack(t: DataType)
    requires ValidScalarType(t)
    ensures t.List? <==> Discriminant(t) == 25
    ensures t.Time64? <==> Discriminant(t) == 17
    ensures !t.List? && !t.Time64? ==> OfKind(Discriminant(t)) == Some(t)
  {
  }

  lemma KindsAgree(t: DataType, u: DataType)
    requires ValidScalarType(t) && ValidScalarType(u)
    ensures SameKind(u, t) <==> Discriminant(u) == Discriminant(t)
  {
    hide Discriminant, OfKind, ValidScalarType;
    KindComesBack(t);
    KindComesBack(u);
  }

  /** A valid item is one that fits and can be encoded, under a valid type. */
  lemma ItemFits(v: ScalarValue, t: DataType)
    requires ValidScalarType(t) && ValidScalar(v)
    ensures Fits(v, t) <==> ValidItem(v, t)
  {
    hide Discriminant, SameKind, PrimitiveScalar;
    if !IsFlat(v) && v.dataType.List? && t.List? {
      KindsAgree(t.item.dataType, v.dataType.item.dataType);
    }
  }

  /** Encoding succeeds exactly on the valid values, and panics exactly on the unhandled ones. */
  lemma {:induction false} ScalarEncodesExactly(v: ScalarValue)
    ensures EncodeScalar(v).Ok? <==> ValidScalar(v)
    ensures EncodeScalar(v).Panic? <==> Unhandled(v)
    decreases v, 1
  {
    hide EncodeFlat, EncodeScalarType, EncodeItems, ValidItem, ValidScalarType;
    if IsFlat(v) {
      FlatEncodesExactly(v);
    } else {
      EncodesExactly(v.dataType);
      if Unhandled(v) {
        assert v.values[0] in v.values;
      } else if v.ScalarList? {
        ItemsEncodeExactly(v.values, v.dataType);
      }
    }
  }

  lemma FlatEncodesExactly(v: ScalarValue)
    requires IsFlat(v)
    ensures EncodeFlat(v).Ok? <==> !v.ScalarOther?
    ensures !EncodeFlat(v).Panic?
  {
  }

  lemma {:induction false} ItemsEncodeExactly(vs: seq<ScalarValue>, t: DataType)
    requires vs != [] ==> t.List?
    ensures !EncodeItems(vs, t).Panic?
    ensures ValidScalarType(t) ==>
      (EncodeItems(vs, t).Ok? <==> forall x <- vs :: ValidItem(x, t.item.dataType) && ValidScalar(x))
    decreases vs, 0
  {
    hide EncodeScalar, Fits, ValidItem, ValidScalar;
    if vs != [] {
      var init, last := vs[..|vs| - 1], vs[|vs| - 1];
      assert vs == init + [last];
      ItemsEncodeExactly(init, t);
      ScalarEncodesExactly(last);
      if Fits(last, t.item.dataType) {
        FitsIsHandled(last, t.item.dataType);
      }
      if ValidScalarType(t) && ValidScalar(last) {
        ItemFits(last, t.item.dataType);
      }
    }
  }

  lemma FitsIsHandled(v: ScalarValue, t: DataType)
    requires Fits(v, t)
    ensures !Unhandled(v)
  {
    hide Discriminant;
  }

  // ---- Round trip ----

  /** The value with every nested list field of its types nullable. */
  function NormalScalar(v: ScalarValue): ScalarValue
    decreases v, 1
  {
    match v
    case ScalarList(values, t) => ScalarList(NormalScalars(values), AllNullable(t))
    case ScalarNullList(t) => ScalarNullList(AllNullable(t))
    case _ => v
  }

  function NormalScalars(vs: seq<ScalarValue>): seq<ScalarValue>
    decreases vs, 0
  {
    if vs == [] then [] else NormalScalars(vs[..|vs| - 1]) + [NormalScalar(vs[|vs| - 1])]
  }

  /** A valid scalar value, of any list nesting, can be encoded, and decoding gives it back with its list fields
      nullable. */
  lemma ScalarRoundTrip(v: ScalarValue)
    requires ValidScalar(v)
    ensures EncodeScalar(v).Ok? && DecodeScalar(EncodeScalar(v).value) == Some(NormalScalar(v))
  {
    hide EncodeScalar, DecodeScalar, NormalScalar, ValidScalar;
    ScalarEncodesExactly(v);
    EncodedComesBack(v);
  }

  lemma {:induction false} EncodedComesBack(v: ScalarValue)
    requires EncodeScalar(v).Ok?
    ensures DecodeScalar(EncodeScalar(v).value) == Some(NormalScalar(v))
    decreases v, 1
  {
    hide EncodeFlat, DecodeFlat, EncodeScalarType, DecodeScalarType, EncodeItems, DecodeScalars, NormalScalars;
    hide ValidScalarType;
    if IsFlat(v) {
      FlatEncodesExactly(v);
      FlatComesBack(v);
    } else {
      EncodesExactly(v.dataType);
      ScalarTypeRoundTrip(v.dataType);
      if v.ScalarList? {
        ItemsRoundTrip(v.values, v.dataType);
      }
    }
  }

  lemma FlatComesBack(v: ScalarValue)
    requires IsFlat(v) && !v.ScalarOther?
    ensures EncodeFlat(v).Ok? && DecodeScalar(PbScalar(Some(EncodeFlat(v).value))) == Some(v)
  {
    hide EncodeFlat, DecodeFlat;
    FlatRoundTrip(v);
  }

  lemma {:induction false} ItemsRoundTrip(vs: seq<ScalarValue>, t: DataType)
    requires (vs != [] ==> t.List?) && EncodeItems(vs, t).Ok?
    ensures DecodeScalars(EncodeItems(vs, t).value) == Some(NormalScalars(vs))
    decreases vs, 0
  {
    hide EncodeScalar, DecodeScalar, NormalScalar, Fits;
    if vs != [] {
      var init, last := vs[..|vs| - 1], vs[|vs| - 1];
      ItemsRoundTrip(init, t);
      EncodedComesBack(last);
      var ps := EncodeItems(vs, t).value;
      assert ps[..|ps| - 1] == EncodeItems(init, t).value;
    }
  }

  // ---- What comes back as it was ----

  /** All list types in the value have nullable fields only. */
  predicate NullableLists(v: ScalarValue)
    decreases v, 1
  {
    match v
    case ScalarList(values, t) => NullableListsIn(values) && NullableFields(t)
    case ScalarNullList(t) => NullableFields(t)
    case _ => true
  }

  predicate NullableListsIn(vs: seq<ScalarValue>)
    decreases vs, 0
  {
    vs != [] ==> NullableListsIn(vs[..|vs| - 1]) && NullableLists(vs[|vs| - 1])
  }

  lemma {:induction false} NormalScalarIsSame(v: ScalarValue)
    ensures NormalScalar(v) == v <==> NullableLists(v)
    decreases v, 1
  {
    hide NormalScalars, NullableListsIn;
    if !IsFlat(v) {
      NullableIsSame(v.dataType);
      if v.ScalarList? {
        NormalScalarsAreSame(v.values);
      }
    }
  }

  lemma {:induction false} NormalScalarsAreSame(vs: seq<ScalarValue>)
    ensures |NormalScalars(vs)| == |vs| && (NormalScalars(vs) == vs <==> NullableListsIn(vs))
    decreases vs, 0
  {
    hide NormalScalar, NullableLists;
    if vs != [] {
      var init, last := vs[..|vs| - 1], vs[|vs| - 1];
      NormalScalarsAreSame(init);
      NormalScalarIsSame(last);
      assert vs == init + [last];
      var ns := NormalScalars(vs);
      assert ns[..|ns| - 1] == NormalScalars(init) && ns[|ns| - 1] == NormalScalar(last);
    }
  }

  /** A valid value comes back as it was if and only if all its list fields are nullable. */
  lemma ScalarComesBack(v: ScalarValue)
    requires ValidScalar(v)
    ensures EncodeScalar(v).Ok?
    ensures DecodeScalar(EncodeScalar(v).value) == Some(v) <==> NullableLists(v)
  {
    hide EncodeScalar, DecodeScalar, NormalScalar, NullableLists, ValidScalar;
    ScalarRoundTrip(v);
    NormalScalarIsSame(v);
  }

  /** A null list of integers that may not be null comes back as one of integers that may. */
  lemma NullabilityIsLost()
    ensures
      var v := ScalarNullList(List(Field("item", Int32, false)));
      && EncodeScalar(v).Ok?
      && DecodeScalar(EncodeScalar(v).value) == Some(ScalarNullList(List(Field("item", Int32, true)))) != Some(v)
  {
    hide DecodeScalar, EncodeScalarType;
    var t := List(Field("item", Int32, false));
    assert ValidScalarType(Int32);
    ScalarTypeRoundTrip(t);
    ScalarRoundTrip(ScalarNullList(t));
  }
}
