/** Arrow types as protobuf messages, and back. */
module ArrowTypes {
  import opened Plans

  datatype TimeUnit = Second | Millisecond | Microsecond | Nanosecond

  datatype IntervalUnit = YearMonth | DayTime

  datatype DataType =
    | Null | Boolean
    | Int8 | Int16 | Int32 | Int64
    | UInt8 | UInt16 | UInt32 | UInt64
    | Float16 | Float32 | Float64
    | Timestamp(unit: TimeUnit, timezone: Option<string>)
    | Date32 | Date64
    | Time32(unit: TimeUnit) | Time64(unit: TimeUnit) | Duration(unit: TimeUnit)
    | Interval(interval: IntervalUnit)
    | Binary | FixedSizeBinary(size: int) | LargeBinary
    | Utf8 | LargeUtf8
    | List(item: Field) | FixedSizeList(item: Field, size: int) | LargeList(item: Field)
    | Struct(fields: seq<Field>) | Union(fields: seq<Field>)
    | Dictionary(key: DataType, value: DataType)
    | Decimal(whole: nat, fractional: nat)

  datatype Field = Field(name: string, dataType: DataType, nullable: bool)

  // ---- Messages ----

  /** `arrow_type::ArrowTypeEnum`; enum-valued fields are plain numbers on the wire. */
  datatype ArrowTypeEnum =
    | PbNone | PbBool
    | PbInt8 | PbInt16 | PbInt32 | PbInt64
    | PbUint8 | PbUint16 | PbUint32 | PbUint64
    | PbFloat16 | PbFloat32 | PbFloat64
    | PbTimestamp(timeUnit: int, timezone: string)
    | PbDate32 | PbDate64
    | PbTime32(timeUnit: int) | PbTime64(timeUnit: int) | PbDuration(timeUnit: int)
    | PbInterval(intervalUnit: int)
    | PbBinary | PbFixedSizeBinary(size: int) | PbLargeBinary
    | PbUtf8 | PbLargeUtf8
    | PbList(fieldType: Option<PbField>)
    | PbFixedSizeList(fieldType: Option<PbField>, listSize: int)
    | PbLargeList(fieldType: Option<PbField>)
    | PbStruct(subFieldTypes: seq<PbField>) | PbUnion(unionTypes: seq<PbField>)
    | PbDictionary(key: Option<ArrowType>, value: Option<ArrowType>)
    | PbDecimal(whole: nat, fractional: nat)

  datatype ArrowType = ArrowType(arrowTypeEnum: Option<ArrowTypeEnum>)

  datatype PbField = PbField(name: string, arrowType: Option<ArrowType>, nullable: bool, children: seq<PbField>)

  // ---- Units ----

  function EncodeTimeUnit(u: TimeUnit): int {
    match u
    case Second => 0
    case Millisecond => 1
    case Microsecond => 2
    case Nanosecond => 3
  }

  function DecodeTimeUnit(n: int): Option<TimeUnit> {
    match n
    case 0 => Some(Second)
    case 1 => Some(Millisecond)
    case 2 => Some(Microsecond)
    case 3 => Some(Nanosecond)
    case _ => None
  }

  function EncodeIntervalUnit(u: IntervalUnit): int {
    match u
    case YearMonth => 0
    case DayTime => 1
  }

  function DecodeIntervalUnit(n: int): Option<IntervalUnit> {
    match n
    case 0 => Some(YearMonth)
    case 1 => Some(DayTime)
    case _ => None
  }

  // ---- Encoding ----

  function EncodeField(f: Field): PbField
    decreases f, 0
  {
    PbField(f.name, Some(EncodeType(f.dataType)), f.nullable, [])
  }

  function EncodeFields(fs: seq<Field>): seq<PbField>
    decreases fs, 1
  {
    seq(|fs|, i requires 0 <= i < |fs| => EncodeField(fs[i]))
  }

  function EncodeType(t: DataType): ArrowType
    decreases t, 1
  {
    ArrowType(Some(EncodeEnum(t)))
  }

  function EncodeEnum(t: DataType): ArrowTypeEnum
    decreases t, 0
  {
    match t
    case Null => PbNone
    case Boolean => PbBool
    case Int8 => PbInt8
    case Int16 => PbInt16
    case Int32 => PbInt32
    case Int64 => PbInt64
    case UInt8 => PbUint8
    case UInt16 => PbUint16
    case UInt32 => PbUint32
    case UInt64 => PbUint64
    case Float16 => PbFloat16
    case Float32 => PbFloat32
    case Float64 => PbFloat64
    case Timestamp(u, tz) => PbTimestamp(EncodeTimeUnit(u), if tz.Some? then tz.value else [])
    case Date32 => PbDate32
    case Date64 => PbDate64
    case Time32(u) => PbTime32(EncodeTimeUnit(u))
    case Time64(u) => PbTime64(EncodeTimeUnit(u))
    case Duration(u) => PbDuration(EncodeTimeUnit(u))
    case Interval(u) => PbInterval(EncodeIntervalUnit(u))
    case Binary => PbBinary
    case FixedSizeBinary(n) => PbFixedSizeBinary(n)
    case LargeBinary => PbLargeBinary
    case Utf8 => PbUtf8
    case LargeUtf8 => PbLargeUtf8
    case List(f) => PbList(Some(EncodeField(f)))
    case FixedSizeList(f, n) => PbFixedSizeList(Some(EncodeField(f)), n)
    case LargeList(f) => PbLargeList(Some(EncodeField(f)))
    case Struct(fs) => PbStruct(EncodeFields(fs))
    case Union(fs) => PbUnion(EncodeFields(fs))
    case Dictionary(k, v) => PbDictionary(Some(EncodeType(k)), Some(EncodeType(v)))
    case Decimal(w, f) => PbDecimal(w, f)
  }

  // ---- Decoding ----

  function DecodeField(f: PbField): Option<Field>
    decreases f, 0
  {
    if f.arrowType.None? then None
    else
      var t := DecodeType(f.arrowType.value);
      if t.Some? then Some(Field(f.name, t.value, f.nullable)) else None
  }

  function DecodeFields(fs: seq<PbField>): Option<seq<Field>>
    decreases fs, 1
  {
    if forall i | 0 <= i < |fs| :: DecodeField(fs[i]).Some? then
      Some(seq(|fs|, i requires 0 <= i < |fs| => DecodeField(fs[i]).value))
    else None
  }

  function DecodeItem(f: Option<PbField>): Option<Field>
    decreases f, 1
  {
    if f.Some? then DecodeField(f.value) else None
  }

  function DecodePart(a: Option<ArrowType>): Option<DataType>
    decreases a, 1
  {
    if a.Some? then DecodeType(a.value) else None
  }

  /** The decoder of `&ArrowType`. */
  function DecodeType(a: ArrowType): Option<DataType>
    decreases a, 0
  {
    if a.arrowTypeEnum.None? then None
    else
      match a.arrowTypeEnum.value
      case PbNone => Some(Null)
      case PbBool => Some(Boolean)
      case PbUint8 => Some(UInt8)
      case PbInt8 => Some(Int8)
      case PbUint16 => Some(UInt16)
      case PbInt16 => Some(Int16)
      case PbUint32 => Some(UInt32)
      case PbInt32 => Some(Int32)
      case PbUint64 => Some(UInt64)
      case PbInt64 => Some(Int64)
      case PbFloat16 => Some(Float16)
      case PbFloat32 => Some(Float32)
      case PbFloat64 => Some(Float64)
      case PbUtf8 => Some(Utf8)
      case PbLargeUtf8 => Some(LargeUtf8)
      case PbBinary => Some(Binary)
      case PbFixedSizeBinary(n) => Some(FixedSizeBinary(n))
      case PbLargeBinary => Some(LargeBinary)
      case PbDate32 => Some(Date32)
      case PbDate64 => Some(Date64)
      case PbDuration(n) => (var u := DecodeTimeUnit(n); if u.Some? then Some(Duration(u.value)) else None)
      case PbTimestamp(n, tz) =>
        (var u := DecodeTimeUnit(n);
         if u.Some? then Some(Timestamp(u.value, if tz == [] then None else Some(tz))) else None)
      case PbTime32(n) => (var u := DecodeTimeUnit(n); if u.Some? then Some(Time32(u.value)) else None)
      case PbTime64(n) => (var u := DecodeTimeUnit(n); if u.Some? then Some(Time64(u.value)) else None)
      case PbInterval(n) => (var u := DecodeIntervalUnit(n); if u.Some? then Some(Interval(u.value)) else None)
      case PbDecimal(w, f) => Some(Decimal(w, f))
      case PbList(f) => (var item := DecodeItem(f); if item.Some? then Some(List(item.value)) else None)
      case PbLargeList(f) => (var item := DecodeItem(f); if item.Some? then Some(LargeList(item.value)) else None)
      case PbFixedSizeList(f, n) =>
        (var item := DecodeItem(f); if item.Some? then Some(FixedSizeList(item.value, n)) else None)
      case PbStruct(fs) => (var fields := DecodeFields(fs); if fields.Some? then Some(Struct(fields.value)) else None)
      case PbUnion(fs) => (var fields := DecodeFields(fs); if fields.Some? then Some(Union(fields.value)) else None)
      case PbDictionary(k, v) =>
        (var key, value := DecodePart(k), DecodePart(v);
         if key.Some? && value.Some? then Some(Dictionary(key.value, value.value)) else None)
  }

  /** The decoder of `&ArrowTypeEnum`; below the first level it uses the other one. */
  function DecodeEnum(e: ArrowTypeEnum): Option<DataType> {
    match e
    case PbNone => Some(Null)
    case PbBool => Some(Boolean)
    case PbUint8 => Some(UInt8)
    case PbInt8 => Some(Int8)
    case PbUint16 => Some(UInt16)
    case PbInt16 => Some(Int16)
    case PbUint32 => Some(UInt32)
    case PbInt32 => Some(Int32)
    case PbUint64 => Some(UInt64)
    case PbInt64 => Some(Int64)
    case PbFloat16 => Some(Float16)
    case PbFloat32 => Some(Float32)
    case PbFloat64 => Some(Float64)
    case PbUtf8 => Some(Utf8)
    case PbLargeUtf8 => Some(LargeUtf8)
    case PbBinary => Some(Binary)
    case PbFixedSizeBinary(n) => Some(FixedSizeBinary(n))
    case PbLargeBinary => Some(LargeBinary)
    case PbDate32 => Some(Date32)
    case PbDate64 => Some(Date64)
    case PbDuration(n) => (var u := DecodeTimeUnit(n); if u.Some? then Some(Duration(u.value)) else None)
    case PbTimestamp(n, tz) =>
      (var u := DecodeTimeUnit(n);
       if u.Some? then Some(Timestamp(u.value, if |tz| == 0 then None else Some(tz))) else None)
    case PbTime32(n) => (var u := DecodeTimeUnit(n); if u.Some? then Some(Time32(u.value)) else None)
    case PbTime64(n) => (var u := DecodeTimeUnit(n); if u.Some? then Some(Time64(u.value)) else None)
    case PbInterval(n) => (var u := DecodeIntervalUnit(n); if u.Some? then Some(Interval(u.value)) else None)
    case PbDecimal(w, f) => Some(Decimal(w, f))
    case PbList(f) => (var item := DecodeItem(f); if item.Some? then Some(List(item.value)) else None)
    case PbLargeList(f) => (var item := DecodeItem(f); if item.Some? then Some(LargeList(item.value)) else None)
    case PbFixedSizeList(f, n) =>
      (var item := DecodeItem(f); if item.Some? then Some(FixedSizeList(item.value, n)) else None)
    case PbStruct(fs) => (var fields := DecodeFields(fs); if fields.Some? then Some(Struct(fields.value)) else None)
    case PbUnion(fs) => (var fields := DecodeFields(fs); if fields.Some? then Some(Union(fields.value)) else None)
    case PbDictionary(k, v) =>
      (var key, value := DecodePart(k), DecodePart(v);
       if key.Some? && value.Some? then Some(Dictionary(key.value, value.value)) else None)
  }

  /** The two decoders agree on every message. */
  lemma {:induction false} DecodersAgree(e: ArrowTypeEnum)
    ensures DecodeEnum(e) == DecodeType(ArrowType(Some(e)))
  {
    hide DecodeItem, DecodeFields, DecodePart, DecodeTimeUnit, DecodeIntervalUnit;
  }

  // ---- What can be decoded ----

  /** Every part is there, and every unit has a known number. */
  predicate WellFormed(a: ArrowType)
    decreases a, 1
  {
    a.arrowTypeEnum.Some? && WellFormedEnum(a.arrowTypeEnum.value)
  }

  predicate WellFormedEnum(e: ArrowTypeEnum)
    decreases e, 0
  {
    match e
    case PbTimestamp(n, _) => 0 <= n < 4
    case PbTime32(n) => 0 <= n < 4
    case PbTime64(n) => 0 <= n < 4
    case PbDuration(n) => 0 <= n < 4
    case PbInterval(n) => 0 <= n < 2
    case PbList(f) => f.Some? && WellFormedField(f.value)
    case PbFixedSizeList(f, _) => f.Some? && WellFormedField(f.value)
    case PbLargeList(f) => f.Some? && WellFormedField(f.value)
    case PbStruct(fs) => forall f <- fs :: WellFormedField(f)
    case PbUnion(fs) => forall f <- fs :: WellFormedField(f)
    case PbDictionary(k, v) => k.Some? && WellFormed(k.value) && v.Some? && WellFormed(v.value)
    case _ => true
  }

  predicate WellFormedField(f: PbField)
    decreases f, 0
  {
    f.arrowType.Some? && WellFormed(f.arrowType.value)
  }

  /** Decoding succeeds exactly on these messages. */
  lemma {:induction false} TypeDecodesExactly(a: ArrowType)
    ensures DecodeType(a).Some? <==> WellFormed(a)
    decreases a, 0
  {
    hide DecodeField, DecodeFields, WellFormedField, WellFormed;
    FormOf(a);
    if a.arrowTypeEnum.Some? {
      match a.arrowTypeEnum.value
      case PbList(f) =>
        if f.Some? {
          FieldDecodesExactly(f.value);
        }
      case PbFixedSizeList(f, _) =>
        if f.Some? {
          FieldDecodesExactly(f.value);
        }
      case PbLargeList(f) =>
        if f.Some? {
          FieldDecodesExactly(f.value);
        }
      case PbStruct(fs) => FieldsDecodeExactly(fs);
      case PbUnion(fs) => FieldsDecodeExactly(fs);
      case PbDictionary(k, v) =>
        if k.Some? {
          TypeDecodesExactly(k.value);
        }
        if v.Some? {
          TypeDecodesExactly(v.value);
        }
      case _ =>
    }
  }

  lemma FormOf(a: ArrowType)
    ensures WellFormed(a) <==> a.arrowTypeEnum.Some? && WellFormedEnum(a.arrowTypeEnum.value)
  {
  }

  lemma {:induction false} FieldDecodesExactly(f: PbField)
    ensures DecodeField(f).Some? <==> WellFormedField(f)
    decreases f, 0
  {
    hide DecodeType, WellFormed;
    if f.arrowType.Some? {
      TypeDecodesExactly(f.arrowType.value);
    }
  }

  lemma {:induction false} FieldsDecodeExactly(fs: seq<PbField>)
    ensures DecodeFields(fs).Some? <==> forall f <- fs :: WellFormedField(f)
    decreases fs, 1
  {
    hide DecodeField, WellFormedField;
    forall i | 0 <= i < |fs| ensures fs[i] in fs && (DecodeField(fs[i]).Some? <==> WellFormedField(fs[i])) {
      FieldDecodesExactly(fs[i]);
    }
  }

  // ---- Round trip ----

  /** Empty timezones turned into none, at every level; nothing else changed. */
  function Normal(t: DataType): DataType
    decreases t, 0
  {
    match t
    case Timestamp(u, tz) => Timestamp(u, if tz == Some([]) then None else tz)
    case List(f) => List(NormalField(f))
    case FixedSizeList(f, n) => FixedSizeList(NormalField(f), n)
    case LargeList(f) => LargeList(NormalField(f))
    case Struct(fs) => Struct(NormalFields(fs))
    case Union(fs) => Union(NormalFields(fs))
    case Dictionary(k, v) => Dictionary(Normal(k), Normal(v))
    case _ => t
  }

  function NormalField(f: Field): Field
    decreases f, 0
  {
    f.(dataType := Normal(f.dataType))
  }

  function NormalFields(fs: seq<Field>): seq<Field>
    decreases fs, 1
  {
    seq(|fs|, i requires 0 <= i < |fs| => NormalField(fs[i]))
  }

  /** Decoding an encoded type gives it back, up to empty timezones. */
  lemma {:induction false} TypeRoundTrip(t: DataType)
    ensures DecodeType(EncodeType(t)) == Some(Normal(t))
    decreases t, 0
  {
    hide DecodeType, EncodeType, EncodeEnum, Normal, DecodeFields, DecodeField, NormalField, EncodeField, EncodeFields;
    hide NormalFields;
    match t {
      case List(f) => FieldRoundTrip(f);
      case FixedSizeList(f, _) => FieldRoundTrip(f);
      case LargeList(f) => FieldRoundTrip(f);
      case Struct(fs) => FieldsRoundTrip(fs);
      case Union(fs) => FieldsRoundTrip(fs);
      case Dictionary(k, v) =>
        TypeRoundTrip(k);
        TypeRoundTrip(v);
      case _ =>
    }
    OneLevel(t);
  }

  /** The types a type is made of come back. */
  ghost predicate PartsComeBack(t: DataType) {
    match t
    case List(f) => DecodeField(EncodeField(f)) == Some(NormalField(f))
    case FixedSizeList(f, _) => DecodeField(EncodeField(f)) == Some(NormalField(f))
    case LargeList(f) => DecodeField(EncodeField(f)) == Some(NormalField(f))
    case Struct(fs) => DecodeFields(EncodeFields(fs)) == Some(NormalFields(fs))
    case Union(fs) => DecodeFields(EncodeFields(fs)) == Some(NormalFields(fs))
    case Dictionary(k, v) =>
      DecodeType(EncodeType(k)) == Some(Normal(k)) && DecodeType(EncodeType(v)) == Some(Normal(v))
    case _ => true
  }

  lemma OneLevel(t: DataType)
    requires PartsComeBack(t)
    ensures DecodeType(EncodeType(t)) == Some(Normal(t))
  {
    hide EncodeField, DecodeField, EncodeFields, DecodeFields, NormalField, NormalFields, EncodeType, DecodePart;
    hide PartsComeBack, EncodeTimeUnit, DecodeTimeUnit;
    EncodedType(t);
    if t.List? || t.FixedSizeList? || t.LargeList? {
      ListParts(t);
    } else if t.Struct? || t.Union? {
      StructParts(t);
    } else if t.Dictionary? {
      DictionaryParts(t);
    } else if HasTimeUnit(t) {
      TimeUnitRoundTrip(t.unit);
    } else {
      PlainRoundTrip(t);
    }
  }

  lemma EncodedType(t: DataType)
    ensures EncodeType(t) == ArrowType(Some(EncodeEnum(t)))
  {
  }

  lemma ListParts(t: DataType)
    requires PartsComeBack(t) && (t.List? || t.FixedSizeList? || t.LargeList?)
    ensures DecodeField(EncodeField(t.item)) == Some(NormalField(t.item))
  {
  }

  lemma StructParts(t: DataType)
    requires PartsComeBack(t) && (t.Struct? || t.Union?)
    ensures DecodeFields(EncodeFields(t.fields)) == Some(NormalFields(t.fields))
  {
  }

  lemma DictionaryParts(t: DataType)
    requires PartsComeBack(t) && t.Dictionary?
    ensures DecodePart(Some(EncodeType(t.key))) == Some(Normal(t.key))
    ensures DecodePart(Some(EncodeType(t.value))) == Some(Normal(t.value))
  {
  }

  predicate HasTimeUnit(t: DataType) {
    t.Timestamp? || t.Time32? || t.Time64? || t.Duration?
  }

  lemma PlainRoundTrip(t: DataType)
    requires !t.List? && !t.FixedSizeList? && !t.LargeList? && !t.Struct? && !t.Union? && !t.Dictionary?
    requires !HasTimeUnit(t)
    ensures DecodeType(EncodeType(t)) == Some(Normal(t))
  {
    hide EncodeField, DecodeField, EncodeFields, DecodeFields, NormalField, NormalFields, DecodeItem, DecodePart;
    hide EncodeType;
    hide EncodeTimeUnit, DecodeTimeUnit;
    EncodedType(t);
  }

  lemma TimeUnitRoundTrip(u: TimeUnit)
    ensures DecodeTimeUnit(EncodeTimeUnit(u)) == Some(u)
  {
  }

  lemma {:induction false} FieldRoundTrip(f: Field)
    ensures DecodeField(EncodeField(f)) == Some(NormalField(f))
    decreases f, 0
  {
    TypeRoundTrip(f.dataType);
  }

  lemma {:induction false} FieldsRoundTrip(fs: seq<Field>)
    ensures DecodeFields(EncodeFields(fs)) == Some(NormalFields(fs))
    decreases fs, 1
  {
    var es := EncodeFields(fs);
    forall i | 0 <= i < |fs| ensures DecodeField(es[i]) == Some(NormalField(fs[i])) {
      FieldRoundTrip(fs[i]);
    }
    assert seq(|es|, i requires 0 <= i < |es| => DecodeField(es[i]).value) == NormalFields(fs);
  }

  /** No timestamp in the type has an empty timezone. */
  predicate ProperTimezones(t: DataType)
    decreases t
  {
    match t
    case Timestamp(_, tz) => tz != Some([])
    case List(f) => ProperTimezones(f.dataType)
    case FixedSizeList(f, _) => ProperTimezones(f.dataType)
    case LargeList(f) => ProperTimezones(f.dataType)
    case Struct(fs) => forall i | 0 <= i < |fs| :: ProperTimezones(fs[i].dataType)
    case Union(fs) => forall i | 0 <= i < |fs| :: ProperTimezones(fs[i].dataType)
    case Dictionary(k, v) => ProperTimezones(k) && ProperTimezones(v)
    case _ => true
  }

  lemma {:induction false} NormalIsSame(t: DataType)
    ensures Normal(t) == t <==> ProperTimezones(t)
    decreases t
  {
    if t.List? || t.FixedSizeList? || t.LargeList? {
      NormalIsSame(t.item.dataType);
    } else if t.Struct? || t.Union? {
      NormalFieldsSame(t.fields);
    } else if t.Dictionary? {
      NormalIsSame(t.key);
      NormalIsSame(t.value);
    }
  }

  lemma {:induction false} NormalFieldsSame(fs: seq<Field>)
    ensures NormalFields(fs) == fs <==> forall i | 0 <= i < |fs| :: ProperTimezones(fs[i].dataType)
    decreases fs
  {
    var ns := NormalFields(fs);
    forall i | 0 <= i < |fs| ensures ns[i] == fs[i] <==> ProperTimezones(fs[i].dataType) {
      assert ns[i] == NormalField(fs[i]);
      NormalIsSame(fs[i].dataType);
    }
  }

  /** So a type comes back as it was if and only if no timezone in it is the empty string. */
  lemma TypeComesBack(t: DataType)
    ensures DecodeType(EncodeType(t)) == Some(t) <==> ProperTimezones(t)
  {
    TypeRoundTrip(t);
    NormalIsSame(t);
  }
}
