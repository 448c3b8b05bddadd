/** A query parameter value: a string-encoded scalar, or a list of nested values when the type is
    ARRAY, tagged with its SQL type (and, for an array, the element type). Values are made by a
    mutable `Builder` whose `build` runs the cross-field checks of the private constructor, or by
    the factories that encode a Java value for a given type. */
module QueryParameterValues {
  import opened Wrappers
  import opened SqlTypes
  import opened JavaValues
  import Base64

  /** What the Java code throws. `IllegalArgument` carries the message of a `checkArgument` or an
      explicit `IllegalArgumentException`; `InvalidFormat` is Joda-Time's rejection of a literal;
      `NoEnumConstant` is `valueOf` of an unknown type name; `NullPointer` is `checkNotNull` or a
      dereference of `null`. */
  datatype Error =
    | IllegalArgument(message: string)
    | InvalidFormat(pattern: string, text: string)
    | NoEnumConstant(name: string)
    | NullPointer

  /** A Java `List<QueryParameterValue>` field that may be `null`. */
  datatype ParamList = NullList | ListOf(items: seq<Param>)

  /** The four fields of a built value. Only `Construct` makes one in the Java code, so every value
      reachable by a caller satisfies `WellFormed`. */
  datatype Param = Param(
    value: Option<string>,
    arrayValues: ParamList,
    sqlType: SqlType,
    arrayType: Option<SqlType>)

  const TypeMustBeArray := "type must be ARRAY if arrayValues is set"
  const ArrayTypeMustBeSet := "arrayType must be set if arrayValues is set"
  const ValueCantBeSet := "value can't be set if arrayValues is set"
  const TypeCantBeArray := "type can't be ARRAY if arrayValues is not set"
  const ArrayTypeCantBeSet := "arrayType can't be set if arrayValues is not set"
  const ValueMustBeSet := "value must be set if arrayValues is not set"

  /** The array shape: a list, type ARRAY, an element type, no scalar text. */
  predicate IsArrayShape(value: Option<string>, arrayValues: ParamList, sqlType: SqlType, arrayType: Option<SqlType>)
  {
    arrayValues.ListOf? && sqlType == ARRAY && arrayType.Some? && value.None?
  }

  /** The scalar shape: no list, a type other than ARRAY, no element type, a scalar text. */
  predicate IsScalarShape(value: Option<string>, arrayValues: ParamList, sqlType: SqlType, arrayType: Option<SqlType>)
  {
    arrayValues.NullList? && sqlType != ARRAY && arrayType.None? && value.Some?
  }

  /** The object invariant of a built value. It says nothing about the elements of a list: the
      constructor checks neither their types against `arrayType` nor their own shapes. */
  predicate WellFormed(p: Param)
  {
    IsArrayShape(p.value, p.arrayValues, p.sqlType, p.arrayType)
    || IsScalarShape(p.value, p.arrayValues, p.sqlType, p.arrayType)
  }

  /** The private constructor `QueryParameterValue(Builder)`: the checks run in source order and
      the first that fails decides the error; `checkNotNull(type)` comes last. */
  function Construct(value: Option<string>, arrayValues: ParamList, sqlType: Option<SqlType>, arrayType: Option<SqlType>): (r: Result<Param, Error>)
    ensures r.Ok? <==>
      sqlType.Some? &&
      (IsArrayShape(value, arrayValues, sqlType.value, arrayType) || IsScalarShape(value, arrayValues, sqlType.value, arrayType))
    ensures r.Ok? ==> r.value == Param(value, arrayValues, sqlType.value, arrayType) && WellFormed(r.value)
    ensures r.Err? ==> r.error == NullPointer || r.error.IllegalArgument?
  {
    if arrayValues.ListOf? then
      if sqlType != Some(ARRAY) then Err(IllegalArgument(TypeMustBeArray))
      else if arrayType.None? then Err(IllegalArgument(ArrayTypeMustBeSet))
      else if value.Some? then Err(IllegalArgument(ValueCantBeSet))
      else Ok(Param(value, arrayValues, ARRAY, arrayType))
    else
      if sqlType == Some(ARRAY) then Err(IllegalArgument(TypeCantBeArray))
      else if arrayType.Some? then Err(IllegalArgument(ArrayTypeCantBeSet))
      else if value.None? then Err(IllegalArgument(ValueMustBeSet))
      else if sqlType.None? then Err(NullPointer)
      else Ok(Param(value, arrayValues, sqlType.value, arrayType))
  }

  /** `QueryParameterValue.Builder`: four fields set by setters that validate nothing; `Build`
      hands them to the constructor. The setters' `return this` (for chaining) is left out. A
      `List` is a value here, so the copies `setArrayValues` and the copy constructor make are
      implicit: nothing done to a list later can reach a builder or a built value. */
  class Builder {
    var value: Option<string>
    var arrayValues: ParamList
    var sqlType: Option<SqlType>
    var arrayType: Option<SqlType>

    /** `newBuilder()`: every field `null`. */
    constructor ()
      ensures value.None? && arrayValues.NullList? && sqlType.None? && arrayType.None?
    {
      value := None;
      arrayValues := NullList;
      sqlType := None;
      arrayType := None;
    }

    /** `toBuilder()`: a builder holding the fields of `p`. */
    constructor FromParam(p: Param)
      ensures value == p.value && arrayValues == p.arrayValues
      ensures sqlType == Some(p.sqlType) && arrayType == p.arrayType
    {
      value := p.value;
      arrayValues := p.arrayValues;
      sqlType := Some(p.sqlType);
      arrayType := p.arrayType;
    }

    method SetValue(v: Option<string>)
      modifies this
      ensures value == v
      ensures arrayValues == old(arrayValues) && sqlType == old(sqlType) && arrayType == old(arrayType)
    {
      value := v;
    }

    method SetArrayValues(vs: ParamList)
      modifies this
      ensures arrayValues == vs
      ensures value == old(value) && sqlType == old(sqlType) && arrayType == old(arrayType)
    {
      arrayValues := vs;
    }

    /** `setType` rejects `null` with a NullPointerException and then leaves the builder as it was. */
    method SetType(t: Option<SqlType>) returns (r: Option<Error>)
      modifies this
      ensures r == (if t.None? then Some(NullPointer) else None)
      ensures sqlType == (if t.None? then old(sqlType) else t)
      ensures value == old(value) && arrayValues == old(arrayValues) && arrayType == old(arrayType)
    {
      if t.None? {
        return Some(NullPointer);
      }
      sqlType := t;
      r := None;
    }

    method SetArrayType(t: Option<SqlType>)
      modifies this
      ensures arrayType == t
      ensures value == old(value) && arrayValues == old(arrayValues) && sqlType == old(sqlType)
    {
      arrayType := t;
    }

    /** `build()`: the private constructor applied to the builder's fields; on success the value
        holds exactly those fields. */
    method Build() returns (r: Result<Param, Error>)
      ensures r == Construct(value, arrayValues, sqlType, arrayType)
      ensures r.Ok? ==> r.value == Param(value, arrayValues, sqlType.value, arrayType)
    {
      r := Construct(value, arrayValues, sqlType, arrayType);
    }
  }

  /** `toBuilder().build()` gives back the value it started from. */
  method ToBuilderBuild(p: Param) returns (r: Result<Param, Error>)
    requires WellFormed(p)
    ensures r == Ok(p)
  {
    var b := new Builder.FromParam(p);
    r := b.Build();
  }

  /** `Construct` applied to a well-formed value's own fields gives that value back. */
  lemma ConstructFieldsOf(p: Param)
    requires WellFormed(p)
    ensures Construct(p.value, p.arrayValues, Some(p.sqlType), p.arrayType) == Ok(p)
  {
  }

  /** A missing type is reported only when every shape check has passed: the constructor fails
      with a NullPointerException exactly for the scalar shape without a type. */
  lemma MissingTypeReportedLast(value: Option<string>, arrayValues: ParamList, arrayType: Option<SqlType>)
    ensures Construct(value, arrayValues, None, arrayType) == Err(NullPointer)
      <==> arrayValues.NullList? && arrayType.None? && value.Some?
  {
  }

  /** With a list, a type other than ARRAY is the first check to fail, whatever the value and the
      element type. */
  lemma ListWithoutArrayTypeRejected(value: Option<string>, vs: seq<Param>, sqlType: Option<SqlType>, arrayType: Option<SqlType>)
    requires sqlType != Some(ARRAY)
    ensures Construct(value, ListOf(vs), sqlType, arrayType) == Err(IllegalArgument(TypeMustBeArray))
  {
  }

  /** Without a list, type ARRAY is the first check to fail, whatever the value and element type. */
  lemma ArrayTypeWithoutListRejected(value: Option<string>, arrayType: Option<SqlType>)
    ensures Construct(value, NullList, Some(ARRAY), arrayType) == Err(IllegalArgument(TypeCantBeArray))
  {
  }

  /** Without a list, an element type is the next check to fail, whatever the value. */
  lemma ElementTypeWithoutListRejected(value: Option<string>, sqlType: Option<SqlType>, arrayType: SqlType)
    requires sqlType != Some(ARRAY)
    ensures Construct(value, NullList, sqlType, Some(arrayType)) == Err(IllegalArgument(ArrayTypeCantBeSet))
  {
  }

  /** Without a list, a missing value is reported before a missing type. */
  lemma MissingValueRejected(sqlType: Option<SqlType>)
    requires sqlType != Some(ARRAY)
    ensures Construct(None, NullList, sqlType, None) == Err(IllegalArgument(ValueMustBeSet))
  {
  }

  /** A list and a scalar text together are rejected. */
  lemma BothSetRejected(s: string, vs: seq<Param>, t: SqlType)
    ensures Construct(Some(s), ListOf(vs), Some(ARRAY), Some(t)) == Err(IllegalArgument(ValueCantBeSet))
  {
  }

  /** Neither a list nor a scalar text is rejected. */
  lemma NeitherSetRejected(t: Option<SqlType>)
    ensures Construct(None, NullList, t, None).Err?
  {
  }

  /** An ARRAY without an element type is rejected, before the value is looked at. */
  lemma ArrayWithoutElementTypeRejected(value: Option<string>, vs: seq<Param>)
    ensures Construct(value, ListOf(vs), Some(ARRAY), None) == Err(IllegalArgument(ArrayTypeMustBeSet))
  {
  }

  /** The constructor does not look inside the list: elements of any type, or of any shape, pass. */
  lemma ElementTypesNotChecked(vs: seq<Param>, t: SqlType)
    ensures Construct(None, ListOf(vs), Some(ARRAY), Some(t)).Ok?
  {
  }

  /** Nor does it refuse STRUCT as the type of a scalar, which the encoder never produces. */
  lemma StructScalarAccepted(s: string)
    ensures Construct(Some(s), NullList, Some(STRUCT), None) == Ok(Param(Some(s), NullList, STRUCT, None))
  {
  }

  /** `classToType`: the type a Java class maps to in the type-inferring factories. */
  function ClassToType(c: JavaClass): (r: Result<SqlType, Error>)
    ensures r.Ok? <==> !c.ByteArrayClass? && !c.OtherClass?
    ensures r.Ok? ==> Accepts(r.value, c) && r.value in {BOOL, STRING, INT64, FLOAT64}
    ensures c == BooleanClass ==> r == Ok(BOOL)
    ensures c == StringClass ==> r == Ok(STRING)
    ensures c == IntegerClass || c == LongClass ==> r == Ok(INT64)
    ensures c == DoubleClass || c == FloatClass ==> r == Ok(FLOAT64)
    ensures r.Err? ==> r.error == IllegalArgument("Unsupported object type for QueryParameter: " + ClassText(c))
  {
    if c == BooleanClass then Ok(BOOL)
    else if c == StringClass then Ok(STRING)
    else if c == IntegerClass then Ok(INT64)
    else if c == LongClass then Ok(INT64)
    else if c == DoubleClass then Ok(FLOAT64)
    else if c == FloatClass then Ok(FLOAT64)
    else Err(IllegalArgument("Unsupported object type for QueryParameter: " + ClassText(c)))
  }

  /** Whether the encoder accepts values of class `c` for type `t`, as the typed factories list
      them. STRING takes every value (through `toString`); ARRAY and STRUCT take none. */
  predicate Accepts(t: SqlType, c: JavaClass)
  {
    match t
    case BOOL => c == BooleanClass
    case INT64 => c == IntegerClass || c == LongClass
    case FLOAT64 => c == DoubleClass || c == FloatClass
    case BYTES => c == ByteArrayClass
    case STRING => !c.OtherClass?
    case TIMESTAMP => c == LongClass || c == StringClass
    case DATE | TIME | DATETIME => c == StringClass
    case ARRAY | STRUCT => false
  }

  /** The pattern a string literal of a temporal type must parse under. */
  function PatternOf(t: SqlType): Option<Pattern>
  {
    match t
    case TIMESTAMP => Some(TimestampPattern)
    case DATE => Some(DatePattern)
    case TIME => Some(TimePattern)
    case DATETIME => Some(DatetimePattern)
    case _ => None
  }

  /** `Object.toString()` of a non-null value. */
  function ToText(env: Env, v: NativeValue): string
    requires !v.Null?
  {
    match v
    case BooleanValue(b) => if b then "true" else "false"
    case IntegerValue(i) => DecimalText(i as int)
    case LongValue(l) => DecimalText(l as int)
    case DoubleValue(d) => env.doubleText(d)
    case FloatValue(f) => env.floatText(f)
    case StringValue(s) => s
    case ByteArrayValue(bytes) => env.byteArrayText(bytes)
  }

  /** The error for a value whose class the type does not accept. */
  function Incompatible(t: SqlType, v: NativeValue): Error
    requires !v.Null?
  {
    IllegalArgument("Type " + Name(t) + " incompatible with " + CanonicalName(ClassOf(v)))
  }

  /** A temporal string literal is checked against its pattern and otherwise passed through. */
  function CheckLiteral(env: Env, p: Pattern, s: string): (r: Result<Option<string>, Error>)
    ensures r.Ok? <==> env.parses(p, s)
    ensures r.Ok? ==> r.value == Some(s)
  {
    if env.parses(p, s) then Ok(Some(s)) else Err(InvalidFormat(PatternText(p), s))
  }

  /** `valueToStringOrNull`: the scalar text of a Java value for a declared type. */
  function ValueToStringOrNull(env: Env, v: NativeValue, t: SqlType): (r: Result<Option<string>, Error>)
    ensures v.Null? ==> r == Ok(None)
    ensures !v.Null? && t == ARRAY ==> r == Err(IllegalArgument("Cannot convert ARRAY to String value"))
    ensures !v.Null? && t == STRUCT ==> r == Err(IllegalArgument("Cannot convert STRUCT to String value"))
    ensures !v.Null? && !Accepts(t, ClassOf(v)) && t != ARRAY && t != STRUCT ==> r == Err(Incompatible(t, v))
    ensures !v.Null? ==>
      (r.Ok? <==> Accepts(t, ClassOf(v)) && (v.StringValue? && PatternOf(t).Some? ==> env.parses(PatternOf(t).value, v.s)))
    ensures !v.Null? && r.Ok? ==> r.value.Some?
    ensures v.StringValue? && PatternOf(t).Some? ==>
      r == if env.parses(PatternOf(t).value, v.s) then Ok(Some(v.s)) else Err(InvalidFormat(PatternText(PatternOf(t).value), v.s))
  {
    if v.Null? then Ok(None)
    else match t
      case BOOL => if v.BooleanValue? then Ok(Some(ToText(env, v))) else Err(Incompatible(t, v))
      case INT64 => if v.IntegerValue? || v.LongValue? then Ok(Some(ToText(env, v))) else Err(Incompatible(t, v))
      case FLOAT64 => if v.DoubleValue? || v.FloatValue? then Ok(Some(ToText(env, v))) else Err(Incompatible(t, v))
      case BYTES => if v.ByteArrayValue? then Ok(Some(Base64.Encode(v.bytes))) else Err(Incompatible(t, v))
      case STRING => Ok(Some(ToText(env, v)))
      case STRUCT => Err(IllegalArgument("Cannot convert STRUCT to String value"))
      case ARRAY => Err(IllegalArgument("Cannot convert ARRAY to String value"))
      case TIMESTAMP =>
        if v.LongValue? then Ok(Some(env.printTimestamp(JavaDiv(v.l as int, 1000))))
        else if v.StringValue? then CheckLiteral(env, TimestampPattern, v.s)
        else Err(Incompatible(t, v))
      case DATE => if v.StringValue? then CheckLiteral(env, DatePattern, v.s) else Err(Incompatible(t, v))
      case TIME => if v.StringValue? then CheckLiteral(env, TimePattern, v.s) else Err(Incompatible(t, v))
      case DATETIME => if v.StringValue? then CheckLiteral(env, DatetimePattern, v.s) else Err(Incompatible(t, v))
  }

  /** The text the encoder produces for each accepted value: `toString` for STRING (of any
      value) and for BOOL, INT64 and FLOAT64, base 64 for BYTES, and for a `Long` TIMESTAMP the
      instant of its truncated quotient by 1000. */
  lemma ValueToStringTexts(env: Env, v: NativeValue, t: SqlType)
    ensures !v.Null? && t == STRING ==> ValueToStringOrNull(env, v, t) == Ok(Some(ToText(env, v)))
    ensures !v.Null? && (t == BOOL || t == INT64 || t == FLOAT64) && Accepts(t, ClassOf(v)) ==>
      ValueToStringOrNull(env, v, t) == Ok(Some(ToText(env, v)))
    ensures v.ByteArrayValue? && t == BYTES ==> ValueToStringOrNull(env, v, t) == Ok(Some(Base64.Encode(v.bytes)))
    ensures v.LongValue? && t == TIMESTAMP ==>
      ValueToStringOrNull(env, v, t) == Ok(Some(env.printTimestamp(JavaDiv(v.l as int, 1000))))
  {
  }

  /** `of(value, type)`: the scalar text set as the value and the type set, then built. A `null`
      value leaves the value unset, which the constructor rejects; ARRAY and STRUCT are rejected
      by the encoder for any other value. */
  function Of(env: Env, v: NativeValue, t: SqlType): (r: Result<Param, Error>)
    ensures r.Ok? <==> !v.Null? && ValueToStringOrNull(env, v, t).Ok?
    ensures r.Ok? ==> WellFormed(r.value) && r.value.arrayValues.NullList? && r.value.arrayType.None?
    ensures r.Ok? ==> r.value.sqlType == t && t != ARRAY && t != STRUCT
    ensures r.Ok? ==> r.value.value == ValueToStringOrNull(env, v, t).value
    ensures v.Null? ==> r == Err(IllegalArgument(if t == ARRAY then TypeCantBeArray else ValueMustBeSet))
    ensures !v.Null? && ValueToStringOrNull(env, v, t).Err? ==> r == Err(ValueToStringOrNull(env, v, t).error)
  {
    match ValueToStringOrNull(env, v, t)
    case Err(e) => Err(e)
    case Ok(text) => Construct(text, NullList, Some(t), None)
  }

  /** `bool(Boolean)`. */
  function Bool(env: Env, b: bool): (r: Result<Param, Error>)
    ensures r == Ok(Param(Some(if b then "true" else "false"), NullList, BOOL, None))
  {
    Of(env, BooleanValue(b), BOOL)
  }

  /** `int64(Integer)`: an INT64 scalar holding `Integer.toString`, which reads back as the number. */
  function Int64OfInteger(env: Env, i: int32): (r: Result<Param, Error>)
    ensures r == Ok(Param(Some(DecimalText(i as int)), NullList, INT64, None))
    ensures ParseDecimal(r.value.value.value) == Some(i as int)
  {
    DecimalRoundTrip(i as int);
    Of(env, IntegerValue(i), INT64)
  }

  /** `int64(Long)`: an INT64 scalar holding `Long.toString`, which reads back as the number. */
  function Int64OfLong(env: Env, l: int64): (r: Result<Param, Error>)
    ensures r == Ok(Param(Some(DecimalText(l as int)), NullList, INT64, None))
    ensures ParseDecimal(r.value.value.value) == Some(l as int)
  {
    DecimalRoundTrip(l as int);
    Of(env, LongValue(l), INT64)
  }

  /** `float64(Double)`: `Double.toString` of the value. */
  function Float64OfDouble(env: Env, d: bv64): (r: Result<Param, Error>)
    ensures r == Ok(Param(Some(env.doubleText(d)), NullList, FLOAT64, None))
  {
    Of(env, DoubleValue(d), FLOAT64)
  }

  /** `float64(Float)`: `Float.toString` of the value. */
  function Float64OfFloat(env: Env, f: bv32): (r: Result<Param, Error>)
    ensures r == Ok(Param(Some(env.floatText(f)), NullList, FLOAT64, None))
  {
    Of(env, FloatValue(f), FLOAT64)
  }

  /** `string(String)`: the text unchanged. */
  function StringParam(env: Env, s: string): (r: Result<Param, Error>)
    ensures r == Ok(Param(Some(s), NullList, STRING, None))
  {
    Of(env, StringValue(s), STRING)
  }

  /** `bytes(byte[])`: a BYTES scalar holding the base 64 text, from which the bytes can be
      recovered. */
  function Bytes(env: Env, bytes: seq<byte>): (r: Result<Param, Error>)
    ensures r == Ok(Param(Some(Base64.Encode(bytes)), NullList, BYTES, None))
    ensures Base64.Decode(r.value.value.value) == Some(bytes)
  {
    Base64.RoundTrip(bytes);
    Of(env, ByteArrayValue(bytes), BYTES)
  }

  /** `timestamp(Long)`: the value is divided by 1000 with Java's division, which truncates toward
      zero (`JavaDiv`), and the quotient printed as a UTC instant in milliseconds. */
  function TimestampOfLong(env: Env, l: int64): (r: Result<Param, Error>)
    ensures r == Ok(Param(Some(env.printTimestamp(JavaDiv(l as int, 1000))), NullList, TIMESTAMP, None))
  {
    Of(env, LongValue(l), TIMESTAMP)
  }

  /** The instant printed is the truncated quotient, not the floored or the rounded one: -1500
      prints instant -1 and 1500 prints instant 1. */
  lemma TimestampTruncates(env: Env)
    ensures TimestampOfLong(env, -1500) == Ok(Param(Some(env.printTimestamp(-1)), NullList, TIMESTAMP, None))
    ensures TimestampOfLong(env, 1500) == Ok(Param(Some(env.printTimestamp(1)), NullList, TIMESTAMP, None))
  {
  }

  /** `timestamp(String)`, `date`, `time`, `dateTime`: the literal unchanged when it parses under
      the type's pattern, Joda's rejection otherwise. */
  function TemporalLiteral(env: Env, s: string, t: SqlType): (r: Result<Param, Error>)
    requires PatternOf(t).Some?
    ensures r.Ok? <==> env.parses(PatternOf(t).value, s)
    ensures r.Ok? ==> r.value == Param(Some(s), NullList, t, None)
    ensures r.Err? ==> r.error == InvalidFormat(PatternText(PatternOf(t).value), s)
  {
    Of(env, StringValue(s), t)
  }

  /** `of(value, Class)`: the type inferred from the class, then `of(value, type)`. */
  function OfClass(env: Env, v: NativeValue, c: JavaClass): (r: Result<Param, Error>)
    ensures ClassToType(c).Err? ==> r == Err(ClassToType(c).error)
    ensures ClassToType(c).Ok? ==> r == Of(env, v, ClassToType(c).value)
  {
    match ClassToType(c)
    case Err(e) => Err(e)
    case Ok(t) => Of(env, v, t)
  }

  /** Type inference is closed over the five boxed kinds and `String`: a class has a type exactly
      when it is one of them, and the inferred type accepts every value of that class. */
  lemma InferredTypeAccepts(env: Env, v: NativeValue)
    requires !v.Null?
    ensures ClassToType(ClassOf(v)).Ok? <==> !v.ByteArrayValue?
    ensures ClassToType(ClassOf(v)).Ok? ==>
      var t := ClassToType(ClassOf(v)).value;
      Accepts(t, ClassOf(v)) && PatternOf(t).None? && OfClass(env, v, ClassOf(v)).Ok?
  {
  }

  /** Examples of inference: `true` is BOOL, `42` is INT64, a double is FLOAT64. */
  lemma InferenceExamples(env: Env, d: bv64)
    ensures OfClass(env, BooleanValue(true), BooleanClass) == Ok(Param(Some("true"), NullList, BOOL, None))
    ensures OfClass(env, IntegerValue(42), IntegerClass) == Ok(Param(Some("42"), NullList, INT64, None))
    ensures OfClass(env, DoubleValue(d), DoubleClass).Ok? && OfClass(env, DoubleValue(d), DoubleClass).value.sqlType == FLOAT64
  {
    assert DecimalText(42) == "42";
  }

  /** `array(values, type)` as a value: each element built by `of(element, type)`, in order, the
      first failing element's error otherwise. */
  function ArrayOf(env: Env, arr: seq<NativeValue>, t: SqlType): (r: Result<Param, Error>)
    ensures r.Ok? <==> forall i :: 0 <= i < |arr| ==> Of(env, arr[i], t).Ok?
    ensures r.Ok? ==>
      && WellFormed(r.value) && r.value.sqlType == ARRAY && r.value.arrayType == Some(t)
      && r.value.value.None? && r.value.arrayValues.ListOf?
      && |r.value.arrayValues.items| == |arr|
      && forall i :: 0 <= i < |arr| ==> r.value.arrayValues.items[i] == Of(env, arr[i], t).value
    ensures r.Err? ==> exists k :: 0 <= k < |arr| && Of(env, arr[k], t) == Err(r.error) && forall j :: 0 <= j < k ==> Of(env, arr[j], t).Ok?
  {
    var built := seq(|arr|, i requires 0 <= i < |arr| => Of(env, arr[i], t));
    assert forall i :: 0 <= i < |arr| ==> built[i] == Of(env, arr[i], t);
    match Collect(built)
    case Err(e) => Err(e)
    case Ok(items) => Construct(None, ListOf(items), Some(ARRAY), Some(t))
  }

  /** `array(values, type)`: a loop that builds each element and adds it to a list, then a
      builder with the list, type ARRAY and the element type. */
  method BuildArray(env: Env, arr: seq<NativeValue>, t: SqlType) returns (r: Result<Param, Error>)
    ensures r == ArrayOf(env, arr, t)
  {
    var listValues: seq<Param> := [];
    for i := 0 to |arr|
      invariant |listValues| == i
      invariant forall j :: 0 <= j < i ==> Of(env, arr[j], t).Ok? && listValues[j] == Of(env, arr[j], t).value
    {
      var element := Of(env, arr[i], t);
      if element.Err? {
        FirstErrorWins(seq(|arr|, k requires 0 <= k < |arr| => Of(env, arr[k], t)), i);
        return Err(element.error);
      }
      listValues := listValues + [element.value];
    }
    ghost var expected := ArrayOf(env, arr, t);
    assert expected.Ok? && expected.value.arrayValues.items == listValues;
    var b := new Builder();
    b.SetArrayValues(ListOf(listValues));
    var _ := b.SetType(Some(ARRAY));
    b.SetArrayType(Some(t));
    r := b.Build();
  }

  /** An empty array is built: a present, empty list, not a missing one. */
  lemma EmptyArrayBuilds(env: Env, t: SqlType)
    ensures ArrayOf(env, [], t) == Ok(Param(None, ListOf([]), ARRAY, Some(t)))
  {
  }

  /** `[1, 2, 3]` as INT64 gives three INT64 scalars with texts "1", "2", "3". */
  lemma ArrayExample(env: Env)
    ensures ArrayOf(env, [LongValue(1), LongValue(2), LongValue(3)], INT64) ==
      Ok(Param(None, ListOf([
        Param(Some("1"), NullList, INT64, None),
        Param(Some("2"), NullList, INT64, None),
        Param(Some("3"), NullList, INT64, None)]), ARRAY, Some(INT64)))
  {
    assert DecimalText(1) == "1" && DecimalText(2) == "2" && DecimalText(3) == "3";
    assert Of(env, LongValue(1), INT64) == Ok(Param(Some("1"), NullList, INT64, None));
    assert Of(env, LongValue(2), INT64) == Ok(Param(Some("2"), NullList, INT64, None));
    assert Of(env, LongValue(3), INT64) == Ok(Param(Some("3"), NullList, INT64, None));
    var arr := [LongValue(1), LongValue(2), LongValue(3)];
    var r := ArrayOf(env, arr, INT64);
    assert r.Ok? && |r.value.arrayValues.items| == 3;
    assert r.value.arrayValues.items == [
        Param(Some("1"), NullList, INT64, None),
        Param(Some("2"), NullList, INT64, None),
        Param(Some("3"), NullList, INT64, None)];
  }

  /** `array(values, Class)`: the element type inferred from the class. */
  function ArrayOfClass(env: Env, arr: seq<NativeValue>, c: JavaClass): (r: Result<Param, Error>)
    ensures ClassToType(c).Err? ==> r == Err(ClassToType(c).error)
    ensures ClassToType(c).Ok? ==> r == ArrayOf(env, arr, ClassToType(c).value)
  {
    match ClassToType(c)
    case Err(e) => Err(e)
    case Ok(t) => ArrayOf(env, arr, t)
  }
}
