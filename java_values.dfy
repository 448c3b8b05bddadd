/** The Java runtime values a query parameter can be created from, and the parts of the Java
    platform the encoding relies on: `toString` of the boxed kinds, truncating `long` division and
    the date-time formatters. */
module JavaValues {
  import opened Wrappers

  newtype int32 = x: int | -0x8000_0000 <= x < 0x8000_0000
  newtype int64 = x: int | -0x8000_0000_0000_0000 <= x < 0x8000_0000_0000_0000

  /** The bit pattern of one Java `byte`, read as unsigned. */
  newtype byte = x: int | 0 <= x < 256

  /** The runtime kinds the encoder distinguishes (with `instanceof`), plus `null`. A `Double` or
      `Float` is carried as its IEEE 754 bit pattern. */
  datatype NativeValue =
    | Null
    | BooleanValue(b: bool)
    | IntegerValue(i: int32)
    | LongValue(l: int64)
    | DoubleValue(d: bv64)
    | FloatValue(f: bv32)
    | StringValue(s: string)
    | ByteArrayValue(bytes: seq<byte>)

  /** What `Class.toString()` distinguishes: an ordinary (or array) class, an interface, or a
      primitive type such as `int.class`, which is a `Class<Integer>` and so can be passed where the
      factories expect one. */
  datatype ClassKind = OrdinaryClass | InterfaceClass | PrimitiveClass

  /** A `Class` object as passed to the type-inferring factories. `OtherClass` stands for any class
      other than `Boolean`, `String`, `Integer`, `Long`, `Double`, `Float` and `byte[]`, with its
      `getName()` and its kind. */
  datatype JavaClass =
    | BooleanClass | StringClass | IntegerClass | LongClass | DoubleClass | FloatClass
    | ByteArrayClass
    | OtherClass(name: string, kind: ClassKind)

  /** `value.getClass()` of a non-null value. */
  function ClassOf(v: NativeValue): (c: JavaClass)
    requires !v.Null?
    ensures !c.OtherClass?
  {
    match v
    case BooleanValue(_) => BooleanClass
    case IntegerValue(_) => IntegerClass
    case LongValue(_) => LongClass
    case DoubleValue(_) => DoubleClass
    case FloatValue(_) => FloatClass
    case StringValue(_) => StringClass
    case ByteArrayValue(_) => ByteArrayClass
  }

  /** `Class.getCanonicalName()` of the class of a value. */
  function CanonicalName(c: JavaClass): string
    requires !c.OtherClass?
  {
    match c
    case BooleanClass => "java.lang.Boolean"
    case StringClass => "java.lang.String"
    case IntegerClass => "java.lang.Integer"
    case LongClass => "java.lang.Long"
    case DoubleClass => "java.lang.Double"
    case FloatClass => "java.lang.Float"
    case ByteArrayClass => "byte[]"
  }

  /** `Class.toString()`: "interface " or "class " before the name, and the bare name for a
      primitive type. The name of `byte[]` is "[B". */
  function ClassText(c: JavaClass): string
  {
    match c
    case ByteArrayClass => "class [B"
    case OtherClass(name, OrdinaryClass) => "class " + name
    case OtherClass(name, InterfaceClass) => "interface " + name
    case OtherClass(name, PrimitiveClass) => name
    case _ => "class " + CanonicalName(c)
  }

  /** `int.class` prints as "int", `Runnable.class` as "interface Runnable" and `Integer.class` as
      "class java.lang.Integer". */
  lemma ClassTextExamples()
    ensures ClassText(OtherClass("int", PrimitiveClass)) == "int"
    ensures ClassText(OtherClass("Runnable", InterfaceClass)) == "interface Runnable"
    ensures ClassText(IntegerClass) == "class java.lang.Integer"
  {
    assert "interface " + "Runnable" == "interface Runnable";
    assert "class " + "java.lang.Integer" == "class java.lang.Integer";
  }

  /** The four Joda-Time patterns the encoder validates string literals against. */
  datatype Pattern = TimestampPattern | DatePattern | TimePattern | DatetimePattern

  function PatternText(p: Pattern): string
  {
    match p
    case TimestampPattern => "yyyy-MM-dd HH:mm:ss.SSSSSSZZ"
    case DatePattern => "yyyy-MM-dd"
    case TimePattern => "HH:mm:ss.SSSSSS"
    case DatetimePattern => "yyyy-MM-dd HH:mm:ss.SSSSSS"
  }

  /** The library code the encoder calls but this model does not open up, as total functions:
      whether Joda's `parseMillis` accepts a text under a pattern, the UTC timestamp formatter's
      `print` of a millisecond instant, `Double.toString`, `Float.toString`, and `Object.toString`
      of a `byte[]`. In Java the last is an identity-hash text, so two equal arrays print
      differently, while here it is a function of the contents; nothing in the model relies on
      either. */
  datatype Env = Env(
    parses: (Pattern, string) -> bool,
    printTimestamp: int -> string,
    doubleText: bv64 -> string,
    floatText: bv32 -> string,
    byteArrayText: seq<byte> -> string)

  predicate IsDigits(s: string)
  {
    forall i :: 0 <= i < |s| ==> '0' <= s[i] <= '9'
  }

  function DigitChar(d: nat): (c: char)
    requires d < 10
    ensures '0' <= c <= '9' && (c as int) - ('0' as int) == d
  {
    ('0' as int + d) as char
  }

  /** The decimal digits of `n`, most significant first, with no leading zero. */
  function NatText(n: nat): (s: string)
    ensures |s| >= 1 && IsDigits(s)
    ensures s[0] == '0' ==> n == 0
  {
    if n < 10 then [DigitChar(n)] else NatText(n / 10) + [DigitChar(n % 10)]
  }

  /** `Long.toString` / `Integer.toString`: an optional minus sign and the digits of the magnitude. */
  function DecimalText(i: int): (s: string)
    ensures |s| >= 1
    ensures i < 0 <==> s[0] == '-'
  {
    if i < 0 then "-" + NatText(-i) else NatText(i)
  }

  /** The number a string of decimal digits denotes. */
  function DigitsValue(s: string): nat
    requires IsDigits(s)
  {
    if s == [] then 0 else DigitsValue(s[..|s| - 1]) * 10 + ((s[|s| - 1] as int) - ('0' as int))
  }

  /** Reads back a decimal literal as written by `DecimalText` (the inverse used to show that the
      decimal form is lossless: every text reads back as its number, so distinct numbers get
      distinct texts). */
  function ParseDecimal(s: string): Option<int>
  {
    if |s| >= 2 && s[0] == '-' && IsDigits(s[1..]) then
      var magnitude: int := DigitsValue(s[1..]);
      Some(-magnitude)
    else if |s| >= 1 && IsDigits(s) then Some(DigitsValue(s))
    else None
  }

  lemma {:induction false} NatTextValue(n: nat)
    ensures DigitsValue(NatText(n)) == n
  {
    if n >= 10 {
      var s := NatText(n);
      assert s[..|s| - 1] == NatText(n / 10);
      NatTextValue(n / 10);
    }
  }

  /** Reading the decimal text of an integer gives the integer back. */
  lemma DecimalRoundTrip(i: int)
    ensures ParseDecimal(DecimalText(i)) == Some(i)
  {
    var s := DecimalText(i);
    if i < 0 {
      var digits := NatText(-i);
      assert s[1..] == digits;
      NatTextValue(-i);
      var magnitude: int := DigitsValue(digits);
      assert ParseDecimal(s) == Some(-magnitude);
    } else {
      assert s == NatText(i) && s[0] != '-';
      NatTextValue(i);
    }
  }

  /** Hence the decimal text is injective. */
  lemma DecimalTextInjective(i: int, j: int)
    ensures DecimalText(i) == DecimalText(j) ==> i == j
  {
    DecimalRoundTrip(i);
    DecimalRoundTrip(j);
  }

  /** Java's `/` on integers, which truncates toward zero (Dafny's `/` rounds toward minus
      infinity for a negative dividend). */
  function JavaDiv(a: int, b: int): (q: int)
    requires b > 0
    ensures a >= 0 ==> q >= 0 && q * b <= a < q * b + b
    ensures a < 0 ==> q <= 0 && q * b - b < a <= q * b
  {
    if a >= 0 then a / b else -((-a) / b)
  }
}
