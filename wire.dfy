/** Conversion between a query parameter value and the pair of API objects it is sent as: a value
    object holding the scalar text or the element value objects, and a type object holding the
    type name and, for an array, a nested type object for the element type. */
module Wire {
  import opened Wrappers
  import opened SqlTypes
  import opened QueryParameterValues

  /** The `arrayValues` list of a value object, which may be `null`. */
  datatype PbList = NullPbList | PbListOf(items: seq<ValuePb>)

  /** The API's `QueryParameterValue` object. */
  datatype ValuePb = ValuePb(value: Option<string>, arrayValues: PbList)

  /** The API's `QueryParameterType` object. */
  datatype TypePb = TypePb(typeName: string, arrayType: Option<TypePb>)

  /** The elements of a value object's list; none when the list is `null`. */
  function PbItems(v: ValuePb): seq<ValuePb>
  {
    if v.arrayValues.PbListOf? then v.arrayValues.items else []
  }

  /** `toValuePb`: the scalar text, and the elements' value objects when the list is non-empty.
      An empty list is not sent: it leaves the object's list `null`. */
  function ToValuePb(p: Param): (r: ValuePb)
    ensures r.value == p.value
    ensures r.arrayValues.PbListOf? <==> p.arrayValues.ListOf? && |p.arrayValues.items| > 0
    ensures r.arrayValues.PbListOf? ==> |r.arrayValues.items| == |p.arrayValues.items|
  {
    if p.arrayValues.ListOf? && |p.arrayValues.items| > 0 then
      var items := p.arrayValues.items;
      ValuePb(p.value, PbListOf(seq(|items|, i requires 0 <= i < |items| => ToValuePb(items[i]))))
    else
      ValuePb(p.value, NullPbList)
  }

  /** `toTypePb`: the type name, and a type object for the element type when there is one. */
  function ToTypePb(p: Param): (r: TypePb)
    ensures ValueOf(r.typeName) == Some(p.sqlType)
    ensures r.arrayType.Some? <==> p.arrayType.Some?
    ensures r.arrayType.Some? ==> ValueOf(r.arrayType.value.typeName) == p.arrayType && r.arrayType.value.arrayType.None?
  {
    ValueOfName(p.sqlType);
    if p.arrayType.Some? then
      ValueOfName(p.arrayType.value);
      TypePb(Name(p.sqlType), Some(TypePb(Name(p.arrayType.value), None)))
    else
      TypePb(Name(p.sqlType), None)
  }

  /** The scalar path of `fromPb`: look the type name up, then construct. */
  function ReadScalar(value: Option<string>, typeName: string): Result<Param, Error>
  {
    match ValueOf(typeName)
    case None => Err(NoEnumConstant(typeName))
    case Some(ty) => Construct(value, NullList, Some(ty), None)
  }

  /** The array path of `fromPb` once the elements are read: look the element type name up, then
      the type name, then construct. */
  function ReadArray(value: Option<string>, elements: Result<seq<Param>, Error>, elementType: string, typeName: string): Result<Param, Error>
  {
    match elements
    case Err(e) => Err(e)
    case Ok(values) =>
      match ValueOf(elementType)
      case None => Err(NoEnumConstant(elementType))
      case Some(at) =>
        match ValueOf(typeName)
        case None => Err(NoEnumConstant(typeName))
        case Some(ty) => Construct(value, ListOf(values), Some(ty), Some(at))
  }

  /** Each element object read with the element type object. */
  function ReadElements(items: seq<ValuePb>, elementType: TypePb, ghost v: ValuePb): seq<Result<Param, Error>>
    requires forall i :: 0 <= i < |items| ==> items[i] < v
    decreases v, 0
  {
    seq(|items|, i requires 0 <= i < |items| => FromPb(items[i], elementType))
  }

  /** `fromPb`: when the value object has a non-empty list, each element is read with the element
      type object (a NullPointerException if there is none), then the element type name is looked
      up; the type name is looked up last, and the builder's checks decide. The elements' own
      types are never compared with the element type. */
  function FromPb(v: ValuePb, t: TypePb): (r: Result<Param, Error>)
    ensures r.Ok? ==> WellFormed(r.value) && r.value.value == v.value
    ensures |PbItems(v)| > 0 && t.arrayType.None? ==> r == Err(NullPointer)
    decreases v, 1
  {
    var items := PbItems(v);
    if |items| > 0 then
      if t.arrayType.None? then Err(NullPointer)
      else
        var elementType := t.arrayType.value;
        ReadArray(v.value, Collect(ReadElements(items, elementType, v)), elementType.typeName, t.typeName)
    else
      ReadScalar(v.value, t.typeName)
  }

  /** What `fromPb` can return: a well-formed value of the named type carrying the object's text;
      an unknown type name, or element type name, is always an error, reported as such when there
      are no elements to read first; elements without an element type object are a
      NullPointerException. */
  lemma FromPbOutcome(v: ValuePb, t: TypePb)
    ensures var r := FromPb(v, t);
      && (r.Ok? ==> WellFormed(r.value) && ValueOf(t.typeName) == Some(r.value.sqlType) && r.value.value == v.value)
      && (ValueOf(t.typeName).None? ==> r.Err?)
      && (|PbItems(v)| == 0 && ValueOf(t.typeName).None? ==> r == Err(NoEnumConstant(t.typeName)))
      && (|PbItems(v)| > 0 && t.arrayType.None? ==> r == Err(NullPointer))
      && (|PbItems(v)| > 0 && t.arrayType.Some? && ValueOf(t.arrayType.value.typeName).None? ==> r.Err?)
  {
  }

  /** The loop of `fromPb` that reads each element object, recursively, into a new list; the
      first element that fails ends it. */
  method ParseElements(items: seq<ValuePb>, elementType: TypePb, ghost v: ValuePb) returns (r: Result<seq<Param>, Error>)
    requires forall i :: 0 <= i < |items| ==> items[i] < v
    ensures r == Collect(ReadElements(items, elementType, v))
    decreases items
  {
    var arrayValues: seq<Param> := [];
    for i := 0 to |items|
      invariant |arrayValues| == i
      invariant forall j :: 0 <= j < i ==> FromPb(items[j], elementType) == Ok(arrayValues[j])
    {
      var element := ParseFromPb(items[i], elementType);
      if element.Err? {
        FirstErrorWins(ReadElements(items, elementType, v), i);
        return Err(element.error);
      }
      arrayValues := arrayValues + [element.value];
    }
    AllOkCollects(ReadElements(items, elementType, v), arrayValues);
    r := Ok(arrayValues);
  }

  /** `fromPb` as the Java code runs it, filling a builder. */
  method ParseFromPb(v: ValuePb, t: TypePb) returns (r: Result<Param, Error>)
    ensures r == FromPb(v, t)
    decreases v
  {
    var builder := new Builder();
    builder.SetValue(v.value);
    var items := PbItems(v);
    if |items| > 0 {
      if t.arrayType.None? {
        return Err(NullPointer);
      }
      var elementType := t.arrayType.value;
      var elements := ParseElements(items, elementType, v);
      if elements.Err? {
        return Err(elements.error);
      }
      builder.SetArrayValues(ListOf(elements.value));
      var at := ValueOf(elementType.typeName);
      if at.None? {
        return Err(NoEnumConstant(elementType.typeName));
      }
      builder.SetArrayType(at);
    }
    var ty := ValueOf(t.typeName);
    if ty.None? {
      return Err(NoEnumConstant(t.typeName));
    }
    var _ := builder.SetType(ty);
    r := builder.Build();
  }

  /** `equals`: two values are equal when their value objects and their type objects are. */
  predicate Equals(p: Param, q: Param): (b: bool)
    ensures b ==> p.value == q.value && p.sqlType == q.sqlType && p.arrayType == q.arrayType
    ensures p == q ==> b
  {
    ToValuePb(p) == ToValuePb(q) && ToTypePb(p) == ToTypePb(q)
  }

  /** A scalar: a well-formed value without a list. */
  predicate IsScalar(p: Param)
  {
    WellFormed(p) && p.arrayValues.NullList?
  }

  /** An array whose elements are scalars of its element type. */
  predicate IsArrayOfScalars(p: Param)
  {
    && WellFormed(p) && p.arrayValues.ListOf?
    && forall i :: 0 <= i < |p.arrayValues.items| ==>
         IsScalar(p.arrayValues.items[i]) && Some(p.arrayValues.items[i].sqlType) == p.arrayType
  }

  /** The values the wire form reproduces: scalars, and non-empty arrays of scalars of the
      element type. */
  predicate RoundTrippable(p: Param)
  {
    IsScalar(p) || (IsArrayOfScalars(p) && |p.arrayValues.items| > 0)
  }

  lemma ScalarRoundTrip(p: Param)
    requires IsScalar(p)
    ensures FromPb(ToValuePb(p), ToTypePb(p)) == Ok(p)
  {
    ValueOfName(p.sqlType);
  }

  /** The type object of an element of an array of scalars is the array's element type object. */
  lemma ElementTypePb(p: Param, i: nat)
    requires IsArrayOfScalars(p) && i < |p.arrayValues.items|
    ensures ToTypePb(p.arrayValues.items[i]) == ToTypePb(p).arrayType.value
  {
    var e := p.arrayValues.items[i];
    ValueOfName(e.sqlType);
    NameOfValueOf(ToTypePb(p).arrayType.value.typeName, e.sqlType);
  }

  /** The element objects of a non-empty array of scalars read back as its elements. */
  lemma ElementsRoundTrip(p: Param)
    requires IsArrayOfScalars(p) && |p.arrayValues.items| > 0
    ensures Collect(ReadElements(PbItems(ToValuePb(p)), ToTypePb(p).arrayType.value, ToValuePb(p))) == Ok(p.arrayValues.items)
  {
    var v, items := ToValuePb(p), p.arrayValues.items;
    var elementType := ToTypePb(p).arrayType.value;
    var elements := ReadElements(PbItems(v), elementType, v);
    forall i | 0 <= i < |items|
      ensures elements[i] == Ok(items[i])
    {
      assert PbItems(v)[i] == ToValuePb(items[i]);
      ElementTypePb(p, i);
      ScalarRoundTrip(items[i]);
    }
    AllOkCollects(elements, items);
  }

  /** Reading back the value and type objects of a scalar or of a non-empty array of scalars of
      its element type gives the value back. */
  lemma RoundTrip(p: Param)
    requires RoundTrippable(p)
    ensures FromPb(ToValuePb(p), ToTypePb(p)) == Ok(p)
  {
    if IsScalar(p) {
      ScalarRoundTrip(p);
    } else {
      var v, t := ToValuePb(p), ToTypePb(p);
      ElementsRoundTrip(p);
      assert FromPb(v, t) == ReadArray(None, Ok(p.arrayValues.items), t.arrayType.value.typeName, t.typeName);
      ValueOfName(ARRAY);
      ValueOfName(p.arrayType.value);
    }
  }

  /** An empty array does not come back: its list is dropped on the way out, and reading a
      `null` list with type ARRAY fails the constructor's check. */
  lemma EmptyArrayRoundTripFails(p: Param)
    requires WellFormed(p) && p.arrayValues == ListOf([])
    ensures FromPb(ToValuePb(p), ToTypePb(p)) == Err(IllegalArgument(TypeCantBeArray))
  {
    ValueOfName(ARRAY);
  }

  /** Nor does an array of arrays: the type object carries one level of element type only. */
  lemma NestedArrayRoundTripFails(p: Param)
    requires WellFormed(p) && p.arrayValues.ListOf? && p.arrayType == Some(ARRAY)
    requires |p.arrayValues.items| > 0
    ensures FromPb(ToValuePb(p), ToTypePb(p)).Err?
  {
    var v, t := ToValuePb(p), ToTypePb(p);
    var first := p.arrayValues.items[0];
    var elementType := t.arrayType.value;
    assert PbItems(v)[0] == ToValuePb(first);
    ValueOfName(ARRAY);
    assert FromPb(ToValuePb(first), elementType).Err?;
    var elements := seq(|PbItems(v)|, i requires 0 <= i < |PbItems(v)| => FromPb(PbItems(v)[i], elementType));
    assert elements[0].Err?;
  }

  /** Every value `of` builds comes back from its wire form. */
  lemma OfRoundTrip(env: JavaValues.Env, x: JavaValues.NativeValue, t: SqlType)
    requires Of(env, x, t).Ok?
    ensures FromPb(ToValuePb(Of(env, x, t).value), ToTypePb(Of(env, x, t).value)) == Of(env, x, t)
  {
    ScalarRoundTrip(Of(env, x, t).value);
  }

  /** Every array `array` builds comes back from its wire form exactly when it is non-empty. */
  lemma ArrayOfRoundTrip(env: JavaValues.Env, arr: seq<JavaValues.NativeValue>, t: SqlType)
    requires ArrayOf(env, arr, t).Ok?
    ensures FromPb(ToValuePb(ArrayOf(env, arr, t).value), ToTypePb(ArrayOf(env, arr, t).value)) == ArrayOf(env, arr, t)
      <==> |arr| > 0
  {
    var p := ArrayOf(env, arr, t).value;
    if |arr| > 0 {
      forall i | 0 <= i < |p.arrayValues.items|
        ensures IsScalar(p.arrayValues.items[i]) && Some(p.arrayValues.items[i].sqlType) == p.arrayType
      {
        assert Of(env, arr[i], t).Ok?;
      }
      RoundTrip(p);
    } else {
      EmptyArrayRoundTripFails(p);
    }
  }

  /** On the values the wire form reproduces, `equals` is equality of all four fields. */
  lemma EqualsIsIdentity(p: Param, q: Param)
    requires RoundTrippable(p) && RoundTrippable(q)
    ensures Equals(p, q) <==> p == q
  {
    if Equals(p, q) {
      RoundTrip(p);
      RoundTrip(q);
    }
  }

  /** Outside them it is coarser: two arrays whose elements have different types but the same
      texts are equal, because element types are not sent. */
  lemma EqualsIgnoresElementTypes()
    ensures
      var p := Param(None, ListOf([Param(Some("1"), NullList, INT64, None)]), ARRAY, Some(INT64));
      var q := Param(None, ListOf([Param(Some("1"), NullList, STRING, None)]), ARRAY, Some(INT64));
      WellFormed(p) && WellFormed(q) && p != q && Equals(p, q)
  {
    var p := Param(None, ListOf([Param(Some("1"), NullList, INT64, None)]), ARRAY, Some(INT64));
    var q := Param(None, ListOf([Param(Some("1"), NullList, STRING, None)]), ARRAY, Some(INT64));
    assert ToValuePb(p).arrayValues.items == ToValuePb(q).arrayValues.items;
  }

  /** `fromPb` with the empty-array case repaired: a type object with an element type is read as an
      array, and a `null` list as an empty one. */
  function FromPbCorrected(v: ValuePb, t: TypePb): (r: Result<Param, Error>)
    ensures r.Ok? ==> WellFormed(r.value) && r.value.value == v.value
    ensures r.Ok? && t.arrayType.Some? ==> r.value.arrayValues.ListOf? && |r.value.arrayValues.items| == |PbItems(v)|
    ensures t.arrayType.None? ==> (r.Ok? ==> r.value.arrayValues.NullList?)
    decreases v, 1
  {
    var items := PbItems(v);
    if |items| > 0 || t.arrayType.Some? then
      if t.arrayType.None? then Err(NullPointer)
      else
        var elementType := t.arrayType.value;
        ReadArray(v.value, Collect(ReadElementsCorrected(items, elementType, v)), elementType.typeName, t.typeName)
    else
      ReadScalar(v.value, t.typeName)
  }

  /** Each element object read with the element type object, by the repaired reader. */
  function ReadElementsCorrected(items: seq<ValuePb>, elementType: TypePb, ghost v: ValuePb): seq<Result<Param, Error>>
    requires forall i :: 0 <= i < |items| ==> items[i] < v
    decreases v, 0
  {
    seq(|items|, i requires 0 <= i < |items| => FromPbCorrected(items[i], elementType))
  }

  lemma CorrectedScalarRoundTrip(p: Param)
    requires IsScalar(p)
    ensures FromPbCorrected(ToValuePb(p), ToTypePb(p)) == Ok(p)
  {
    ValueOfName(p.sqlType);
  }

  /** The element objects of an array of scalars, however many, read back as its elements. */
  lemma CorrectedElementsRoundTrip(p: Param)
    requires IsArrayOfScalars(p)
    ensures Collect(ReadElementsCorrected(PbItems(ToValuePb(p)), ToTypePb(p).arrayType.value, ToValuePb(p))) == Ok(p.arrayValues.items)
  {
    var v, items := ToValuePb(p), p.arrayValues.items;
    var elementType := ToTypePb(p).arrayType.value;
    var elements := ReadElementsCorrected(PbItems(v), elementType, v);
    forall i | 0 <= i < |items|
      ensures elements[i] == Ok(items[i])
    {
      assert PbItems(v)[i] == ToValuePb(items[i]);
      ElementTypePb(p, i);
      CorrectedScalarRoundTrip(items[i]);
    }
    AllOkCollects(elements, items);
  }

  /** With the repair, every scalar and every array of scalars of its element type, empty or not,
      comes back from its wire form. */
  lemma CorrectedRoundTrip(p: Param)
    requires IsScalar(p) || IsArrayOfScalars(p)
    ensures FromPbCorrected(ToValuePb(p), ToTypePb(p)) == Ok(p)
  {
    ValueOfName(p.sqlType);
    if IsArrayOfScalars(p) {
      var v, t := ToValuePb(p), ToTypePb(p);
      CorrectedElementsRoundTrip(p);
      assert FromPbCorrected(v, t) == ReadArray(None, Ok(p.arrayValues.items), t.arrayType.value.typeName, t.typeName);
      ValueOfName(p.arrayType.value);
    }
  }

  /** With the repair, every array `array` builds comes back from its wire form, the empty one
      included. */
  lemma ArrayOfRoundTripCorrected(env: JavaValues.Env, arr: seq<JavaValues.NativeValue>, t: SqlType)
    requires ArrayOf(env, arr, t).Ok?
    ensures FromPbCorrected(ToValuePb(ArrayOf(env, arr, t).value), ToTypePb(ArrayOf(env, arr, t).value)) == ArrayOf(env, arr, t)
  {
    var p := ArrayOf(env, arr, t).value;
    forall i | 0 <= i < |p.arrayValues.items|
      ensures IsScalar(p.arrayValues.items[i]) && Some(p.arrayValues.items[i].sqlType) == p.arrayType
    {
      assert Of(env, arr[i], t).Ok?;
    }
    CorrectedRoundTrip(p);
  }
}
