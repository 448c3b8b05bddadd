# Query parameter values of the BigQuery Java client

This project models `QueryParameterValue` of the BigQuery Java client. It is a typed query
parameter: a scalar encoded as a string, or (for type `ARRAY`) a list of nested values, tagged
with a standard SQL type name and, for an array, the element type. The model has four parts:

- **Builder and constructor.** `QueryParameterValues.Builder` is a class with the four mutable
  fields and their setters. `Construct` is the private constructor's cross-field validation, run
  in source order, with the first failing check deciding the error.
- **Type inference.** `ClassToType` is the closed mapping from the five boxed Java classes (`Boolean`,
  `Integer`, `Long`, `Double`, `Float`) and `String` to SQL types.
- **Scalar encoding.** `ValueToStringOrNull` is the switch on the declared type. The factories
  built on it are `Of`, the typed factories, `ArrayOf` and the loop `BuildArray`. A value is one
  of the runtime kinds the encoder tells apart (`JavaValues.NativeValue`). `BYTES` use the base
  64 encoding with padding of section 4 of RFC 4648 (module `Base64`, with a decoder proving it
  loses nothing). Integers use Java's decimal text (`JavaValues.DecimalText`, with a parser
  proving it lossless: every text reads back as its integer, so distinct integers get distinct
  texts).
- **Wire conversion.** `Wire.ToValuePb` and `Wire.ToTypePb` produce the API's value object and
  type object. `Wire.FromPb` is the function that reads them back, and `Wire.ParseFromPb` /
  `Wire.ParseElements` are the same read as the Java code does it: a builder and a loop that
  reads each element recursively. `Wire.Equals` is `equals`.

Errors are values of `QueryParameterValues.Error`:
- `IllegalArgument(message)` carries the exact message of a `checkArgument` or an
  `IllegalArgumentException`;
- `InvalidFormat` is Joda-Time's rejection of a literal;
- `NoEnumConstant` is `StandardSQLTypeName.valueOf` of an unknown name;
- `NullPointer` is `checkNotNull` or a dereference of `null`.

Library behaviour the code calls but that is not opened up is passed in as `JavaValues.Env`:
- whether a Joda pattern parses a text;
- the UTC timestamp formatter's `print`;
- `Double.toString` and `Float.toString`;
- `toString` of a `byte[]`.

Where the code does less than an exact, lossless round trip through the wire form, which
pairing `toValuePb`/`toTypePb` with `fromPb` suggests, or than `getArrayType`'s "data type of the
array elements" promises, the model follows the code:
- The constructor does not check that array elements have the element type, or any shape
  (`ElementTypesNotChecked`).
- An empty array does not survive the wire round trip (see Findings).

## Model

All source paths are under `google-cloud-bigquery/src/main/java/com/google/cloud/bigquery/`;
the table writes them out in full.

| member | source | states |
|---|---|---|
| QueryParameterValues.Construct | google-cloud-bigquery/src/main/java/com/google/cloud/bigquery/QueryParameterValue.java:137-156 | building succeeds exactly when the type is present and the fields have the array shape (list, ARRAY, element type, no value) or the scalar shape (no list, not ARRAY, no element type, a value); the result holds exactly those fields; failures are IllegalArgument or NullPointer |
| QueryParameterValues.MissingTypeReportedLast | google-cloud-bigquery/src/main/java/com/google/cloud/bigquery/QueryParameterValue.java:138-153 | a missing type gives a NullPointerException exactly when every shape check has passed, because `checkNotNull(type)` runs last |
| QueryParameterValues.BothSetRejected | google-cloud-bigquery/src/main/java/com/google/cloud/bigquery/QueryParameterValue.java:138-143 | a list together with a scalar text, with type ARRAY and an element type set, fails with "value can't be set if arrayValues is set" (with another type or no element type an earlier check fails first) |
| QueryParameterValues.NeitherSetRejected | google-cloud-bigquery/src/main/java/com/google/cloud/bigquery/QueryParameterValue.java:145-153 | neither a list nor a scalar text fails, whatever the type |
| QueryParameterValues.ArrayWithoutElementTypeRejected | google-cloud-bigquery/src/main/java/com/google/cloud/bigquery/QueryParameterValue.java:138-142 | an ARRAY list without element type fails with "arrayType must be set if arrayValues is set", whether or not a value is also set, since that check runs before the value check |
| QueryParameterValues.ElementTypesNotChecked | google-cloud-bigquery/src/main/java/com/google/cloud/bigquery/QueryParameterValue.java:138-144 | any list with type ARRAY and an element type is accepted: element types and shapes are not checked |
| QueryParameterValues.StructScalarAccepted | google-cloud-bigquery/src/main/java/com/google/cloud/bigquery/QueryParameterValue.java:145-153 | STRUCT is accepted as the type of a scalar at build time |
| QueryParameterValues.ListWithoutArrayTypeRejected | google-cloud-bigquery/src/main/java/com/google/cloud/bigquery/QueryParameterValue.java:137-140 | a list with a type other than ARRAY fails with "type must be ARRAY if arrayValues is set", whatever the value and element type |
| QueryParameterValues.ArrayTypeWithoutListRejected | google-cloud-bigquery/src/main/java/com/google/cloud/bigquery/QueryParameterValue.java:144-147 | type ARRAY without a list fails with "type can't be ARRAY if arrayValues is not set", whatever the value and element type |
| QueryParameterValues.ElementTypeWithoutListRejected | google-cloud-bigquery/src/main/java/com/google/cloud/bigquery/QueryParameterValue.java:144-148 | without a list, a type other than ARRAY and an element type fail with "arrayType can't be set if arrayValues is not set", whatever the value |
| QueryParameterValues.MissingValueRejected | google-cloud-bigquery/src/main/java/com/google/cloud/bigquery/QueryParameterValue.java:144-152 | without a list, element type or value, a type other than ARRAY (or none) fails with "value must be set if arrayValues is not set", before the missing type is noticed |
| QueryParameterValues.ConstructFieldsOf | google-cloud-bigquery/src/main/java/com/google/cloud/bigquery/QueryParameterValue.java:137-156 | the fields of a built value pass the checks again and give the same value |
| QueryParameterValues.Builder.constructor | google-cloud-bigquery/src/main/java/com/google/cloud/bigquery/QueryParameterValue.java:95 | a new builder has every field unset |
| QueryParameterValues.Builder.FromParam | google-cloud-bigquery/src/main/java/com/google/cloud/bigquery/QueryParameterValue.java:97-105 | the copy constructor takes over all four fields of a value |
| QueryParameterValues.Builder.SetValue | google-cloud-bigquery/src/main/java/com/google/cloud/bigquery/QueryParameterValue.java:108-111 | sets the value and leaves the other fields unchanged |
| QueryParameterValues.Builder.SetArrayValues | google-cloud-bigquery/src/main/java/com/google/cloud/bigquery/QueryParameterValue.java:114-117 | sets the list (a value, so later changes to the caller's list cannot reach it) and leaves the rest unchanged |
| QueryParameterValues.Builder.SetType | google-cloud-bigquery/src/main/java/com/google/cloud/bigquery/QueryParameterValue.java:120-123 | rejects a missing type with a NullPointerException and leaves the builder unchanged; otherwise sets the type only |
| QueryParameterValues.Builder.SetArrayType | google-cloud-bigquery/src/main/java/com/google/cloud/bigquery/QueryParameterValue.java:126-129 | sets the element type, which may be unset, and leaves the rest unchanged |
| QueryParameterValues.Builder.Build | google-cloud-bigquery/src/main/java/com/google/cloud/bigquery/QueryParameterValue.java:132-134 | the constructor's checks on the builder's current fields; on success a value holding exactly those fields |
| QueryParameterValues.ToBuilderBuild | google-cloud-bigquery/src/main/java/com/google/cloud/bigquery/QueryParameterValue.java:369-372 | `toBuilder().build()` gives back the value it started from |
| QueryParameterValues.ClassToType | google-cloud-bigquery/src/main/java/com/google/cloud/bigquery/QueryParameterValue.java:284-299 | a class has a type exactly when it is one of the five boxed classes or `String`: `Boolean` maps to BOOL, `String` to STRING, `Integer` and `Long` to INT64, `Double` and `Float` to FLOAT64; the type accepts that class and is BOOL, STRING, INT64 or FLOAT64; any other class fails with "Unsupported object type for QueryParameter: " followed by the class as Java prints it ("class …", "interface …", or a primitive's bare name) |
| JavaValues.ClassTextExamples | google-cloud-bigquery/src/main/java/com/google/cloud/bigquery/QueryParameterValue.java:298 | a class prints as Java's `Class.toString`: `int` as "int", an interface as "interface …", `Integer` as "class java.lang.Integer" |
| QueryParameterValues.CheckLiteral | google-cloud-bigquery/src/main/java/com/google/cloud/bigquery/QueryParameterValue.java:335-338 | a temporal literal is accepted exactly when it parses under the pattern, and then returned unchanged |
| QueryParameterValues.ValueToStringOrNull | google-cloud-bigquery/src/main/java/com/google/cloud/bigquery/QueryParameterValue.java:301-367 | `null` gives no text; ARRAY and STRUCT always fail with their messages; any other type fails with "Type … incompatible with …" on a class it does not accept; a text is produced exactly when the class is accepted and a temporal literal parses; a string literal of a temporal type is returned unchanged or rejected as malformed |
| QueryParameterValues.ValueToStringTexts | google-cloud-bigquery/src/main/java/com/google/cloud/bigquery/QueryParameterValue.java:301-334 | the text produced: `toString` of any value for STRING and of an accepted value for BOOL, INT64 and FLOAT64; the base 64 encoding for a `byte[]` as BYTES; for a `Long` as TIMESTAMP the printed instant of the value divided by 1000 with Java's truncating division |
| QueryParameterValues.Of | google-cloud-bigquery/src/main/java/com/google/cloud/bigquery/QueryParameterValue.java:183-189 | succeeds exactly on a non-null value the encoder accepts, giving a well-formed scalar of that type (never ARRAY or STRUCT) carrying the encoder's text; `null` fails with "value must be set…" (or "type can't be ARRAY…" for ARRAY); an encoder error is passed on |
| QueryParameterValues.OfClass | google-cloud-bigquery/src/main/java/com/google/cloud/bigquery/QueryParameterValue.java:178-181 | an unsupported class fails with the inference error; otherwise it is `of` with the inferred type |
| QueryParameterValues.InferredTypeAccepts | google-cloud-bigquery/src/main/java/com/google/cloud/bigquery/QueryParameterValue.java:284-299 | type inference covers every runtime kind except `byte[]`, and `of(value, value.getClass())` then always succeeds |
| QueryParameterValues.InferenceExamples | google-cloud-bigquery/src/main/java/com/google/cloud/bigquery/QueryParameterValue.java:178-181 | `true` gives BOOL "true", `42` gives INT64 "42", a double gives FLOAT64 |
| QueryParameterValues.Bool | google-cloud-bigquery/src/main/java/com/google/cloud/bigquery/QueryParameterValue.java:191-194 | a BOOL scalar with text "true" or "false" |
| QueryParameterValues.Int64OfLong | google-cloud-bigquery/src/main/java/com/google/cloud/bigquery/QueryParameterValue.java:196-199 | exactly the INT64 scalar holding the decimal text of the number, with no list or element type; that text reads back as the number |
| QueryParameterValues.Int64OfInteger | google-cloud-bigquery/src/main/java/com/google/cloud/bigquery/QueryParameterValue.java:201-204 | exactly the INT64 scalar holding the decimal text of the number, with no list or element type; that text reads back as the number |
| QueryParameterValues.Float64OfDouble | google-cloud-bigquery/src/main/java/com/google/cloud/bigquery/QueryParameterValue.java:206-209 | a FLOAT64 scalar with `Double.toString` of the value |
| QueryParameterValues.Float64OfFloat | google-cloud-bigquery/src/main/java/com/google/cloud/bigquery/QueryParameterValue.java:211-214 | a FLOAT64 scalar with `Float.toString` of the value |
| QueryParameterValues.StringParam | google-cloud-bigquery/src/main/java/com/google/cloud/bigquery/QueryParameterValue.java:216-219 | a STRING scalar with the text unchanged |
| QueryParameterValues.Bytes | google-cloud-bigquery/src/main/java/com/google/cloud/bigquery/QueryParameterValue.java:221-224 | exactly the BYTES scalar holding the base 64 encoding of the bytes, with no list or element type; that text decodes back to the bytes |
| QueryParameterValues.TimestampOfLong | google-cloud-bigquery/src/main/java/com/google/cloud/bigquery/QueryParameterValue.java:226-229 | exactly the TIMESTAMP scalar holding the printed instant of the value divided by 1000 with Java's truncating division (`JavaDiv`), with no list or element type |
| QueryParameterValues.TimestampTruncates | google-cloud-bigquery/src/main/java/com/google/cloud/bigquery/QueryParameterValue.java:226-229 | -1500 prints instant -1 and 1500 prints instant 1: the quotient is truncated toward zero, not floored |
| QueryParameterValues.TemporalLiteral | google-cloud-bigquery/src/main/java/com/google/cloud/bigquery/QueryParameterValue.java:231-259 | `timestamp(String)`, `date`, `time`, `dateTime` succeed exactly when the literal parses under the type's pattern, with the literal unchanged; otherwise they fail as malformed under that pattern |
| QueryParameterValues.ArrayOf | google-cloud-bigquery/src/main/java/com/google/cloud/bigquery/QueryParameterValue.java:269-282 | succeeds exactly when every element does; the result is an ARRAY with the given element type whose element i is `of(arr[i], t)`, same length and order; otherwise the error of the first failing element |
| QueryParameterValues.BuildArray | google-cloud-bigquery/src/main/java/com/google/cloud/bigquery/QueryParameterValue.java:272-282 | the loop and the builder compute `ArrayOf` |
| QueryParameterValues.EmptyArrayBuilds | google-cloud-bigquery/src/main/java/com/google/cloud/bigquery/QueryParameterValue.java:272-282 | an empty input gives an ARRAY with an empty, present list |
| QueryParameterValues.ArrayExample | google-cloud-bigquery/src/main/java/com/google/cloud/bigquery/QueryParameterValue.java:272-282 | `[1, 2, 3]` as INT64 gives three INT64 scalars "1", "2", "3" |
| QueryParameterValues.ArrayOfClass | google-cloud-bigquery/src/main/java/com/google/cloud/bigquery/QueryParameterValue.java:261-267 | an unsupported class fails with the inference error; otherwise `array` with the inferred element type |
| Wire.ToValuePb | google-cloud-bigquery/src/main/java/com/google/cloud/bigquery/QueryParameterValue.java:401-410 | the object carries the value's text, and a list exactly when the value's list is present and non-empty, of the same length |
| Wire.ToTypePb | google-cloud-bigquery/src/main/java/com/google/cloud/bigquery/QueryParameterValue.java:412-421 | the type name reads back as the type; an element type object exactly when there is an element type, naming it, with no nested element type |
| Wire.FromPb | google-cloud-bigquery/src/main/java/com/google/cloud/bigquery/QueryParameterValue.java:423-440 | a read value is well formed and carries the object's text; elements without an element type object fail with a NullPointerException |
| Wire.FromPbOutcome | google-cloud-bigquery/src/main/java/com/google/cloud/bigquery/QueryParameterValue.java:423-440 | a read value is well formed, of the named type, with the object's text; an unknown type or element type name always fails (with "No enum constant" when there are no elements); elements without an element type object fail with a NullPointerException |
| Wire.ParseElements | google-cloud-bigquery/src/main/java/com/google/cloud/bigquery/QueryParameterValue.java:429-433 | the loop reads each element in order and stops at the first failure, as `Collect` of the element reads |
| Wire.ParseFromPb | google-cloud-bigquery/src/main/java/com/google/cloud/bigquery/QueryParameterValue.java:423-440 | the builder-based reading computes `FromPb` |
| Wire.ScalarRoundTrip | google-cloud-bigquery/src/main/java/com/google/cloud/bigquery/QueryParameterValue.java:401-440 | every scalar comes back from its value and type objects |
| Wire.ElementsRoundTrip | google-cloud-bigquery/src/main/java/com/google/cloud/bigquery/QueryParameterValue.java:428-433 | the element objects of a non-empty array of scalars of its element type read back as its elements |
| Wire.RoundTrip | google-cloud-bigquery/src/main/java/com/google/cloud/bigquery/QueryParameterValue.java:401-440 | every scalar, and every non-empty array of scalars of its element type, comes back from its wire form |
| Wire.EmptyArrayRoundTripFails | google-cloud-bigquery/src/main/java/com/google/cloud/bigquery/QueryParameterValue.java:401-440 | an empty array's wire form fails to read back, with "type can't be ARRAY if arrayValues is not set" |
| Wire.NestedArrayRoundTripFails | google-cloud-bigquery/src/main/java/com/google/cloud/bigquery/QueryParameterValue.java:412-421 | an array of arrays does not read back, since the type object holds one level of element type |
| Wire.OfRoundTrip | google-cloud-bigquery/src/main/java/com/google/cloud/bigquery/QueryParameterValue.java:183-189 | every value `of` builds comes back from its wire form |
| Wire.ArrayOfRoundTrip | google-cloud-bigquery/src/main/java/com/google/cloud/bigquery/QueryParameterValue.java:272-282 | an array built by `array` comes back from its wire form exactly when it is non-empty |
| Wire.Equals | google-cloud-bigquery/src/main/java/com/google/cloud/bigquery/QueryParameterValue.java:394-399 | `equals` holds for identical values, and equal values have the same text, type and element type |
| Wire.EqualsIsIdentity | google-cloud-bigquery/src/main/java/com/google/cloud/bigquery/QueryParameterValue.java:394-399 | on scalars and non-empty arrays of scalars of the element type, `equals` holds exactly for identical values |
| Wire.EqualsIgnoresElementTypes | google-cloud-bigquery/src/main/java/com/google/cloud/bigquery/QueryParameterValue.java:394-399 | two different well-formed arrays whose elements differ only in type are `equals` |
| Wire.FromPbCorrected | google-cloud-bigquery/src/main/java/com/google/cloud/bigquery/QueryParameterValue.java:423-440 | the repaired reader gives well-formed values with the object's text; with an element type object the result has a present list with one element per element object, and without one it has no list |
| Wire.CorrectedRoundTrip | google-cloud-bigquery/src/main/java/com/google/cloud/bigquery/QueryParameterValue.java:423-440 | with `fromPb` repaired, every scalar and every array of scalars of its element type, empty or not, comes back |
| Wire.ArrayOfRoundTripCorrected | google-cloud-bigquery/src/main/java/com/google/cloud/bigquery/QueryParameterValue.java:272-282 | with the repair, every array `array` builds comes back, the empty one included |
| SqlTypes.ValueOf | google-cloud-bigquery/src/main/java/com/google/cloud/bigquery/QueryParameterValue.java:434-437 | `valueOf` finds a type with exactly the given name, and fails exactly when no type has that name |
| SqlTypes.ValueOfName | google-cloud-bigquery/src/main/java/com/google/cloud/bigquery/QueryParameterValue.java:412-421 | the name `toTypePb` writes reads back as the same type |
| SqlTypes.NameOfValueOf | google-cloud-bigquery/src/main/java/com/google/cloud/bigquery/QueryParameterValue.java:434-437 | a name reads as a type exactly when it is that type's name |
| SqlTypes.NameInjective | google-cloud-bigquery/src/main/java/com/google/cloud/bigquery/QueryParameterValue.java:412-421 | no two types share a name |
| Wrappers.Collect | google-cloud-bigquery/src/main/java/com/google/cloud/bigquery/QueryParameterValue.java:273-276 | a loop that adds each result to a list: every value in order if all succeed, otherwise the error of the first failure |
| Wrappers.FirstErrorWins | google-cloud-bigquery/src/main/java/com/google/cloud/bigquery/QueryParameterValue.java:273-276 | the first failing element decides the error |
| Wrappers.AllOkCollects | google-cloud-bigquery/src/main/java/com/google/cloud/bigquery/QueryParameterValue.java:429-433 | when no element fails, the list is exactly their values |
| JavaValues.DecimalRoundTrip | google-cloud-bigquery/src/main/java/com/google/cloud/bigquery/QueryParameterValue.java:311-314 | the decimal text of an integer reads back as that integer |
| JavaValues.DecimalTextInjective | google-cloud-bigquery/src/main/java/com/google/cloud/bigquery/QueryParameterValue.java:311-314 | distinct integers have distinct decimal texts |
| JavaValues.NatTextValue | google-cloud-bigquery/src/main/java/com/google/cloud/bigquery/QueryParameterValue.java:311-314 | the digits of a natural number denote that number |
| JavaValues.JavaDiv | google-cloud-bigquery/src/main/java/com/google/cloud/bigquery/QueryParameterValue.java:334 | Java's integer division truncates toward zero, for negative values too |
| Base64.Encode | google-cloud-bigquery/src/main/java/com/google/cloud/bigquery/QueryParameterValue.java:321-323 | the text is four characters per started group of three bytes, all from the alphabet or `=` |
| Base64.RoundTrip | google-cloud-bigquery/src/main/java/com/google/cloud/bigquery/QueryParameterValue.java:321-323 | decoding the encoding gives the bytes back |
| Base64.EncodeInjective | google-cloud-bigquery/src/main/java/com/google/cloud/bigquery/QueryParameterValue.java:321-323 | distinct byte sequences have distinct encodings |
| Base64.EncodeExample | google-cloud-bigquery/src/main/java/com/google/cloud/bigquery/QueryParameterValue.java:321-323 | the bytes 0, 1, 2 encode as "AAEC" |

## Left out

- Joda-Time is not opened up. Whether `parseMillis` accepts a literal under each of the four
  patterns, and what `print` writes for an instant, are parameters (`JavaValues.Env`). The
  patterns themselves are modelled (`PatternText`).
- `Double.toString`, `Float.toString` and `toString` of a `byte[]` are parameters as well, since
  they involve floating-point formatting and object identity. Java's `byte[]` text is an identity
  hash, which differs between two arrays with the same contents; in the model it is a function of
  the contents. It only appears as the STRING text of a `byte[]`, and no property relies on it.
- QueryParameterValues.TimestampOfLong: the contract states that the printed instant is Java's
  truncating quotient of the value by 1000 (`JavaDiv`). What the formatter writes for that
  instant is a parameter, so the unit the caller means is not decided here.
- The setters' `return this` (chaining) is not modelled; each setter is a method on the builder.
- Lists are values in the model, so the defensive copies of `setArrayValues`, the copy
  constructor and `ImmutableList.copyOf` hold by construction. Aliasing of a caller's list is not
  modelled.
- A null value, `setType(null)`, `setArrayValues(null)` (`NullList`) and `setArrayType(null)`
  (`None`) are modelled; other null arguments are not. This covers a null
  Java array passed to `array`, a null `Class`, a null `SqlType` passed to `of` or `array`, and
  null type names or null elements inside the API objects. A `null` element in a list given to
  `setArrayValues` is not modelled either: `ImmutableList.copyOf` in the constructor rejects it
  with a NullPointerException, while the model's lists hold only values.
- The typed factories (`Bool` through `Bytes`, `TimestampOfLong` and `TemporalLiteral`) take a
  non-null value. A null boxed argument is `Of` with `Null`, whose contract covers it.
- The `default` branch of the type switch (`UnsupportedOperationException`) cannot be reached:
  every constant of the closed enumeration has its own case.
- Type inference uses `isAssignableFrom`. The five boxed classes and `String` are final, so it is
  modelled as equality with them; any other class (a primitive such as `int`, an interface, an
  array class other than `byte[]`, or any other class) falls into `OtherClass`, with the kind that decides how Java prints
  it.
- `StandardSQLTypeName` is not among the modelled files. Its constants are the eleven names the
  encoder and its callers use, in declaration order, with `valueOf` a lookup by exact name.
- `Serializable`, `toString`, `hashCode` and the getters are not modelled. `hashCode` reads only
  the value and the list.
- The laziness of `Lists.transform` in `toValuePb` is not modelled: the element objects are
  computed at once, which gives the same values.
- `google-cloud-spanner/src/main/java/com/google/cloud/spanner/TraceUtil.java` is not part of
  this model. It is tracing glue with no bearing on parameter values.

## Findings

| source | as written | input that shows it | evidently intended | confidence | as-written member | corrected member |
|---|---|---|---|---|---|---|
| google-cloud-bigquery/src/main/java/com/google/cloud/bigquery/QueryParameterValue.java:401-440 | `toValuePb` leaves out an empty list (line 405); `fromPb` reads a list only when it is non-empty (line 428) and so builds type ARRAY without a list, which the constructor rejects (lines 146-148) | `array(new Long[0], INT64)`, then `fromPb` of its value and type objects: fails with "type can't be ARRAY if arrayValues is not set" | an empty array reads back as itself: a type object with an element type is an array, and a missing list an empty one | not executed | Wire.EmptyArrayRoundTripFails | Wire.FromPbCorrected, Wire.CorrectedRoundTrip |
