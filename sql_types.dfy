/** The standard SQL type names a query parameter is tagged with (the enum `StandardSQLTypeName`),
    their wire tokens and the `valueOf` lookup that turns a token back into a type. */
module SqlTypes {
  import opened Wrappers

  /** The closed enumeration of type names. `ARRAY` tags a list of values; `STRUCT` exists in the
      enumeration but cannot be encoded from a value. */
  datatype SqlType =
    | BOOL | INT64 | FLOAT64 | STRING | BYTES | STRUCT | ARRAY
    | TIMESTAMP | DATE | TIME | DATETIME

  /** The enum constant's name, which `toString()` returns and which is the wire token. */
  function Name(t: SqlType): string
  {
    match t
    case BOOL => "BOOL"
    case INT64 => "INT64"
    case FLOAT64 => "FLOAT64"
    case STRING => "STRING"
    case BYTES => "BYTES"
    case STRUCT => "STRUCT"
    case ARRAY => "ARRAY"
    case TIMESTAMP => "TIMESTAMP"
    case DATE => "DATE"
    case TIME => "TIME"
    case DATETIME => "DATETIME"
  }

  /** The constants in declaration order, the table `valueOf` searches. */
  const AllTypes: seq<SqlType> :=
    [BOOL, INT64, FLOAT64, STRING, BYTES, STRUCT, ARRAY, TIMESTAMP, DATE, TIME, DATETIME]

  /** Every constant is in the table exactly once. */
  lemma AllTypesComplete(t: SqlType)
    ensures t in AllTypes
    ensures forall i, j :: 0 <= i < j < |AllTypes| ==> AllTypes[i] != AllTypes[j]
  {
  }

  /** No two constants share a name. */
  lemma NameInjective(a: SqlType, b: SqlType)
    ensures Name(a) == Name(b) ==> a == b
  {
    if Name(a) == Name(b) {
      // The names differ in length or in one of their first three letters.
      assert |Name(a)| == |Name(b)|;
      assert Name(a)[0] == Name(b)[0];
      assert |Name(a)| > 2 ==> Name(a)[2] == Name(b)[2];
      assert |Name(a)| > 4 ==> Name(a)[4] == Name(b)[4];
    }
  }

  /** The first constant of `ts` whose name is `name`, if any. */
  function Lookup(name: string, ts: seq<SqlType>): (r: Option<SqlType>)
    ensures r.Some? ==> r.value in ts && Name(r.value) == name
    ensures r.None? ==> forall i :: 0 <= i < |ts| ==> Name(ts[i]) != name
  {
    if ts == [] then None
    else if Name(ts[0]) == name then Some(ts[0])
    else Lookup(name, ts[1..])
  }

  /** `StandardSQLTypeName.valueOf(name)`: the constant with that name, or `None` where Java
      throws IllegalArgumentException ("No enum constant ..."). */
  function ValueOf(name: string): (r: Option<SqlType>)
    ensures r.Some? ==> Name(r.value) == name
    ensures r.None? <==> forall t: SqlType :: Name(t) != name
  {
    var r := Lookup(name, AllTypes);
    assert r.None? ==> forall t: SqlType :: Name(t) != name by {
      if r.None? {
        forall t: SqlType ensures Name(t) != name {
          AllTypesComplete(t);
        }
      }
    }
    r
  }

  /** `valueOf` inverts `toString`: the wire token of a type reads back as that type. */
  lemma ValueOfName(t: SqlType)
    ensures ValueOf(Name(t)) == Some(t)
  {
    var r := ValueOf(Name(t));
    NameInjective(r.value, t);
  }

  /** And `toString` inverts `valueOf` wherever the lookup succeeds. */
  lemma NameOfValueOf(name: string, t: SqlType)
    ensures ValueOf(name) == Some(t) <==> Name(t) == name
  {
    if Name(t) == name {
      ValueOfName(t);
    }
  }
}
