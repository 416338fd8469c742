/** JSON values as the relay handles them: objects are field maps. */
module Json {

  /** A parsed JSON value; numbers are kept as integers (floating point is not modelled). */
  datatype Json =
    | JNull
    | JBool(b: bool)
    | JNum(n: int)
    | JStr(s: string)
    | JArr(items: seq<Json>)
    | JObj(fields: map<string, Json>)

  /** The fields of an object literal. Object spread `{...a, ...b}` is `a + b`: the right operand wins. */
  type Fields = map<string, Json>

  /** The fields that `...v` copies into an object literal: those of an object, none of a scalar. */
  function Spread(v: Json): (fields: Fields)
    ensures v.JObj? ==> fields == v.fields
    ensures !v.JObj? ==> fields == map[]
  {
    if v.JObj? then v.fields else map[]
  }
}
