/** JSON values as far as the program looks at them. */
module Json {
  import opened Results

  datatype Json =
    | Null
    | Bool(flag: bool)
    | Int(n: int)
    | Double(r: real)
    | Str(s: string)
    | Array(elems: seq<Json>)
    | Object(fields: map<string, Json>)

  const INT64_MIN: int := -0x8000_0000_0000_0000
  const INT64_MAX: int := 0x7fff_ffff_ffff_ffff

  /** Only an object has keys; a key may hold null. */
  predicate Has(obj: Json, key: string) {
    obj.Object? && key in obj.fields
  }

  function Get(obj: Json, key: string): Option<Json> {
    if Has(obj, key) then Some(obj.fields[key]) else None
  }

  function GetString(obj: Json, key: string): Option<string> {
    match Get(obj, key)
    case Some(Str(s)) => Some(s)
    case _ => None
  }

  /** An integer above the 64-bit range is an error; one below it does not occur in parsed text. */
  function GetInt(obj: Json, key: string): Option<int> {
    match Get(obj, key)
    case Some(Int(n)) => if INT64_MIN <= n <= INT64_MAX then Some(n) else None
    case _ => None
  }

  /** A deep copy of a present value; null cannot be copied. */
  function Clone(obj: Json, key: string): Option<Json> {
    match Get(obj, key)
    case Some(v) => if v.Null? then None else Some(v)
    case None => None
  }
}
