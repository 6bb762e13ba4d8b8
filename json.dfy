/** JSON-shaped values: what the scripts put into records and configuration dictionaries. */
module Json {

  datatype Value =
    | Null
    | Bool(b: bool)
    | Int(i: int)
    | Real(r: real)
    | Str(s: string)
    | Object(fields: map<string, Value>)

  /** A JSON object at top level, keyed by field name. */
  type Record = map<string, Value>

  /** The value is one of the listed strings. */
  predicate OneOf(v: Value, options: seq<string>)
  {
    v.Str? && v.s in options
  }

  /** The value is an integer in `[lo, hi]`. */
  predicate IntIn(v: Value, lo: int, hi: int)
  {
    v.Int? && lo <= v.i <= hi
  }
}
