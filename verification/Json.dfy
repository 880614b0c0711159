/** JSON values as the source's dictionaries and lists hold them, and the typed
    look-ups it makes in them. The text form is left to a printer and a parser
    given as arguments where one is needed. */
module Json {
  import opened Schema

  /** significand * 2^exponent */
  datatype Binary = Binary(significand: int, exponent: int) {
    predicate Canonical() { significand % 2 != 0 || (significand == 0 && exponent == 0) }
  }

  /** Each number has one spelling. */
  type Double = b: Binary | b.Canonical() witness Binary(0, 0)

  datatype Json =
    | JNull
    | JBool(b: bool)
    | JInt(n: int)
    | JNumber(x: Double)
    | JString(s: string)
    | JList(items: seq<Json>)
    | JObject(fields: map<string, Json>)

  type Object = map<string, Json>

  /** `o.get(name)`: an absent field reads as null. */
  function Get(o: Object, name: string): Json {
    if name in o then o[name] else JNull
  }

  /** `o.get(name, o.get(other))`. */
  function GetEither(o: Object, name: string, other: string): Json {
    if name in o then o[name] else Get(o, other)
  }

  /** The value as a count, when `isinstance(v, int) and v >= 0`; a Python bool
      is an int. */
  function Count(v: Json): Option<nat> {
    match v
    case JInt(n) => if n >= 0 then Some(n) else None
    case JBool(b) => Some(if b then 1 else 0)
    case _ => None
  }

  function ListLength(v: Json): nat {
    if v.JList? then |v.items| else 0
  }
}
