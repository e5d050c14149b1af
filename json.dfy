/**
 * The JavaScript values the adapter stores and the text encoding it uses for
 * them. JSON.stringify and JSON.parse are library behaviour; they are taken
 * as an abstract encode/decode pair, and the round trip between them is a
 * hypothesis (`RoundTrips`) that the lemmas assume where they need it.
 */
module Options {
  datatype Option<T> = None | Some(value: T)
}

module Json {
  import opened Options

  /** A JSON value. Numbers are integers in this model. */
  datatype Value =
    | Null
    | Bool(b: bool)
    | Num(n: int)
    | Str(s: string)
    | Arr(items: seq<Value>)
    | Obj(props: map<string, Value>)

  /** JSON.stringify (encode) and JSON.parse (decode; None when it throws). */
  datatype Serializer = Serializer(encode: Value -> string, decode: string -> Option<Value>)

  /** The hypothesis that parsing what was stringified gives the value back. */
  ghost predicate RoundTrips(c: Serializer)
  {
    forall v :: c.decode(c.encode(v)) == Some(v)
  }

  /** The fact that JSON.stringify never yields the empty string. */
  ghost predicate NeverEmpty(c: Serializer)
  {
    forall v :: c.encode(v) != ""
  }

  /** JavaScript truthiness of a defined value. */
  predicate Truthy(v: Value)
  {
    match v
    case Null => false
    case Bool(b) => b
    case Num(n) => n != 0
    case Str(s) => s != ""
    case Arr(_) => true
    case Obj(_) => true
  }

  /** lodash's `_.isObject`: arrays and objects. */
  predicate IsObjectLike(v: Value)
  {
    v.Arr? || v.Obj?
  }

  /**
   * Reading a named property, `v[name]`; None stands for `undefined`.
   * Strings and arrays have a `length`; other primitives have no properties.
   */
  function Property(v: Value, name: string): (r: Option<Value>)
    ensures v.Obj? ==> (r.Some? <==> name in v.props)
    ensures v.Null? || v.Bool? || v.Num? ==> r.None?
  {
    match v
    case Obj(m) => if name in m then Some(m[name]) else None
    case Str(s) => if name == "length" then Some(Num(|s|)) else None
    case Arr(items) => if name == "length" then Some(Num(|items|)) else None
    case _ => None
  }

  /** The own enumerable entries of an object (`Object.keys` with lookups). */
  function Entries(v: Value): map<string, Value>
  {
    if v.Obj? then v.props else map[]
  }
}
