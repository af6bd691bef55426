/** JSON values as the route handlers see them after `request.json()`, and
    the JavaScript truthiness the handlers test them with. */
module Json {
  import opened Wrappers

  /** A parsed JSON value. JavaScript numbers are modelled as integers. */
  datatype Value =
    | Null
    | Bool(b: bool)
    | Num(n: int)
    | Str(s: string)
    | Arr(items: seq<Value>)
    | Obj(fields: map<string, Value>)

  type Object = map<string, Value>

  /** A request body: either text that is not JSON (`request.json()` throws
      a SyntaxError carrying `message`) or a parsed value. */
  datatype Body = Malformed(message: string) | Parsed(value: Value)

  /** JavaScript's `!!v` on a JSON value: null, false, 0 and "" are falsy. */
  predicate Truthy(v: Value) {
    match v
    case Null => false
    case Bool(b) => b
    case Num(n) => n != 0
    case Str(s) => s != ""
    case Arr(_) => true
    case Obj(_) => true
  }

  /** `v[key]` for a non-null value; `None` stands for `undefined`. Only an
      object has the named properties the handlers read. */
  function Get(v: Value, key: string): Option<Value> {
    if v.Obj? && key in v.fields then Some(v.fields[key]) else None
  }

  /** Truthiness of a property that may be `undefined` (which is falsy). */
  predicate Holds(o: Option<Value>) {
    o.Some? && Truthy(o.value)
  }

  /** `x || null`: the value itself when truthy, `null` otherwise. */
  function OrNull(o: Option<Value>): (r: Value)
    ensures r == Null <==> !Holds(o)
    ensures Holds(o) ==> r == o.value
    ensures r != Str("") && r != Bool(false) && r != Num(0)
  {
    if Holds(o) then o.value else Null
  }

  /** Adding a property to an object literal that `JSON.stringify` will
      serialise: an `undefined` value leaves the key out. */
  function With(m: Object, key: string, o: Option<Value>): (r: Object)
    ensures key in r <==> o.Some? || key in m
    ensures o.Some? ==> r[key] == o.value
    ensures forall k | k in m && k != key :: k in r && r[k] == m[k]
    ensures r.Keys <= m.Keys + {key}
  {
    if o.Some? then m[key := o.value] else m
  }

  /** The object property `key` is there exactly when `o` is defined, and
      holds its value. */
  predicate Mirrors(m: Object, key: string, o: Option<Value>) {
    (key in m <==> o.Some?) && (key in m ==> Some(m[key]) == o)
  }
}
