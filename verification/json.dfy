/** The values `JSON.parse` can produce, with the JavaScript notions the stores
    apply to them: truthiness, `typeof v === 'object'` and property access. */
module Json {
  import opened Wrappers

  /** A parsed JSON value. Numbers are modelled as integers (timestamps in
      milliseconds are the only numbers the stores look at). */
  datatype Value =
    | Null
    | Bool(b: bool)
    | Num(n: int)
    | Str(s: string)
    | Arr(items: seq<Value>)
    | Obj(fields: map<string, Value>)
  {
    /** JavaScript truthiness: `null`, `false`, `0` and `''` are falsy. */
    predicate Truthy() {
      match this
      case Null => false
      case Bool(b) => b
      case Num(n) => n != 0
      case Str(s) => s != ""
      case Arr(_) => true
      case Obj(_) => true
    }

    /** `typeof v === 'object'`, which holds for `null` and arrays as well. */
    predicate IsObjectType() {
      Null? || Arr? || Obj?
    }

    /** The property read `v[key]`; `None` is `undefined`. Only objects parsed
        from JSON carry named properties. */
    function Get(key: string): (r: Option<Value>)
      ensures r.Some? <==> Obj? && key in fields
    {
      if Obj? && key in fields then Some(fields[key]) else None
    }
  }

  /** Truthiness of a property read, where `undefined` is falsy. */
  predicate TruthyAt(o: Option<Value>) {
    o.Some? && o.value.Truthy()
  }

  /** What reading one local-storage key and parsing it yields: nothing stored
      (a missing key or the empty string), text that `JSON.parse` rejects, or a
      parsed value. */
  datatype Stored = Missing | Unparseable | Parsed(value: Value)
}
