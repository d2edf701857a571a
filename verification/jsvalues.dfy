/** The handful of JavaScript value notions the configuration factory relies on:
    an optional value (a property or variable that may be `undefined`) and
    the truthiness test every `if (x)` of the source performs. */
module JsValues {

  /** A value that may be absent: `None` stands for `undefined` (or `null`
      where the source treats both alike). */
  datatype Option<+T> = None | Some(value: T)

  /** The scalar JavaScript values the source passes as flags. */
  datatype JsValue = Undefined | Null | Bool(b: bool) | Str(s: string)

  /** ECMAScript ToBoolean, restricted to the values above: `undefined`,
      `null`, `false` and the empty string are falsy; everything else is truthy. */
  predicate Truthy(v: JsValue)
  {
    match v
    case Undefined => false
    case Null => false
    case Bool(b) => b
    case Str(s) => s != ""
  }

  /** Converts an optional string (an environment variable, a stored item)
      to the JavaScript value it denotes. */
  function FromOption(o: Option<string>): (v: JsValue)
    ensures v == Undefined <==> o.None?
    ensures v.Str? ==> o == Some(v.s)
  {
    match o
    case None => Undefined
    case Some(s) => Str(s)
  }

  /** An optional string is truthy exactly when it is present and non-empty. */
  predicate TruthyString(o: Option<string>)
  {
    Truthy(FromOption(o))
  }

  lemma TruthyStringMeansNonEmpty(o: Option<string>)
    ensures TruthyString(o) <==> o.Some? && o.value != ""
  {
  }
}
