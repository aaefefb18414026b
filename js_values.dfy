/**
  The few JavaScript value notions the daemon relies on: optional values
  (a property that may be `undefined`), results of a step that may throw,
  truthiness of strings, and the property names every plain object
  inherits from `Object.prototype`.
 */
module JsValues {

  datatype Option<+T> = None | Some(value: T)

  /** The exceptions a reconciliation step can raise before it reaches its `.catch`. */
  datatype Error =
    | MissingFields(container: string)  // TypeError: `container.data.fields` is undefined
    | NotAnArray(host: string)          // TypeError: `cache[host]` is an inherited member, `.indexOf` is not a function
    | UndefinedVariable(name: string)   // ReferenceError: a variable that is not in scope is read

  datatype Result<+T> = Ok(value: T) | Err(error: Error)

  /** Reading `obj[key]` of a JSON object whose values are strings: `undefined` when absent. */
  function Get(m: map<string, string>, key: string): (v: Option<string>)
    ensures v.Some? <==> key in m
    ensures v.Some? ==> v.value == m[key]
  {
    if key in m then Some(m[key]) else None
  }

  /** JavaScript truthiness of a string-or-undefined value: `undefined` and `""` are falsy. */
  predicate Truthy(v: Option<string>) {
    v.Some? && v.value != ""
  }

  /** String conversion of a string-or-undefined value, as `+` on strings performs it. */
  function ToJsString(v: Option<string>): (s: string)
    ensures v.None? ==> s == "undefined"
    ensures v.Some? ==> s == v.value
  {
    match v
    case None => "undefined"
    case Some(x) => x
  }

  /**
    The members a plain object `{}` inherits from `Object.prototype`. Each of
    them is a function or an object, so `obj[name]` is truthy although it was
    never assigned.
   */
  const InheritedNames: set<string> := {
    "constructor", "hasOwnProperty", "isPrototypeOf", "propertyIsEnumerable",
    "toString", "toLocaleString", "valueOf", "__proto__",
    "__defineGetter__", "__defineSetter__", "__lookupGetter__", "__lookupSetter__"
  }

  /** String concatenation (`+`) is associative; stated once so that proofs need not rediscover it element by element. */
  lemma ConcatAssoc(x: string, y: string, z: string)
    ensures (x + y) + z == x + (y + z)
  {
  }
}
