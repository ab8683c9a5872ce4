/**
 * Property reads on plain JavaScript objects. A plain object inherits the
 * members of `Object.prototype`, so reading one of their names from an object
 * that has no own property of that name gives a function (or, for
 * `__proto__`, the prototype itself): a truthy value.
 */
module JsObjects {

  /** The string-named members every plain object inherits from `Object.prototype`. */
  const PrototypeNames: set<string> := {
    "constructor", "hasOwnProperty", "isPrototypeOf", "propertyIsEnumerable",
    "toLocaleString", "toString", "valueOf", "__proto__",
    "__defineGetter__", "__defineSetter__", "__lookupGetter__", "__lookupSetter__"}

  /**
   * Whether `o[k]` is truthy, for an object whose own properties are `o` and
   * whose own values are truthy exactly when `truthy` says so.
   */
  predicate ReadTruthy<V>(o: map<string, V>, k: string, truthy: V -> bool)
  {
    if k in o then truthy(o[k]) else k in PrototypeNames
  }
}
