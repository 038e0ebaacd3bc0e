/** The JavaScript values the validators look at, and JavaScript truthiness.
    Numbers are exact reals: NaN and the infinities are not values of this type. */
module Js {

  datatype Value =
    | Undefined
    | Null
    | Bool(b: bool)
    | Num(n: real)
    | Str(s: string)
    | Object

  /** `!!v` in JavaScript: false exactly for undefined, null, false, 0 and the empty string. */
  predicate Truthy(v: Value)
  {
    match v
    case Undefined => false
    case Null => false
    case Bool(b) => b
    case Num(n) => n != 0.0
    case Str(s) => s != ""
    case Object => true
  }

  /** `typeof v === "number"` */
  predicate IsNumber(v: Value)
  {
    v.Num?
  }

  /** The property names every plain object inherits from `Object.prototype`. Reading one of them
      from an object literal finds a function (for `__proto__`, the prototype object itself): a
      value that is truthy, is NaN in arithmetic and cannot be iterated. */
  const InheritedNames: set<string> :=
    {"constructor", "__proto__", "toString", "toLocaleString", "valueOf", "hasOwnProperty",
     "isPrototypeOf", "propertyIsEnumerable", "__defineGetter__", "__defineSetter__",
     "__lookupGetter__", "__lookupSetter__"}

  predicate IsInherited(key: string)
  {
    key in InheritedNames
  }

  /** `v || fallback` */
  function Or(v: Value, fallback: Value): Value
  {
    if Truthy(v) then v else fallback
  }
}
