/**
  JavaScript values as the relay handler and the browser script handle them:
  parsed JSON bodies, request fields and upstream data.
 */
module Json {

  datatype Value =
    | Undefined
    | Null
    | Bool(b: bool)
    | Num(x: real)
    | Str(s: string)
    | Arr(items: seq<Value>)
    | Obj(fields: map<string, Value>)

  /** `v === null || v === undefined`, the values `??` replaces. */
  predicate Nullish(v: Value) {
    v.Undefined? || v.Null?
  }

  /**
    JavaScript truthiness: what `!v`, `v || w` and `v && w` test. The falsy
    values are exactly undefined, null, false, 0 and the empty string.
   */
  predicate Truthy(v: Value)
    ensures !Truthy(v) <==> v in {Undefined, Null, Bool(false), Num(0.0), Str("")}
  {
    match v
    case Undefined => false
    case Null => false
    case Bool(b) => b
    case Num(x) => x != 0.0
    case Str(s) => s != ""
    case Arr(_) => true
    case Obj(_) => true
  }

  /** The property `v[name]` of a parsed body; `undefined` when it has no such own property. */
  function Get(v: Value, name: string): (r: Value)
    ensures r != Undefined ==> v.Obj? && name in v.fields && r == v.fields[name]
    ensures v.Obj? && name in v.fields ==> r == v.fields[name]
  {
    if v.Obj? && name in v.fields then v.fields[name] else Undefined
  }

  /**
    `Object.keys(v).length`: the number of own enumerable keys of a value on
    which Object.keys does not throw.
   */
  function KeyCount(v: Value): nat
    requires !Nullish(v)
  {
    match v
    case Obj(fields) => |fields|
    case Arr(items) => |items|
    case Str(s) => |s|
    case Bool(_) => 0
    case Num(_) => 0
  }

  /**
    `Object.keys(v).length === 0`. Object.keys throws on null and undefined,
    so the caller must rule those out; numbers and booleans have no own keys,
    a string has one per character and an array one per element.
   */
  predicate NoOwnKeys(v: Value)
    requires !Nullish(v)
    ensures NoOwnKeys(v) <==> KeyCount(v) == 0
  {
    match v
    case Obj(fields) => fields == map[]
    case Arr(items) => items == []
    case Str(s) => s == ""
    case _ => true
  }
}
