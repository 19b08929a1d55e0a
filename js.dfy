/**
 * The slice of JavaScript values the two route handlers touch: values that come
 * out of `JSON.parse` (plus `undefined` for a missing property), JavaScript
 * truthiness over them, and property access with `.` and with `?.`.
 */
module Js {

  datatype Option<+T> = None | Some(value: T)

  /** A JSON value as JavaScript sees it after parsing; `Undefined` stands for
      a property that is not there. Numbers are kept integral. */
  datatype Value =
    | Undefined
    | Null
    | Bool(b: bool)
    | Num(n: int)
    | Str(s: string)
    | Arr(items: seq<Value>)
    | Obj(fields: map<string, Value>)

  /** JavaScript truthiness: `undefined`, `null`, `false`, `0` and `""` are falsy. */
  predicate Truthy(v: Value)
  {
    match v
    case Undefined => false
    case Null => false
    case Bool(b) => b
    case Num(n) => n != 0
    case Str(s) => s != ""
    case Arr(_) => true
    case Obj(_) => true
  }

  /** `null` or `undefined`: the values whose properties cannot be read. */
  predicate Nullish(v: Value)
  {
    v.Undefined? || v.Null?
  }

  /** `v.key` (and destructuring `const { key } = v`): a TypeError, here `None`,
      when `v` is `null` or `undefined`; the field of an object, `undefined`
      for a field the object lacks and for every other kind of value. */
  function Member(v: Value, key: string): (r: Option<Value>)
    ensures r.None? <==> Nullish(v)
    ensures r.Some? && v.Obj? && key in v.fields ==> r.value == v.fields[key]
    ensures r.Some? && !(v.Obj? && key in v.fields) ==> r.value == Undefined
  {
    match v
    case Undefined => None
    case Null => None
    case Obj(fields) => Some(if key in fields then fields[key] else Undefined)
    case _ => Some(Undefined)
  }

  /** `v?.key`: never throws; `undefined` wherever `v.key` would throw. */
  function OptionalMember(v: Value, key: string): (r: Value)
    ensures Member(v, key).Some? ==> r == Member(v, key).value
    ensures Member(v, key).None? ==> r == Undefined
  {
    match Member(v, key)
    case None => Undefined
    case Some(w) => w
  }

  /** An environment variable: `process.env.X` is a string or `undefined`,
      and counts as set when it is truthy. */
  predicate IsSet(env: Option<string>)
  {
    env.Some? && env.value != ""
  }
}
