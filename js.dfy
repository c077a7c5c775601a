/**
  The slice of JavaScript semantics the two Express handlers depend on: JSON-like
  values (with `undefined`), truthiness, `||`, property reads that throw on
  `null`/`undefined`, and `String.prototype.trim`.
*/
module Js {
  import Strings

  /**
    A JavaScript value as it can reach the handlers: parsed request bodies, parsed
    worker output and the response objects they build. Numbers are reals, so `NaN`
    and `-0` are not represented.
  */
  datatype Value =
    | Undefined
    | Null
    | Bool(b: bool)
    | Num(n: real)
    | Str(s: string)
    | Arr(items: seq<Value>)
    | Obj(fields: map<string, Value>)

  /** JavaScript truthiness (`!!v`). */
  predicate Truthy(v: Value)
  {
    match v
    case Undefined => false
    case Null => false
    case Bool(b) => b
    case Num(n) => n != 0.0
    case Str(s) => s != ""
    case Arr(_) => true
    case Obj(_) => true
  }

  /** `a || b` */
  function Or(a: Value, b: Value): (r: Value)
    ensures Truthy(a) ==> r == a
    ensures !Truthy(a) ==> r == b
  {
    if Truthy(a) then a else b
  }

  /** The outcome of a property read: a `TypeError` or the value read. */
  datatype Access = Threw | Got(value: Value)

  /**
    `v[key]` (also `const { key } = v`). Reading from `null` or `undefined` throws;
    a key absent from an object, and any of the keys the handlers use on a
    primitive or an array, reads as `undefined`.
  */
  function GetProp(v: Value, key: string): (r: Access)
    ensures r.Threw? <==> v.Undefined? || v.Null?
    ensures v.Obj? && key in v.fields ==> r == Got(v.fields[key])
    ensures r.Got? && !(v.Obj? && key in v.fields) ==> r.value == Undefined
  {
    match v
    case Undefined => Threw
    case Null => Threw
    case Obj(m) => Got(if key in m then m[key] else Undefined)
    case _ => Got(Undefined)
  }

  /** ECMAScript WhiteSpace and LineTerminator: what `trim` removes and `\s` matches. */
  predicate IsJsSpace(c: char)
  {
    || c == '\t' || c == '\n' || c == '\U{000B}' || c == '\U{000C}' || c == '\r'
    || c == ' ' || c == '\U{00A0}' || c == '\U{1680}'
    || ('\U{2000}' <= c <= '\U{200A}')
    || c == '\U{2028}' || c == '\U{2029}' || c == '\U{202F}' || c == '\U{205F}'
    || c == '\U{3000}' || c == '\U{FEFF}'
  }

  /** `s.trim()` */
  function JsTrim(s: string): string
  {
    Strings.Trim(s, IsJsSpace)
  }
}
