/**
 * The JavaScript values that the client receives as parsed JSON, with the
 * operations the code applies to them: truthiness, `typeof x === 'object'`,
 * property reads and `Object.values`. Numbers are integers; an object is its
 * property list in enumeration order.
 */
module JsValue {

  datatype Value =
    | Undefined
    | Null
    | Bool(b: bool)
    | Num(n: int)
    | Str(s: string)
    | Arr(elems: seq<Value>)
    | Obj(props: seq<(string, Value)>)

  /** JavaScript truthiness (`NaN` does not arise: numbers are integers). */
  predicate Truthy(v: Value) {
    match v
    case Undefined => false
    case Null => false
    case Bool(b) => b
    case Num(n) => n != 0
    case Str(s) => s != ""
    case Arr(_) => true
    case Obj(_) => true
  }

  /** `v !== null && typeof v === 'object'`: arrays are objects too. */
  predicate IsObject(v: Value) {
    v.Arr? || v.Obj?
  }

  /** `v[key]`: the first binding of `key` in an object, `undefined` otherwise. */
  function Get(v: Value, key: string): Value {
    if v.Obj? then Lookup(v.props, key) else Undefined
  }

  function Lookup(props: seq<(string, Value)>, key: string): Value {
    if props == [] then Undefined
    else if props[0].0 == key then props[0].1
    else Lookup(props[1..], key)
  }

  /** `Object.values(v)` of an object. */
  function Values(props: seq<(string, Value)>): (r: seq<Value>)
    ensures |r| == |props|
    ensures forall i :: 0 <= i < |props| ==> r[i] == props[i].1
  {
    seq(|props|, i requires 0 <= i < |props| => props[i].1)
  }
}
