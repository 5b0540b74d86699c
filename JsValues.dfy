/**
 The slice of JavaScript value semantics the question server relies on:
 the values JSON can produce (plus `undefined`), truthiness as `||` sees it,
 nullishness as `??` sees it, and property reads with and without optional
 chaining.
 */
module JsValues {

  /** A JavaScript value as produced by `JSON.parse`, plus `undefined`.
      Numbers are integers in this model. */
  datatype Value =
    | Undefined
    | Null
    | Bool(b: bool)
    | Num(n: int)
    | Str(s: string)
    | Arr(elems: seq<Value>)
    | Obj(fields: map<string, Value>)

  /** ToBoolean: what `if (x)`, `!x` and `x || y` test. */
  predicate Truthy(v: Value) {
    match v
    case Undefined => false
    case Null => false
    case Bool(b) => b
    case Num(n) => n != 0
    case Str(s) => s != ""
    case Arr(_) => true
    case Obj(_) => true
  }

  /** The values `??` replaces. */
  predicate Nullish(v: Value) {
    v.Undefined? || v.Null?
  }

  /** `a || b`: the left operand when it is truthy, otherwise the right one.
      The result is one of the operands, it is truthy exactly when one of
      them is, and a falsy result is the right operand. */
  function Or(a: Value, b: Value): (r: Value)
    ensures r == a || r == b
    ensures Truthy(r) <==> Truthy(a) || Truthy(b)
    ensures Truthy(a) ==> r == a
    ensures !Truthy(r) ==> r == b
  {
    if Truthy(a) then a else b
  }

  /** `a ?? b`: the left operand unless it is null or undefined. The result
      is one of the operands, it is nullish exactly when both are, and a
      nullish result is the right operand. */
  function Coalesce(a: Value, b: Value): (r: Value)
    ensures r == a || r == b
    ensures Nullish(r) <==> Nullish(a) && Nullish(b)
    ensures !Nullish(a) ==> r == a
    ensures Nullish(r) ==> r == b
  {
    if Nullish(a) then b else a
  }

  /** Reading a named property `v.name` of a value that is not null or
      undefined (on those a property read throws a TypeError, which callers
      model separately). Only own properties of objects are seen: the names
      the server reads are not properties of any prototype of strings,
      arrays, numbers, booleans or plain objects. */
  function Prop(v: Value, name: string): (r: Value)
  {
    match v
    case Obj(fields) => if name in fields then fields[name] else Undefined
    case _ => Undefined
  }

  /** Setting one key of an object changes what a read of that key gives
      and no other read. */
  lemma PropOfUpdate(fields: map<string, Value>, key: string, x: Value, name: string)
    ensures Prop(Obj(fields[key := x]), name) == if name == key then x else Prop(Obj(fields), name)
  {
  }

  /** Optional chaining `v?.name`: undefined when `v` is null or undefined. */
  function OptProp(v: Value, name: string): (r: Value)
  {
    if Nullish(v) then Undefined else Prop(v, name)
  }

  /** Optional chaining `v?.[0]`: the first element of an array, the own
      property "0" of an object, the first character of a string, otherwise
      undefined. */
  function OptIndex0(v: Value): (r: Value)
  {
    match v
    case Arr(elems) => if |elems| > 0 then elems[0] else Undefined
    case Obj(fields) => if "0" in fields then fields["0"] else Undefined
    case Str(s) => if |s| > 0 then Str([s[0]]) else Undefined
    case _ => Undefined
  }
}
