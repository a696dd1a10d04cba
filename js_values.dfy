/** JavaScript values as the data layer sees them: what `JSON.parse` can
    produce, plus `undefined` (a missing property or an omitted argument). */
module JsValues {

  /** A JavaScript value. Objects keep their properties in insertion order. */
  datatype Val =
    | Undefined
    | Null
    | Bool(b: bool)
    | Num(n: real)
    | Str(s: string)
    | Arr(items: seq<Val>)
    | Obj(props: seq<Prop>)

  /** One own property of an object. */
  datatype Prop = Prop(key: string, value: Val)

  /** The outcome of an evaluation that may throw. */
  datatype Result<T> = Ok(value: T) | Thrown

  /** JavaScript truthiness: `undefined`, `null`, `false`, `0` and `""` are
      falsy; everything else, including `[]` and `{}`, is truthy. */
  predicate Truthy(v: Val) {
    match v
    case Undefined => false
    case Null => false
    case Bool(b) => b
    case Num(n) => n != 0.0
    case Str(s) => s != ""
    case Arr(_) => true
    case Obj(_) => true
  }

  /** `a || b`: the first operand if it is truthy, otherwise the second. */
  function Or(a: Val, b: Val): (r: Val)
    ensures Truthy(r) <==> Truthy(a) || Truthy(b)
    ensures Truthy(a) ==> r == a
    ensures !Truthy(a) ==> r == b
  {
    if Truthy(a) then a else b
  }

  /** Property access `v.key` throws exactly on these two. */
  predicate Nullish(v: Val) {
    v.Undefined? || v.Null?
  }

  /** The value of the last property named `key` (the one `JSON.parse` keeps
      when a key is repeated), or `undefined` when there is none. */
  function Lookup(props: seq<Prop>, key: string): Val
  {
    if |props| == 0 then Undefined
    else if props[|props| - 1].key == key then props[|props| - 1].value
    else Lookup(props[..|props| - 1], key)
  }

  /** The property that `Lookup` finds is the last one with that key. */
  lemma {:induction false} LookupLast(props: seq<Prop>, key: string, i: nat)
    requires i < |props| && props[i].key == key
    requires forall j :: i < j < |props| ==> props[j].key != key
    ensures Lookup(props, key) == props[i].value
  {
    if i < |props| - 1 {
      LookupLast(props[..|props| - 1], key, i);
    }
  }

  /** `v.key` on a value that is not `null` or `undefined`. None of the keys
      the data layer reads is a property of strings, numbers, booleans or
      arrays, so on those it is `undefined`. */
  function Member(v: Val, key: string): (r: Val)
    requires !Nullish(v)
  {
    if v.Obj? then Lookup(v.props, key) else Undefined
  }

  /** The list of an object's keys, in order. */
  function Keys(props: seq<Prop>): (r: seq<string>)
    ensures |r| == |props|
    ensures forall i :: 0 <= i < |props| ==> r[i] == props[i].key
  {
    if |props| == 0 then [] else Keys(props[..|props| - 1]) + [props[|props| - 1].key]
  }
}
