/**
 * JSON/JavaScript values as they reach a request handler (a parsed body, a
 * `jsonb` column), and the value-level built-ins the handlers apply to them:
 * truthiness, `String(v)`, `v ?? d` and property access.
 */
module Js {
  import opened Wrappers
  import Text

  /**
   * A JavaScript value. `Num` carries the text `String(n)` gives for the
   * number; `Obj` lists its properties in `Object.entries` order. A body
   * from `JSON.parse` has distinct keys; the model takes that for granted
   * and does not check it.
   */
  datatype Value =
    | Undefined
    | Null
    | Bool(b: bool)
    | Num(text: string)
    | Str(s: string)
    | Arr(items: seq<Value>)
    | Obj(props: seq<(string, Value)>)

  /** JavaScript truthiness: `false`, `0`, `NaN`, `""`, `null` and `undefined` are falsy. */
  predicate Truthy(v: Value) {
    match v
    case Undefined => false
    case Null => false
    case Bool(b) => b
    case Num(t) => t != "0" && t != "NaN"
    case Str(s) => s != []
    case Arr(_) => true
    case Obj(_) => true
  }

  /** `v === null || v === undefined`, what `??` and `?.` test. */
  predicate Nullish(v: Value) {
    v.Undefined? || v.Null?
  }

  /** `a ?? b`. */
  function Coalesce(a: Value, b: Value): (r: Value)
    ensures !Nullish(a) ==> r == a
    ensures Nullish(a) ==> r == b
  {
    if Nullish(a) then b else a
  }

  /** `a || b`. */
  function Or(a: Value, b: Value): (r: Value)
    ensures Truthy(a) ==> r == a
    ensures !Truthy(a) ==> r == b
  {
    if Truthy(a) then a else b
  }

  /** `typeof v === 'object'` (which holds for `null` and arrays too). */
  predicate IsObjectType(v: Value) {
    v.Null? || v.Arr? || v.Obj?
  }

  /** The strings of `parts` with `sep` between consecutive ones, as `Array.prototype.join` writes them. */
  function Join(parts: seq<string>, sep: string): string {
    if parts == [] then [] else if |parts| == 1 then parts[0] else parts[0] + sep + Join(parts[1..], sep)
  }

  /** `String(v)`. An array is joined with commas, its `null`/`undefined` elements written as "". */
  function ToStr(v: Value): string {
    match v
    case Undefined => "undefined"
    case Null => "null"
    case Bool(b) => if b then "true" else "false"
    case Num(t) => t
    case Str(s) => s
    case Arr(items) => Join(seq(|items|, i requires 0 <= i < |items| => if Nullish(items[i]) then "" else ToStr(items[i])), ",")
    case Obj(_) => "[object Object]"
  }

  /** `String(v ?? '')`, how the normalisers read an arbitrary value. */
  function StringOrEmpty(v: Value): (r: string)
    ensures Nullish(v) ==> r == ""
    ensures v.Str? ==> r == v.s
  {
    if Nullish(v) then "" else ToStr(v)
  }

  /** The value of the first property named `key` of an object; `undefined` otherwise. */
  function Lookup(props: seq<(string, Value)>, key: string): (r: Value)
    ensures (forall i :: 0 <= i < |props| ==> props[i].0 != key) ==> r == Undefined
    ensures !r.Undefined? ==> exists i :: 0 <= i < |props| && props[i] == (key, r)
  {
    if props == [] then Undefined else if props[0].0 == key then props[0].1 else Lookup(props[1..], key)
  }

  /** Looking a name up in an object whose first property is `(k, v)`. */
  lemma LookupCons(k: string, v: Value, rest: seq<(string, Value)>, key: string)
    ensures Lookup([(k, v)] + rest, key) == if k == key then v else Lookup(rest, key)
  {
    assert ([(k, v)] + rest)[1..] == rest;
  }

  /** A property added after the others does not change the value of any other name. */
  lemma {:induction false} LookupIgnoresLaterKey(props: seq<(string, Value)>, k: string, v: Value, key: string)
    requires k != key
    ensures Lookup(props + [(k, v)], key) == Lookup(props, key)
  {
    if props == [] {
      assert Lookup([(k, v)], key) == Lookup([(k, v)][1..], key);
    } else {
      assert (props + [(k, v)])[1..] == props[1..] + [(k, v)];
      LookupIgnoresLaterKey(props[1..], k, v, key);
    }
  }

  /** `v?.[key]` for a property name that is not an array index. */
  function Get(v: Value, key: string): Value {
    if v.Obj? then Lookup(v.props, key) else Undefined
  }

  /** `Object.entries(v)` for an object or an array (whose keys are its indices). */
  function Entries(v: Value): (r: seq<(string, Value)>)
    requires v.Obj? || v.Arr?
    ensures v.Obj? ==> r == v.props
    ensures v.Arr? ==> |r| == |v.items| && forall i :: 0 <= i < |r| ==> r[i] == (Text.NatToString(i), v.items[i])
  {
    if v.Obj? then v.props else seq(|v.items|, i requires 0 <= i < |v.items| => (Text.NatToString(i), v.items[i]))
  }
}
