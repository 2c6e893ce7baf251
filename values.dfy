/**
 * The JavaScript values the generators handle as `any`: parsed JSON or YAML
 * content and example payloads. Object entries are kept in insertion order,
 * as `Object.entries` reports them.
 */
module Values {
  import opened Wrappers
  import opened Text

  datatype Value =
    | Undefined
    | Null
    | Bool(b: bool)
    | Num(n: int)
    | Str(s: string)
    | Arr(elems: seq<Value>)
    | Obj(fields: seq<(string, Value)>)

  /**
   * The exceptions the generators can raise: `RangeError` for the stack
   * overflow of an unbounded recursion, `TypeError` for a property read
   * from `undefined` or `null`.
   */
  datatype JsException = RangeError | TypeError

  /** JavaScript truthiness (`if (v)`, `v || w`); NaN is not modelled. */
  predicate Truthy(v: Value) {
    match v
    case Undefined => false
    case Null => false
    case Bool(b) => b
    case Num(n) => n != 0
    case Str(s) => s != ""
    case Arr(_) => true
    case Obj(_) => true
  }

  /** `a || b`. */
  function Or(a: Value, b: Value): (r: Value)
    ensures Truthy(a) ==> r == a
    ensures !Truthy(a) ==> r == b
  {
    if Truthy(a) then a else b
  }

  /** The keys of a record, in order (`Object.keys`). */
  function Keys<V>(m: seq<(string, V)>): (ks: seq<string>)
    ensures |ks| == |m|
    ensures forall i :: 0 <= i < |m| ==> ks[i] == m[i].0
  {
    seq(|m|, i requires 0 <= i < |m| => m[i].0)
  }

  /** `m[key]` on a record: the value of the first entry with that key. */
  function Get<V>(m: seq<(string, V)>, key: string): (r: Option<V>)
    ensures r.None? <==> key !in Keys(m)
    ensures r.Some? ==> exists i :: 0 <= i < |m| && m[i] == (key, r.value)
  {
    if |m| == 0 then None
    else if m[0].0 == key then Some(m[0].1)
    else
      assert forall i :: 0 < i < |m| ==> Keys(m)[i] == Keys(m[1..])[i - 1];
      assert Keys(m) == [m[0].0] + Keys(m[1..]);
      Get(m[1..], key)
  }

  /** The entry `Get` returns is the first one with the key. */
  lemma {:induction false} GetFirst<V>(m: seq<(string, V)>, key: string, i: nat)
    requires i < |m| && m[i].0 == key && forall j :: 0 <= j < i ==> m[j].0 != key
    ensures Get(m, key) == Some(m[i].1)
  {
    if i > 0 {
      assert forall j :: 0 <= j < i - 1 ==> m[1..][j] == m[j + 1];
      GetFirst(m[1..], key, i - 1);
    }
  }

  /** An optional string property is truthy: present and non-empty. */
  predicate Present(o: Option<string>) {
    o.Some? && o.value != ""
  }

  /** `a || b` on optional string properties. */
  function OrElse(a: Option<string>, b: Option<string>): (r: Option<string>)
    ensures Present(a) ==> r == a
    ensures !Present(a) ==> r == b
  {
    if Present(a) then a else b
  }

  /** `${o}` in a template literal: an absent property prints as `undefined`. */
  function Interp(o: Option<string>): string {
    match o
    case Some(s) => s
    case None => "undefined"
  }

  /** `String(v)`. */
  function ToJsString(v: Value): string
    decreases v, 1
  {
    match v
    case Undefined => "undefined"
    case Null => "null"
    case Bool(b) => if b then "true" else "false"
    case Num(n) => IntToString(n)
    case Str(s) => s
    case Arr(es) => Join(ElementStrings(v, es), ",")
    case Obj(_) => "[object Object]"
  }

  /** `Array.prototype.join` turns `null` and `undefined` elements into empty strings. */
  function ElementStrings(ghost parent: Value, es: seq<Value>): (r: seq<string>)
    requires parent.Arr? && parent.elems == es
    ensures |r| == |es|
    decreases parent, 0, |es|
  {
    seq(|es|, i requires 0 <= i < |es| =>
      if es[i].Undefined? || es[i].Null? then "" else ToJsString(es[i]))
  }
}
