/**
 * The small part of JavaScript's value semantics that the application's core
 * relies on: untyped values as produced by `JSON.parse`, property access
 * (which throws a TypeError on `null` and `undefined`), truthiness and the
 * `x || 0` fallback, and the object spread `{...v}`.
 */
module Js {
  import opened Wrappers

  /** A JavaScript value. Numbers are finite reals (NaN and the infinities are not modelled). */
  datatype JsValue =
    | Undefined
    | Null
    | Bool(b: bool)
    | Num(n: real)
    | Str(s: string)
    | Arr(items: seq<JsValue>)
    | Obj(fields: map<string, JsValue>)

  /** An `Error` object; only its `message` is observable by the application. */
  datatype Error = Error(message: string)

  /** The TypeError thrown when reading property `key` of `null` or `undefined`. */
  datatype TypeError = TypeError(key: string)

  /** JavaScript truthiness: `undefined`, `null`, `false`, `0` and `""` are falsy. */
  predicate Truthy(v: JsValue)
  {
    match v
    case Undefined => false
    case Null => false
    case Bool(b) => b
    case Num(n) => n != 0.0
    case Str(s) => s != ""
    case Arr(_) => true
    case Obj(_) => true
  }

  /** `v || 0`: the value itself when it is truthy, the number 0 otherwise. */
  function OrZero(v: JsValue): (r: JsValue)
    ensures Truthy(v) ==> r == v
    ensures !Truthy(v) ==> r == Num(0.0)
    ensures r.Num? || Truthy(r)
  {
    if Truthy(v) then v else Num(0.0)
  }

  /**
   * `v.key`. Reading a property of `null` or `undefined` throws; an absent own
   * property of an object reads as `undefined`. Built-in properties of
   * primitives and arrays (`length`, indices) are not modelled: the keys the
   * application reads are none of them.
   */
  function Get(v: JsValue, key: string): (r: Result<JsValue, TypeError>)
    ensures r.Failure? <==> (v.Undefined? || v.Null?)
    ensures r.Failure? ==> r.error == TypeError(key)
    ensures v.Obj? && key in v.fields ==> r == Success(v.fields[key])
    ensures v.Obj? && key !in v.fields ==> r == Success(Undefined)
    ensures !(v.Obj? || v.Undefined? || v.Null?) ==> r == Success(Undefined)
  {
    match v
    case Undefined => Failure(TypeError(key))
    case Null => Failure(TypeError(key))
    case Obj(f) => Success(if key in f then f[key] else Undefined)
    case _ => Success(Undefined)
  }

  /** The own property `key` of an object given by its fields, `undefined` when absent. */
  function Field(fields: map<string, JsValue>, key: string): (r: JsValue)
    ensures Get(Obj(fields), key) == Success(r)
  {
    if key in fields then fields[key] else Undefined
  }

  /** The decimal digit for `d < 10`. */
  function Digit(d: nat): (c: char)
    requires d < 10
    ensures '0' <= c <= '9' && c as int - '0' as int == d
  {
    (d + '0' as int) as char
  }

  /** The canonical decimal spelling of an array or string index, as used for property keys. */
  function IndexKey(n: nat): (k: string)
    ensures |k| >= 1
    ensures n < 10 <==> |k| == 1
    ensures k[|k| - 1] == Digit(n % 10)
    decreases n
  {
    if n < 10 then [Digit(n)] else IndexKey(n / 10) + [Digit(n % 10)]
  }

  /** Distinct indices have distinct keys. */
  lemma {:induction false} IndexKeyInjective(a: nat, b: nat)
    requires IndexKey(a) == IndexKey(b)
    ensures a == b
    decreases a
  {
    var ka, kb := IndexKey(a), IndexKey(b);
    assert a % 10 == b % 10 by {
      assert Digit(a % 10) == Digit(b % 10);
    }
    if a >= 10 {
      assert b >= 10;
      assert IndexKey(a / 10) == ka[..|ka| - 1];
      assert IndexKey(b / 10) == kb[..|kb| - 1];
      IndexKeyInjective(a / 10, b / 10);
    }
  }

  lemma IndexKeysInjective()
    ensures forall a: nat, b: nat :: IndexKey(a) == IndexKey(b) ==> a == b
  {
    forall a: nat, b: nat | IndexKey(a) == IndexKey(b) ensures a == b {
      IndexKeyInjective(a, b);
    }
  }

  /** The properties `{...items}` copies from an array: each element under its index key. */
  function SpreadIndexed(items: seq<JsValue>): (r: map<string, JsValue>)
    ensures forall i :: 0 <= i < |items| ==> IndexKey(i) in r && r[IndexKey(i)] == items[i]
  {
    IndexKeysInjective();
    map i | 0 <= i < |items| :: IndexKey(i) := items[i]
  }

  /** The characters of `s`, each as a one-character string. */
  function Characters(s: string): (r: seq<JsValue>)
    ensures |r| == |s| && forall i :: 0 <= i < |s| ==> r[i] == Str([s[i]])
  {
    seq(|s|, i requires 0 <= i < |s| => Str([s[i]]))
  }

  /**
   * The own enumerable properties that `{...v}` copies: an object's fields,
   * the elements of an array or the characters of a string under their index
   * keys, and nothing for `null`, `undefined`, booleans and numbers.
   */
  function Spread(v: JsValue): (r: map<string, JsValue>)
    ensures v.Obj? ==> r == v.fields
    ensures v.Arr? ==> r == SpreadIndexed(v.items)
    ensures v.Str? ==> r == SpreadIndexed(Characters(v.s))
    ensures !(v.Obj? || v.Arr? || v.Str?) ==> r == map[]
  {
    match v
    case Obj(f) => f
    case Arr(items) => SpreadIndexed(items)
    case Str(s) => SpreadIndexed(Characters(s))
    case _ => map[]
  }
}
