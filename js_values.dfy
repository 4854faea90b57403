/**
  The JavaScript values the session client handles, and the few language rules
  its code relies on: truthiness and `||`, default parameters, property reads,
  array spread, template-literal conversion and the JSON round trip performed by
  `JSON.stringify` followed by `JSON.parse`.
 */
module JsValues {

  /** A JavaScript value as it appears in requests, replies and stored records.
      Numbers are integers; `Obj` holds an object's own enumerable properties. */
  datatype Js =
    | Undefined
    | Null
    | Bool(b: bool)
    | Num(n: int)
    | Str(s: string)
    | Arr(items: seq<Js>)
    | Obj(props: map<string, Js>)
  {
    /** `null` or `undefined`: the values whose properties cannot be read. */
    predicate Nullish() {
      Undefined? || Null?
    }
  }

  datatype Option<+T> = None | Some(value: T)

  /** What a `throw` carries through the client's promises. */
  datatype Exception =
    | Error(message: Js)   // `new Error(message)`
    | TypeError            // reading a property of null/undefined, spreading a non-iterable
    | NetworkError         // the HTTP transport rejected the request
    | StorageError         // the key-value store rejected the call

  /** How an `async` operation settles: fulfilled with a value, or rejected. */
  datatype Outcome<+T> = Return(value: T) | Throw(exc: Exception)

  /** JavaScript truthiness: `undefined`, `null`, `false`, `0` and `""` are falsy. */
  predicate Truthy(v: Js) {
    match v
    case Undefined | Null => false
    case Bool(b) => b
    case Num(n) => n != 0
    case Str(s) => s != ""
    case Arr(_) | Obj(_) => true
  }

  /** `a || b`: the first operand when it is truthy, otherwise the second. */
  function Or(a: Js, b: Js): Js {
    if Truthy(a) then a else b
  }

  /** A default parameter `p = d`: the default replaces only `undefined`
      (a passed `null`, `0` or `""` is kept). */
  function Default(v: Js, d: Js): Js {
    if v.Undefined? then d else v
  }

  /** Reading `v.key` where `v` is known not to be nullish, and optional chaining
      `v?.key`, which yields `undefined` on a nullish `v`. A missing property reads
      as `undefined`; values other than objects have none of the keys read here. */
  function Field(v: Js, key: string): Js {
    match v
    case Obj(m) => if key in m then m[key] else Undefined
    case _ => Undefined
  }

  /** Reading `v.key` without a guard: throws a TypeError on null and undefined. */
  function Get(v: Js, key: string): (r: Outcome<Js>)
    ensures r.Throw? <==> v.Nullish()
    ensures r.Throw? ==> r.exc == TypeError
    ensures r.Return? ==> r.value == Field(v, key)
  {
    if v.Nullish() then Throw(TypeError) else Return(Field(v, key))
  }

  /** The object literal `{k1: v1, ...}` with three properties. */
  function Object3(k1: string, v1: Js, k2: string, v2: Js, k3: string, v3: Js): Js {
    Obj(map[k1 := v1, k2 := v2, k3 := v3])
  }

  /** `[...v]`: arrays spread into their elements, strings into one-character
      strings; every other value is not iterable and the spread throws. */
  function Spread(v: Js): (r: Outcome<seq<Js>>)
    ensures r.Return? <==> v.Arr? || v.Str?
    ensures v.Arr? ==> r == Return(v.items)
    ensures v.Str? ==> r.Return? && |r.value| == |v.s|
                       && forall i :: 0 <= i < |v.s| ==> r.value[i] == Str([v.s[i]])
    ensures r.Throw? ==> r.exc == TypeError
  {
    match v
    case Arr(items) => Return(items)
    case Str(s) => Return(seq(|s|, i requires 0 <= i < |s| => Str([s[i]])))
    case _ => Throw(TypeError)
  }

  // ---------------------------------------------------------------------------
  // Template literals: `${v}` converts v with String(v).

  function DigitChar(d: nat): char
    requires d < 10
  {
    "0123456789"[d]
  }

  /** The number a string of decimal digits denotes, most significant first. */
  function DecimalValue(s: string): nat
    requires forall i :: 0 <= i < |s| ==> '0' <= s[i] <= '9'
  {
    if |s| == 0 then 0 else 10 * DecimalValue(s[..|s| - 1]) + (s[|s| - 1] as int - '0' as int)
  }

  /** Decimal digits of a natural number, most significant first, without
      leading zeros. */
  function Digits(n: nat): (r: string)
    ensures |r| >= 1
    ensures forall i :: 0 <= i < |r| ==> '0' <= r[i] <= '9'
    ensures DecimalValue(r) == n
    ensures |r| > 1 ==> r[0] != '0'
  {
    if n < 10 then [DigitChar(n)] else Digits(n / 10) + [DigitChar(n % 10)]
  }

  /** `parts.join(",")`. */
  function JoinComma(parts: seq<string>): string {
    if |parts| == 0 then ""
    else if |parts| == 1 then parts[0]
    else parts[0] + "," + JoinComma(parts[1..])
  }

  /** `String(v)`: what a template literal inserts for `v`. An array joins its
      elements with commas, writing null and undefined elements as empty text. */
  function Text(v: Js): string {
    match v
    case Undefined => "undefined"
    case Null => "null"
    case Bool(b) => if b then "true" else "false"
    case Num(n) => if n < 0 then "-" + Digits(-n) else Digits(n)
    case Str(s) => s
    case Arr(items) =>
      JoinComma(seq(|items|, i requires 0 <= i < |items| =>
        if items[i].Nullish() then "" else Text(items[i])))
    case Obj(_) => "[object Object]"
  }

  // ---------------------------------------------------------------------------
  // JSON: what `JSON.parse(JSON.stringify(...))` gives back for a value held in
  // an object property.

  /** The value a property reads as after a JSON round trip. Object properties
      holding `undefined` are dropped (so they read back as `undefined`), array
      elements holding `undefined` become `null`, everything else is kept. */
  function Revive(v: Js): (r: Js)
    ensures r.Undefined? <==> v.Undefined?
  {
    match v
    case Arr(items) =>
      Arr(seq(|items|, i requires 0 <= i < |items| =>
        if items[i].Undefined? then Null else Revive(items[i])))
    case Obj(m) => Obj(map k | k in m && !m[k].Undefined? :: Revive(m[k]))
    case _ => v
  }

  /** Values JSON represents exactly: no `undefined` inside an array or an object. */
  predicate JsonExact(v: Js) {
    match v
    case Arr(items) => forall i :: 0 <= i < |items| ==> !items[i].Undefined? && JsonExact(items[i])
    case Obj(m) => forall k :: k in m ==> !m[k].Undefined? && JsonExact(m[k])
    case _ => true
  }

  /** Storing and reading back a value JSON represents exactly changes nothing. */
  lemma {:induction false} ReviveExact(v: Js)
    requires JsonExact(v)
    ensures Revive(v) == v
  {
    match v
    case Arr(items) =>
      forall i | 0 <= i < |items| ensures Revive(items[i]) == items[i] {
        ReviveExact(items[i]);
      }
      assert Revive(v).items == items;
    case Obj(m) =>
      forall k | k in m ensures Revive(m[k]) == m[k] {
        ReviveExact(m[k]);
      }
      assert Revive(v).props == m;
    case _ =>
  }

  /** Whatever goes through one JSON round trip is represented exactly. */
  lemma {:induction false} ReviveIsExact(v: Js)
    ensures JsonExact(Revive(v))
  {
    match v
    case Arr(items) =>
      forall i | 0 <= i < |items| && !items[i].Undefined? ensures JsonExact(Revive(items[i])) {
        ReviveIsExact(items[i]);
      }
    case Obj(m) =>
      forall k | k in m && !m[k].Undefined? ensures JsonExact(Revive(m[k])) {
        ReviveIsExact(m[k]);
      }
    case _ =>
  }

  /** A second JSON round trip changes nothing more than the first. */
  lemma {:induction false} ReviveIdempotent(v: Js)
    ensures Revive(Revive(v)) == Revive(v)
  {
    ReviveIsExact(v);
    ReviveExact(Revive(v));
  }

}
