/**
  The pieces of JavaScript's runtime that the declarative-config pass relies on:
  JSON-like values and their truthiness, plain objects with their key order,
  `Number(...)` on the strings a URL port can hold, `substring` and `toUpperCase`.
 */
module JsValues {

  datatype Option<+T> = None | Some(value: T) {
    function GetOr(default: T): T {
      if Some? then value else default
    }
  }

  /** A value of the parsed document. Numbers are integers here. */
  datatype Json =
    | Null
    | Bool(b: bool)
    | Num(n: int)
    | Str(s: string)
    | Arr(items: seq<Json>)
    | Obj(fields: seq<(string, Json)>)

  /** A plain object: its own properties in `Object.keys` order. */
  type Object = seq<(string, Json)>

  /** JavaScript truthiness of a present value (an absent one, `undefined`, is falsy). */
  predicate Truthy(v: Json) {
    match v
    case Null => false
    case Bool(b) => b
    case Num(n) => n != 0
    case Str(s) => s != ""
    case Arr(_) => true
    case Obj(_) => true
  }

  /** `a || b` where either side may be `undefined`. */
  function Or(a: Option<Json>, b: Option<Json>): Option<Json> {
    if a.Some? && Truthy(a.value) then a else b
  }

  /** The set of keys of an object (or of any keyed sequence). */
  function Keys<V>(o: seq<(string, V)>): set<string> {
    if o == [] then {} else {o[0].0} + Keys(o[1..])
  }

  /** The keys in order, as `Object.keys` lists them. */
  function KeyList<V>(o: seq<(string, V)>): seq<string> {
    if o == [] then [] else [o[0].0] + KeyList(o[1..])
  }

  /** What every JavaScript object satisfies: no key occurs twice. */
  predicate UniqueKeys<V>(o: seq<(string, V)>) {
    o == [] || (o[0].0 !in Keys(o[1..]) && UniqueKeys(o[1..]))
  }

  lemma {:induction false} KeysAt<V>(o: seq<(string, V)>, i: nat)
    requires i < |o|
    ensures o[i].0 in Keys(o)
  {
    if i > 0 {
      KeysAt(o[1..], i - 1);
    }
  }

  /** Property access `o[k]`; `None` stands for `undefined`. */
  function Get<V>(o: seq<(string, V)>, k: string): (r: Option<V>)
    ensures r.None? <==> k !in Keys(o)
    ensures r.Some? ==> (k, r.value) in o
  {
    if o == [] then None
    else if o[0].0 == k then Some(o[0].1)
    else Get(o[1..], k)
  }

  /** In an object, looking up the key of the i-th property gives that property's value. */
  lemma {:induction false} GetUnique<V>(o: seq<(string, V)>, i: nat)
    requires UniqueKeys(o) && i < |o|
    ensures Get(o, o[i].0) == Some(o[i].1)
  {
    if i > 0 {
      KeysAt(o[1..], i - 1);
      assert o[1..][i - 1] == o[i];
      GetUnique(o[1..], i - 1);
    }
  }

  /** Property access on an arbitrary value: only objects have named properties here. */
  function Field(v: Json, k: string): Option<Json> {
    if v.Obj? then Get(v.fields, k) else None
  }

  /**
    Defining property `k` in an object literal: an existing property keeps its
    position and takes the new value, a new one is added at the end.
   */
  function Set(o: Object, k: string, v: Json): (r: Object)
    ensures Get(r, k) == Some(v)
    ensures forall k' | k' != k :: Get(r, k') == Get(o, k')
    ensures Keys(r) == Keys(o) + {k}
    ensures k in Keys(o) ==> KeyList(r) == KeyList(o)
    ensures k !in Keys(o) ==> r == o + [(k, v)]
    ensures UniqueKeys(o) ==> UniqueKeys(r)
  {
    if o == [] then [(k, v)]
    else if o[0].0 == k then [(k, v)] + o[1..]
    else
      var rest := Set(o[1..], k, v);
      assert ([o[0]] + rest)[1..] == rest;
      assert k !in Keys(o) ==> [o[0]] + (o[1..] + [(k, v)]) == o + [(k, v)];
      [o[0]] + rest
  }

  /** `delete o[k]`. */
  function Remove(o: Object, k: string): (r: Object)
    ensures Get(r, k) == None
    ensures forall k' | k' != k :: Get(r, k') == Get(o, k')
  {
    if o == [] then []
    else if o[0].0 == k then Remove(o[1..], k)
    else
      var rest := Remove(o[1..], k);
      assert ([o[0]] + rest)[1..] == rest;
      [o[0]] + rest
  }

  /** `s.toUpperCase()` on ASCII letters; every other character is kept. */
  function UpperChar(c: char): char {
    if 'a' <= c <= 'z' then (c as int - 32) as char else c
  }

  function ToUpperAscii(s: string): (r: string)
    ensures |r| == |s|
    ensures forall i | 0 <= i < |s| :: r[i] == UpperChar(s[i])
  {
    if s == [] then [] else [UpperChar(s[0])] + ToUpperAscii(s[1..])
  }

  /** `s.substring(0, s.length - 1)`; on the empty string the negative end is clamped to 0. */
  function DropLastChar(s: string): string {
    if s == [] then [] else s[..|s| - 1]
  }

  /** A JavaScript number as `Number(...)` yields it from a port string. */
  datatype Number = Int(value: nat) | NaN

  predicate IsDigit(c: char) {
    '0' <= c <= '9'
  }

  predicate AllDigits(s: string) {
    forall i | 0 <= i < |s| :: IsDigit(s[i])
  }

  function DigitsValue(s: string): nat
    requires AllDigits(s)
  {
    if s == [] then 0
    else 10 * DigitsValue(s[..|s| - 1]) + (s[|s| - 1] as int - '0' as int)
  }

  /** `Number(s)`: the empty string is 0, a run of decimal digits its value, anything else NaN. */
  function ToNumber(s: string): Number {
    if AllDigits(s) then Int(DigitsValue(s)) else NaN
  }

  /** The decimal rendering of a natural number, `String(n)`. */
  function DecimalString(n: nat): (r: string)
    ensures r != [] && AllDigits(r)
  {
    if n < 10 then [('0' as int + n) as char]
    else DecimalString(n / 10) + [('0' as int + n % 10) as char]
  }

  /** `Number` reads back every decimal port number: `Number(String(n)) === n`. */
  lemma {:induction false} ToNumberOfDecimal(n: nat)
    ensures ToNumber(DecimalString(n)) == Int(n)
  {
    var s := DecimalString(n);
    if n < 10 {
      assert s[..|s| - 1] == [];
    } else {
      assert s[..|s| - 1] == DecimalString(n / 10);
      ToNumberOfDecimal(n / 10);
      assert DigitsValue(s) == 10 * (n / 10) + n % 10;
    }
  }
}
