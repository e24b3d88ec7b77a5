/** JavaScript values as the front end sees them in parsed JSON and in
    `localStorage`, with JavaScript truthiness and strict equality. */
module Js {
  import opened Wrappers

  /** A JSON value held in an object field. Numbers are integers in this model. */
  datatype JsValue = JsNull | JsBool(b: bool) | JsNum(n: int) | JsStr(s: string)

  /** A plain JavaScript object: a missing key reads as `undefined`. */
  type JsObject = map<string, JsValue>

  /** JavaScript truthiness (`undefined` is a missing key and is handled by `FieldTruthy`). */
  predicate JsTruthy(v: JsValue) {
    match v
    case JsNull => false
    case JsBool(b) => b
    case JsNum(n) => n != 0
    case JsStr(s) => s != ""
  }

  /** `obj.key` is truthy. */
  predicate FieldTruthy(o: JsObject, key: string) {
    key in o && JsTruthy(o[key])
  }

  /** `obj.key === JsStr(s)`: strict equality against a string. */
  predicate FieldIs(o: JsObject, key: string, s: string) {
    key in o && o[key] == JsStr(s)
  }

  /** The text a template literal or string concatenation produces for a value. */
  function JsText(v: JsValue): string {
    match v
    case JsNull => "null"
    case JsBool(b) => if b then "true" else "false"
    case JsNum(n) => IntText(n)
    case JsStr(s) => s
  }

  /** Decimal text of an integer, as `String(n)` writes it. */
  function IntText(n: int): (r: string)
    decreases if n < 0 then 1 - n else n
  {
    if n < 0 then "-" + IntText(-n)
    else if n < 10 then [DigitChar(n)]
    else IntText(n / 10) + [DigitChar(n % 10)]
  }

  function DigitChar(d: int): char
    requires 0 <= d < 10
  {
    ('0' as int + d) as char
  }

  /** `xs.map(f)`. */
  function ArrayMap<A, B>(f: A -> B, xs: seq<A>): (r: seq<B>)
    ensures |r| == |xs|
    ensures forall i :: 0 <= i < |xs| ==> r[i] == f(xs[i])
  {
    seq(|xs|, i requires 0 <= i < |xs| => f(xs[i]))
  }

  /** Mapping one more element appends its image. */
  lemma ArrayMapStep<A, B>(f: A -> B, xs: seq<A>, i: nat)
    requires i < |xs|
    ensures ArrayMap(f, xs[..i + 1]) == ArrayMap(f, xs[..i]) + [f(xs[i])]
  {
    var a, b := ArrayMap(f, xs[..i + 1]), ArrayMap(f, xs[..i]) + [f(xs[i])];
    forall k | 0 <= k < |a|
      ensures a[k] == b[k]
    {
      assert xs[..i + 1][k] == xs[k];
    }
  }
}
