/**
 * The JavaScript values the configuration class handles: documents, mapping
 * bodies, ids and connection options, with the three conversions the class
 * relies on: truthiness (`x ? a : b`, `x || y`), string concatenation
 * (`'a' + x`, which is `String(x)`) and `x.toString()`, which throws a
 * TypeError on `null` and `undefined`.
 *
 * `undefined` is not a Json value: where a value may be undefined the model
 * uses `Option<Json>`, with `None` for undefined. Numbers are integers.
 */
module JsValues {
  import opened Wrappers

  datatype Json =
    | JNull
    | JBool(b: bool)
    | JNum(n: int)
    | JStr(s: string)
    | JArr(items: seq<Json>)
    | JObj(fields: map<string, Json>)

  /** JavaScript truthiness; `undefined` (None) is falsy. */
  predicate Truthy(v: Option<Json>) {
    match v
    case None => false
    case Some(j) =>
      match j
      case JNull => false
      case JBool(b) => b
      case JNum(n) => n != 0
      case JStr(s) => s != ""
      case _ => true
  }

  /** A string used where JavaScript tests its truthiness: only "" is falsy. */
  predicate Given(v: Option<string>) {
    v.Some? && v.value != ""
  }

  predicate IsDigit(c: char) {
    '0' <= c <= '9'
  }

  function DigitChar(d: nat): (c: char)
    requires d < 10
    ensures IsDigit(c) && (c as int) - ('0' as int) == d
  {
    (('0' as int) + d) as char
  }

  /** The decimal numeral JavaScript writes for a non-negative integer. */
  function NatToString(n: nat): (s: string)
    ensures |s| >= 1 && forall i :: 0 <= i < |s| ==> IsDigit(s[i])
    ensures s[0] == '0' ==> n == 0
    decreases n
  {
    if n < 10 then [DigitChar(n)] else NatToString(n / 10) + [DigitChar(n % 10)]
  }

  /** The value of a string of decimal digits. */
  function DigitsValue(s: string): nat
    requires forall i :: 0 <= i < |s| ==> IsDigit(s[i])
  {
    if s == [] then 0
    else
      assert IsDigit(s[|s| - 1]);
      10 * DigitsValue(s[..|s| - 1]) + ((s[|s| - 1] as int) - ('0' as int))
  }

  /** Reading the numeral back gives the number: NatToString loses nothing. */
  lemma {:induction false} NatToStringRoundTrip(n: nat)
    ensures DigitsValue(NatToString(n)) == n
  {
    var s := NatToString(n);
    if n >= 10 {
      NatToStringRoundTrip(n / 10);
      assert s[..|s| - 1] == NatToString(n / 10);
    }
  }

  /** Distinct numbers get distinct numerals. */
  lemma NatToStringInjective(m: nat, n: nat)
    requires NatToString(m) == NatToString(n)
    ensures m == n
  {
    NatToStringRoundTrip(m);
    NatToStringRoundTrip(n);
  }

  function IntToString(i: int): (s: string)
    ensures |s| >= 1
    ensures i < 0 <==> s[0] == '-'
  {
    if i < 0 then "-" + NatToString(-i) else NatToString(i)
  }

  /** `String(v)` for a defined value. */
  function Show(v: Json): string
    decreases v, 1
  {
    match v
    case JNull => "null"
    case JBool(b) => if b then "true" else "false"
    case JNum(n) => IntToString(n)
    case JStr(s) => s
    case JObj(_) => "[object Object]"
    case JArr(items) => ShowItems(items, v)
  }

  /** `items.join(",")`, which writes null elements as the empty string. */
  function ShowItems(items: seq<Json>, ghost owner: Json): string
    requires forall i :: 0 <= i < |items| ==> items[i] < owner
    decreases owner, 0, |items|
  {
    if items == [] then ""
    else
      var head := if items[0] == JNull then "" else Show(items[0]);
      if |items| == 1 then head else head + "," + ShowItems(items[1..], owner)
  }

  /** `'' + v`: concatenation converts undefined to "undefined". */
  function StringOf(v: Option<Json>): (s: string)
    ensures v.None? ==> s == "undefined"
    ensures v.Some? ==> s == Show(v.value)
  {
    match v
    case None => "undefined"
    case Some(j) => Show(j)
  }

  /** `v.toString()`: None where JavaScript throws a TypeError (v is undefined or null). */
  function CallToString(v: Option<Json>): (r: Option<string>)
    ensures r.None? <==> (v.None? || v.value == JNull)
    ensures r.Some? ==> r.value == StringOf(v)
  {
    if v.None? || v.value == JNull then None else Some(Show(v.value))
  }
}
