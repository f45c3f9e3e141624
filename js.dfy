/** The pieces of JavaScript value semantics that the client's rules depend on:
    JSON-like values and their truthiness, `String.prototype.trim` blankness,
    and the decimal conversions `n.toString()` and `Number(s)`. */
module Js {
  import opened Wrappers

  /** A value as it travels through statement parameters, request bodies and
      server replies. Numbers are integers: the client only handles ids, costs,
      round numbers and flags. */
  datatype Value = Undefined | Null | Bool(b: bool) | Num(n: int) | Str(s: string)

  /** JavaScript truthiness of a value. */
  predicate Truthy(v: Value) {
    match v
    case Undefined => false
    case Null => false
    case Bool(b) => b
    case Num(n) => n != 0
    case Str(s) => |s| > 0
  }

  /** `a || b` */
  function Or(a: Value, b: Value): Value {
    if Truthy(a) then a else b
  }

  /** An optional number as a value: absent is `null`. */
  function NumOrNull(n: Option<int>): Value {
    match n
    case Some(v) => Num(v)
    case None => Null
  }

  /** An optional number as a value: absent is `undefined`. */
  function NumOrUndefined(n: Option<int>): Value {
    match n
    case Some(v) => Num(v)
    case None => Undefined
  }

  /** `id || null` for an optional id: a missing id and the id 0 both become `null`. */
  function IdOrNull(n: Option<int>): (v: Value)
    ensures v == Null <==> n.None? || n.value == 0
    ensures v != Null ==> v == Num(n.value)
  {
    Or(NumOrNull(n), Null)
  }

  /** The code points `String.prototype.trim` removes: the ECMAScript WhiteSpace
      (tab, vertical tab, form feed, space, no-break space, zero-width no-break
      space and every Unicode space separator) and LineTerminator characters. */
  predicate IsWhitespace(c: char) {
    c == '\t' || c == '\n' || c == '\U{B}' || c == '\U{C}' || c == '\r' || c == ' '
    || c == '\U{A0}' || c == '\U{1680}' || ('\U{2000}' <= c <= '\U{200A}')
    || c == '\U{2028}' || c == '\U{2029}' || c == '\U{202F}' || c == '\U{205F}'
    || c == '\U{3000}' || c == '\U{FEFF}'
  }

  /** `s.trim() === ""`: every character is trimmed away. */
  predicate Blank(s: string) {
    forall i :: 0 <= i < |s| ==> IsWhitespace(s[i])
  }

  predicate IsDigit(c: char) { '0' <= c <= '9' }

  predicate AllDigits(s: string) {
    forall i :: 0 <= i < |s| ==> IsDigit(s[i])
  }

  /** ASCII lower-casing, as `toLowerCase` does on the identifiers it meets here. */
  function Lower(s: string): (r: string)
    ensures |r| == |s|
  {
    seq(|s|, i requires 0 <= i < |s| => if 'A' <= s[i] <= 'Z' then (s[i] as int + 32) as char else s[i])
  }

  function DigitChar(d: nat): char
    requires d < 10
  {
    (48 + d) as char
  }

  /** Decimal digits of a natural number, most significant first. */
  function NatToString(n: nat): (s: string)
    ensures |s| > 0 && AllDigits(s)
  {
    if n < 10 then [DigitChar(n)] else NatToString(n / 10) + [DigitChar(n % 10)]
  }

  /** `n.toString()` for an integer. */
  function IntToString(n: int): string {
    if n < 0 then "-" + NatToString(-n) else NatToString(n)
  }

  /** `String(v)`, which is also what a template string `${v}` inserts. */
  function Template(v: Value): string {
    match v
    case Undefined => "undefined"
    case Null => "null"
    case Bool(b) => if b then "true" else "false"
    case Num(n) => IntToString(n)
    case Str(s) => s
  }

  /** `params[i]`: reading past either end gives `undefined`. */
  function At(params: seq<Value>, i: int): (v: Value)
    ensures 0 <= i < |params| ==> v == params[i]
    ensures !(0 <= i < |params|) ==> v == Undefined
  {
    if 0 <= i < |params| then params[i] else Undefined
  }

  /** `text.includes(pat)` */
  predicate Contains(text: string, pat: string) {
    pat <= text || (text != [] && Contains(text[1..], pat))
  }

  /** An optional number inside a template string: `${id}`. */
  function OptionalToString(n: Option<int>): string {
    match n
    case Some(v) => IntToString(v)
    case None => "undefined"
  }

  /** The number a non-empty digit string denotes. */
  function ParseNat(s: string): nat
    requires |s| > 0 && AllDigits(s)
  {
    var d := s[|s| - 1] as int - 48;
    if |s| == 1 then d else ParseNat(s[..|s| - 1]) * 10 + d
  }

  /** `Number(s)` on the strings this client stores: an optional minus sign and
      decimal digits; anything else is NaN, written `None`. */
  function ParseNumber(s: string): Option<int> {
    if |s| > 0 && AllDigits(s) then Some(ParseNat(s))
    else if |s| > 1 && s[0] == '-' && AllDigits(s[1..]) then Some(0 - ParseNat(s[1..]))
    else None
  }

  lemma {:induction false} ParseNatString(n: nat)
    ensures ParseNat(NatToString(n)) == n
  {
    if n >= 10 {
      ParseNatString(n / 10);
      var s := NatToString(n);
      assert s[..|s| - 1] == NatToString(n / 10);
    }
  }

  /** Writing an integer with `toString` and reading it back with `Number`
      gives the integer back. */
  lemma NumberOfString(n: int)
    ensures ParseNumber(IntToString(n)) == Some(n)
  {
    if n < 0 {
      var t := NatToString(-n);
      var s := "-" + t;
      assert s == IntToString(n);
      assert !IsDigit(s[0]);
      assert s[1..] == t;
      ParseNatString(-n);
      assert ParseNumber(s) == Some(0 - ParseNat(t));
    } else {
      ParseNatString(n);
    }
  }

  /** Distinct integers print differently. */
  lemma IntToStringInjective(a: int, b: int)
    ensures IntToString(a) == IntToString(b) ==> a == b
  {
    NumberOfString(a);
    NumberOfString(b);
  }
}
