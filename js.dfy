/** The pieces of JavaScript semantics the canvas hooks rely on: `||` defaulting,
    `Math.round`, number-to-text conversion and the WebIDL conversion applied when
    a number is stored into `canvas.width` / `canvas.height`. */
module Js {
  import opened Wrappers

  /** A number property is truthy when it is present and not 0 (NaN does not exist among reals). */
  predicate TruthyNumber(x: Option<real>) {
    x.Some? && x.value != 0.0
  }

  /** `x || fallback` for a number property. */
  function OrNumber(x: Option<real>, fallback: real): (r: real)
    ensures TruthyNumber(x) ==> r == x.value
    ensures r == fallback || (TruthyNumber(x) && r == x.value)
    ensures fallback != 0.0 ==> r != 0.0
  {
    if TruthyNumber(x) then x.value else fallback
  }

  /** `s || fallback` for a string property: absent and empty strings are falsy. */
  function OrString(s: Option<string>, fallback: string): (r: string)
    ensures fallback != "" ==> r != ""
    ensures s.Some? && s.value != "" ==> r == s.value
    ensures r == fallback || (s.Some? && r == s.value)
  {
    if s.Some? && s.value != "" then s.value else fallback
  }

  function Min(a: real, b: real): (m: real)
    ensures m <= a && m <= b && (m == a || m == b)
  {
    if a <= b then a else b
  }

  /** `Math.round`: the nearest integer, halves rounded towards +infinity. */
  function Round(x: real): (r: int)
    ensures r as real - 0.5 <= x < r as real + 0.5
  {
    (x + 0.5).Floor
  }

  const TwoTo32: nat := 0x1_0000_0000

  /** The WebIDL `unsigned long` conversion of a (finite) number: truncate
      towards zero, then reduce modulo 2^32. */
  function ToUnsignedLong(x: real): (r: nat)
    ensures r < TwoTo32
    ensures 0.0 <= x < TwoTo32 as real ==> r as real <= x < r as real + 1.0
  {
    var t := if x >= 0.0 then x.Floor else -((-x).Floor);
    t % TwoTo32
  }

  function DigitChar(d: nat): (c: char)
    requires d < 10
    ensures '0' <= c <= '9' && c as int - '0' as int == d
  {
    ('0' as int + d) as char
  }

  predicate IsDigits(s: string) {
    forall i :: 0 <= i < |s| ==> '0' <= s[i] <= '9'
  }

  /** The decimal text JavaScript produces for a non-negative integer. */
  function NatToDecimal(n: nat): (s: string)
    ensures |s| > 0 && IsDigits(s)
    ensures s[0] == '0' ==> n == 0
    decreases n
  {
    if n < 10 then [DigitChar(n)] else NatToDecimal(n / 10) + [DigitChar(n % 10)]
  }

  /** The decimal text of an integer, with a leading '-' when negative. */
  function IntToDecimal(i: int): (s: string)
    ensures |s| > 0
    ensures (s[0] == '-') == (i < 0)
    ensures i >= 0 ==> IsDigits(s)
  {
    if i < 0 then "-" + NatToDecimal(-i) else NatToDecimal(i)
  }

  /** The value a string of decimal digits denotes: the partner of NatToDecimal. */
  function DecimalValue(s: string): nat
    requires IsDigits(s)
    decreases |s|
  {
    if s == [] then 0 else DecimalValue(s[..|s| - 1]) * 10 + (s[|s| - 1] as int - '0' as int)
  }

  /** Reading the decimal text of n back gives n. */
  lemma {:induction false} DecimalRoundTrip(n: nat)
    ensures DecimalValue(NatToDecimal(n)) == n
    decreases n
  {
    if n >= 10 {
      DecimalRoundTrip(n / 10);
      var s := NatToDecimal(n);
      assert s[..|s| - 1] == NatToDecimal(n / 10);
    }
  }

  /** Distinct numbers get distinct texts. */
  lemma DecimalInjective(m: nat, n: nat)
    requires NatToDecimal(m) == NatToDecimal(n)
    ensures m == n
  {
    DecimalRoundTrip(m);
    DecimalRoundTrip(n);
  }
}
