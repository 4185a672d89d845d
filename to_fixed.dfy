/**
 * Number.prototype.toFixed(2) on an amount held exactly as integer cents.
 * ParseFixedTwo is the exact inverse of that rendering, kept to state the
 * round trip; no call of the plugin computes it.  Amounts are exact here:
 * the binary floating-point rounding of the browser is not modelled.
 */
module ToFixed {
  import opened Wrappers

  predicate IsDigit(c: char) { '0' <= c <= '9' }

  predicate AllDigits(s: string) { forall i :: 0 <= i < |s| ==> IsDigit(s[i]) }

  function DigitValue(c: char): (d: nat)
    requires IsDigit(c)
    ensures d < 10
  {
    (c as int) - ('0' as int)
  }

  function DigitChar(d: nat): (c: char)
    requires d < 10
    ensures IsDigit(c) && DigitValue(c) == d
  {
    (('0' as int) + d) as char
  }

  /** The decimal numeral of n: most significant digit first, no leading zero. */
  function NatToDecimal(n: nat): (s: string)
    ensures |s| >= 1 && AllDigits(s)
    ensures (s[0] == '0') == (n == 0)
    ensures n == 0 ==> s == "0"
    decreases n
  {
    if n < 10 then [DigitChar(n)] else NatToDecimal(n / 10) + [DigitChar(n % 10)]
  }

  /** The value of a numeral read most significant digit first. */
  function DecimalValue(s: string): nat
    requires AllDigits(s)
  {
    if s == [] then 0 else 10 * DecimalValue(s[..|s| - 1]) + DigitValue(s[|s| - 1])
  }

  lemma {:induction false} DecimalRoundTrip(n: nat)
    ensures DecimalValue(NatToDecimal(n)) == n
    decreases n
  {
    if n >= 10 {
      DecimalRoundTrip(n / 10);
      var s := NatToDecimal(n);
      assert s[..|s| - 1] == NatToDecimal(n / 10);
    }
  }

  /** The digits, point and two fraction digits of an amount without its sign. */
  predicate UnsignedShape(body: string) {
    && |body| >= 4
    && body[|body| - 3] == '.'
    && AllDigits(body[..|body| - 3])
    && AllDigits(body[|body| - 2..])
  }

  /**
   * What toFixed(2) produces: an optional minus sign, then a non-empty run of
   * digits, a single '.', and exactly two fraction digits; no grouping
   * separators or anything else.
   */
  predicate FixedTwoShape(s: string) {
    UnsignedShape(if |s| > 0 && s[0] == '-' then s[1..] else s)
  }

  /** The rendering of a non-negative number of cents. */
  function UnsignedFixedTwo(m: nat): (body: string)
    ensures UnsignedShape(body) && IsDigit(body[0])
    ensures body[0] == '0' ==> |body| == 4
  {
    var body := NatToDecimal(m / 100) + "." + [DigitChar(m % 100 / 10), DigitChar(m % 10)];
    assert body[..|body| - 3] == NatToDecimal(m / 100);
    assert body[0] == NatToDecimal(m / 100)[0];
    body
  }

  /** (cents / 100).toFixed(2), for an amount that is an exact number of cents. */
  function FixedTwo(cents: int): (s: string)
    ensures FixedTwoShape(s)
    ensures (|s| > 0 && s[0] == '-') == (cents < 0)
    ensures var b := if cents < 0 then s[1..] else s; b[0] == '0' ==> |b| == 4
  {
    if cents < 0 then
      var body := UnsignedFixedTwo(-cents);
      assert ("-" + body)[1..] == body;
      "-" + body
    else
      UnsignedFixedTwo(cents)
  }

  /** The number of cents an unsigned rendering denotes. */
  function UnsignedValue(body: string): nat
    requires UnsignedShape(body)
  {
    assert IsDigit(body[|body| - 2..][0]) && IsDigit(body[|body| - 2..][1]);
    DecimalValue(body[..|body| - 3]) * 100 + DigitValue(body[|body| - 2]) * 10 + DigitValue(body[|body| - 1])
  }

  /** The exact inverse of FixedTwo, in cents; None when the text has another shape. */
  function ParseFixedTwo(s: string): (r: Option<int>)
    ensures r.Some? <==> FixedTwoShape(s)
  {
    var negative := |s| > 0 && s[0] == '-';
    var body := if negative then s[1..] else s;
    if UnsignedShape(body) then
      var v: int := UnsignedValue(body);
      Some(if negative then -v else v)
    else
      None
  }

  lemma UnsignedRoundTrip(m: nat)
    ensures UnsignedValue(UnsignedFixedTwo(m)) == m
  {
    var body := UnsignedFixedTwo(m);
    assert body[..|body| - 3] == NatToDecimal(m / 100);
    DecimalRoundTrip(m / 100);
  }

  /** Reading a rendered amount back gives the amount: toFixed(2) loses nothing on cents. */
  lemma FixedTwoRoundTrip(cents: int)
    ensures ParseFixedTwo(FixedTwo(cents)) == Some(cents)
  {
    if cents < 0 {
      var body := UnsignedFixedTwo(-cents);
      assert FixedTwo(cents)[1..] == body;
      UnsignedRoundTrip(-cents);
    } else {
      UnsignedRoundTrip(cents);
    }
  }

  /** Two amounts render the same only if they are equal. */
  lemma FixedTwoInjective(a: int, b: int)
    requires FixedTwo(a) == FixedTwo(b)
    ensures a == b
  {
    FixedTwoRoundTrip(a);
    FixedTwoRoundTrip(b);
  }
}
