/**
 * Decimal digits: the rendering of integers that Go's `fmt` verb `%d` and the
 * time package's fixed-width fields produce, and the reading of digit runs
 * that the time parsers perform.
 */
module Decimal {

  predicate IsDigit(c: char) {
    '0' <= c <= '9'
  }

  predicate AllDigits(s: string) {
    forall i :: 0 <= i < |s| ==> IsDigit(s[i])
  }

  function DigitValue(c: char): nat
    requires IsDigit(c)
  {
    c as int - '0' as int
  }

  function Digit(n: nat): (c: char)
    requires n <= 9
    ensures IsDigit(c) && DigitValue(c) == n
  {
    ('0' as int + n) as char
  }

  /** The number a run of decimal digits denotes (most significant digit first). */
  function Value(s: string): nat
    requires AllDigits(s)
  {
    if s == [] then 0 else Value(s[..|s| - 1]) * 10 + DigitValue(s[|s| - 1])
  }

  function Pow10(n: nat): nat {
    if n == 0 then 1 else 10 * Pow10(n - 1)
  }

  /** A run of n digits denotes a number below 10^n. */
  lemma {:induction false} ValueBound(s: string)
    requires AllDigits(s)
    ensures Value(s) < Pow10(|s|)
  {
    if s != [] {
      ValueBound(s[..|s| - 1]);
    }
  }

  /** Shortest decimal rendering of a natural number, as `%d` writes it. */
  function Decimal(n: nat): (s: string)
    ensures AllDigits(s) && 1 <= |s|
    ensures |s| == 1 <==> n < 10
  {
    if n < 10 then [Digit(n)] else Decimal(n / 10) + [Digit(n % 10)]
  }

  /** Reading back what `Decimal` writes gives the number. */
  lemma {:induction false} ValueOfDecimal(n: nat)
    ensures Value(Decimal(n)) == n
  {
    if n >= 10 {
      var s := Decimal(n);
      assert s[..|s| - 1] == Decimal(n / 10);
      ValueOfDecimal(n / 10);
    }
  }

  lemma DecimalInjective(a: nat, b: nat)
    requires Decimal(a) == Decimal(b)
    ensures a == b
  {
    ValueOfDecimal(a);
    ValueOfDecimal(b);
  }

  /** `%d` of a Go int. */
  function Itoa(x: int): string {
    if x < 0 then "-" + Decimal(-x) else Decimal(x)
  }

  function Zeros(n: nat): (s: string)
    ensures |s| == n && forall i :: 0 <= i < n ==> s[i] == '0'
  {
    if n == 0 then "" else Zeros(n - 1) + "0"
  }

  /** Left-pads a digit string with zeros up to `width` characters. */
  function ZeroPad(s: string, width: nat): (r: string)
    ensures |r| == if |s| >= width then |s| else width
  {
    if |s| >= width then s else Zeros(width - |s|) + s
  }

  /**
   * The time package's appendInt: a minus sign for negative values, then the
   * magnitude padded with zeros to `width` digits; the two- and four-digit
   * cases are written out digit by digit, as the library does.
   */
  function AppendInt(x: int, width: nat): string {
    var u: nat := if x < 0 then -x else x;
    var sign := if x < 0 then "-" else "";
    if width == 2 && u < 100 then sign + [Digit(u / 10), Digit(u % 10)]
    else if width == 4 && u < 10000 then sign + [Digit(u / 1000), Digit(u / 100 % 10), Digit(u / 10 % 10), Digit(u % 10)]
    else sign + ZeroPad(Decimal(u), width)
  }

  lemma ValueSnoc(s: string, c: char)
    requires AllDigits(s) && IsDigit(c)
    ensures AllDigits(s + [c]) && Value(s + [c]) == Value(s) * 10 + DigitValue(c)
  {
    assert (s + [c])[..|s|] == s;
  }

  /** A field written by AppendInt at width 2 or 4 reads back as the value it was given. */
  lemma AppendIntFixed(x: nat, width: nat)
    requires (width == 2 && x < 100) || (width == 4 && x < 10000)
    ensures var s := AppendInt(x, width); |s| == width && AllDigits(s) && Value(s) == x
  {
    var s := AppendInt(x, width);
    if width == 2 {
      assert s == [Digit(x / 10)] + [Digit(x % 10)];
      ValueSnoc([], Digit(x / 10));
      ValueSnoc([Digit(x / 10)], Digit(x % 10));
    } else {
      var a, b, c, d := Digit(x / 1000), Digit(x / 100 % 10), Digit(x / 10 % 10), Digit(x % 10);
      assert s == [a] + [b] + [c] + [d];
      ValueSnoc([], a);
      ValueSnoc([a], b);
      assert [a] + [b] == [a, b];
      ValueSnoc([a, b], c);
      assert [a, b] + [c] == [a, b, c];
      ValueSnoc([a, b, c], d);
      assert x / 100 == x / 1000 * 10 + x / 100 % 10;
      assert x / 10 == x / 100 * 10 + x / 10 % 10;
    }
  }
}
