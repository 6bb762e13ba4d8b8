/**
 * Unsigned integers written as digit strings: the `{n}`, `{n:02d}`, `{n:03d}` and
 * `.hex` renderings the scripts put into paths, timestamps and identifiers.
 */
module Digits {

  /** The character for digit value `d` (lower-case letters above 9, as `.hex` prints them). */
  function DigitChar(d: nat): (c: char)
    requires d < 16
  {
    if d < 10 then (48 + d) as char else (97 + d - 10) as char
  }

  /** The value of a digit character; 0 for anything that is not a digit. */
  function DigitValue(c: char): nat
  {
    if '0' <= c <= '9' then c as int - 48
    else if 'a' <= c <= 'f' then c as int - 97 + 10
    else 0
  }

  predicate IsDigit(c: char, base: nat)
  {
    ('0' <= c <= '9' || 'a' <= c <= 'f') && DigitValue(c) < base
  }

  lemma DigitRoundTrip(d: nat, base: nat)
    requires d < base <= 16
    ensures IsDigit(DigitChar(d), base) && DigitValue(DigitChar(d)) == d
  {
  }

  /** Euclidean division by a base: quotient and remainder put back together, and the quotient shrinks. */
  lemma DivModBase(n: nat, base: nat)
    requires 2 <= base
    ensures n == (n / base) * base + n % base && n % base < base
    ensures n >= base ==> n / base < n
    ensures n < base ==> n / base == 0 && n % base == n
  {
  }

  lemma DivBelow(n: nat, base: nat, p: nat)
    requires 2 <= base && n < base * p
    ensures n / base < p
  {
    DivModBase(n, base);
    var q := n / base;
    assert q * base <= n;
    assert q * base < p * base;
  }

  function Pow(b: nat, e: nat): nat
  {
    if e == 0 then 1 else b * Pow(b, e - 1)
  }

  lemma {:induction false} PowSplit(b: nat, e1: nat, e2: nat)
    ensures Pow(b, e1 + e2) == Pow(b, e1) * Pow(b, e2)
    decreases e1
  {
    if e1 > 0 {
      PowSplit(b, e1 - 1, e2);
      assert Pow(b, e1 + e2) == b * Pow(b, e1 - 1 + e2);
    }
  }

  /**
   * `n` in base `base`, left-padded with zeros to at least `width` digits and
   * never truncated, like Python's `f"{n:0{width}d}"` (or `x` for base 16).
   */
  function Format(n: nat, base: nat, width: nat): (s: string)
    requires 2 <= base <= 16
    ensures |s| >= 1 && |s| >= width
    ensures forall i :: 0 <= i < |s| ==> IsDigit(s[i], base)
    decreases n, width
  {
    DivModBase(n, base);
    DigitRoundTrip(n % base, base);
    if n < base && width <= 1 then [DigitChar(n)]
    else Format(n / base, base, if width == 0 then 0 else width - 1) + [DigitChar(n % base)]
  }

  /** Reads a digit string back (most significant digit first). */
  function Parse(s: string, base: nat): nat
  {
    if s == [] then 0 else Parse(s[..|s| - 1], base) * base + DigitValue(s[|s| - 1])
  }

  /** Decimal without padding (`f"{n}"`). */
  function Dec(n: nat): (s: string)
  {
    Format(n, 10, 1)
  }

  /** Decimal zero-padded to `width` digits (`f"{n:0{width}d}"`). */
  function Pad(n: nat, width: nat): (s: string)
  {
    Format(n, 10, width)
  }

  /** Lower-case hexadecimal zero-padded to `width` digits. */
  function Hex(n: nat, width: nat): (s: string)
  {
    Format(n, 16, width)
  }

  /** Parsing undoes formatting, whatever the padding. */
  lemma {:induction false} ParseFormat(n: nat, base: nat, width: nat)
    requires 2 <= base <= 16
    ensures Parse(Format(n, base, width), base) == n
    decreases n, width
  {
    DivModBase(n, base);
    if n < base && width <= 1 {
      DigitRoundTrip(n, base);
    } else {
      var w' := if width == 0 then 0 else width - 1;
      ParseFormatStep(n, base, width);
      ParseFormat(n / base, base, w');
    }
  }

  /** Parsing a rendering of more than one digit reads the leading digits, then the last one. */
  lemma ParseFormatStep(n: nat, base: nat, width: nat)
    requires 2 <= base <= 16 && !(n < base && width <= 1)
    ensures Parse(Format(n, base, width), base)
            == Parse(Format(n / base, base, if width == 0 then 0 else width - 1), base) * base + n % base
  {
    DivModBase(n, base);
    DigitRoundTrip(n % base, base);
    var s, pre := Format(n, base, width), Format(n / base, base, if width == 0 then 0 else width - 1);
    assert s == pre + [DigitChar(n % base)];
    assert s[..|s| - 1] == pre && s[|s| - 1] == DigitChar(n % base);
  }

  /** A number below `base^width` fills exactly `width` digits. */
  lemma {:induction false} FormatExactWidth(n: nat, base: nat, width: nat)
    requires 2 <= base <= 16 && 1 <= width && n < Pow(base, width)
    ensures |Format(n, base, width)| == width
    decreases width
  {
    if width == 1 {
      assert Pow(base, 1) == base;
    } else {
      DivBelow(n, base, Pow(base, width - 1));
      FormatExactWidth(n / base, base, width - 1);
    }
  }

  /** Two renderings in the same base are equal only for equal numbers. */
  lemma FormatInjective(a: nat, b: nat, base: nat, wa: nat, wb: nat)
    requires 2 <= base <= 16
    requires Format(a, base, wa) == Format(b, base, wb)
    ensures a == b
  {
    ParseFormat(a, base, wa);
    ParseFormat(b, base, wb);
  }

  lemma PadTwo(n: nat)
    requires n < 100
    ensures |Pad(n, 2)| == 2
  {
    assert Pow(10, 2) == 100;
    FormatExactWidth(n, 10, 2);
  }
}
