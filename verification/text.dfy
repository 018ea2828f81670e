/** Decimal rendering of non-negative integers and `String.prototype.padStart`, with their inverses. */
module Text {

  import opened Optional

  predicate IsDigit(c: char)
  {
    '0' <= c <= '9'
  }

  predicate AllDigits(s: string)
  {
    forall i :: 0 <= i < |s| ==> IsDigit(s[i])
  }

  /** A decimal numeral as `Number.prototype.toString()` writes it: non-empty, no leading zero. */
  predicate Canonical(s: string)
  {
    s != [] && AllDigits(s) && (|s| == 1 || s[0] != '0')
  }

  function DigitChar(d: nat): (c: char)
    requires d < 10
    ensures IsDigit(c) && c as int - '0' as int == d
  {
    (d + '0' as int) as char
  }

  function DigitValue(c: char): (d: nat)
    requires IsDigit(c)
    ensures d < 10 && DigitChar(d) == c
  {
    c as int - '0' as int
  }

  /** `n.toString()` for a non-negative integer `n`. */
  function Decimal(n: nat): (s: string)
    ensures Canonical(s)
    ensures |s| == 1 <==> n < 10
    ensures n < 100 ==> |s| <= 2
    decreases n
  {
    if n < 10 then [DigitChar(n)] else Decimal(n / 10) + [DigitChar(n % 10)]
  }

  /** The number a string of decimal digits denotes (leading zeros allowed). */
  function DigitsValue(s: string): nat
    requires AllDigits(s)
  {
    if s == [] then 0 else DigitsValue(s[..|s| - 1]) * 10 + DigitValue(s[|s| - 1])
  }

  /** Reads back a numeral; `None` for the empty string or any non-digit. */
  function ParseNat(s: string): (r: Option<nat>)
    ensures r.Some? <==> s != [] && AllDigits(s)
  {
    if s != [] && AllDigits(s) then Some(DigitsValue(s)) else None
  }

  lemma {:induction false} DecimalRoundTrip(n: nat)
    ensures DigitsValue(Decimal(n)) == n
    ensures ParseNat(Decimal(n)) == Some(n)
    decreases n
  {
    if n >= 10 {
      var s := Decimal(n);
      assert s[..|s| - 1] == Decimal(n / 10);
      DecimalRoundTrip(n / 10);
    }
  }

  lemma DecimalInjective(a: nat, b: nat)
    ensures Decimal(a) == Decimal(b) ==> a == b
  {
    DecimalRoundTrip(a);
    DecimalRoundTrip(b);
  }

  /** A leading zero does not change the value of a digit string. */
  lemma {:induction false} LeadingZero(s: string)
    requires AllDigits(s)
    ensures AllDigits("0" + s) && DigitsValue("0" + s) == DigitsValue(s)
    decreases |s|
  {
    var z := "0" + s;
    assert AllDigits(z);
    if s != [] {
      assert z[..|z| - 1] == "0" + s[..|s| - 1];
      LeadingZero(s[..|s| - 1]);
    }
  }

  /** `s.padStart(width, fill)` with a one-character fill string. */
  function PadStart(s: string, width: nat, fill: char): (r: string)
    ensures |r| == if |s| >= width then |s| else width
    ensures r[|r| - |s|..] == s
    ensures forall i :: 0 <= i < |r| - |s| ==> r[i] == fill
  {
    if |s| >= width then s else seq(width - |s|, _ => fill) + s
  }

  /** `x.toString().padStart(2, "0")`, used for minutes and seconds below one hundred. */
  function TwoDigits(x: nat): string
  {
    PadStart(Decimal(x), 2, '0')
  }

  lemma TwoDigitsValue(x: nat)
    requires x < 100
    ensures |TwoDigits(x)| == 2 && AllDigits(TwoDigits(x))
    ensures DigitsValue(TwoDigits(x)) == x
  {
    DecimalRoundTrip(x);
    if x < 10 {
      assert TwoDigits(x) == "0" + Decimal(x);
      LeadingZero(Decimal(x));
    } else {
      assert TwoDigits(x) == Decimal(x);
    }
  }
}
