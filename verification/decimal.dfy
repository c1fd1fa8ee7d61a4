/**
 * Decimal text of integers, as it crosses the wire.
 *
 * The client writes a Go `int` argument as its decimal text; the server reads
 * integer arguments (the EVAL key count, the SET expiry) back with a strict
 * parser that accepts an optional minus sign followed by digits without a
 * leading zero, and refuses "-0".
 */
module Decimal {
  import opened Options

  predicate IsDigit(c: char) {
    '0' <= c <= '9'
  }

  function DigitChar(d: nat): (c: char)
    requires d < 10
    ensures IsDigit(c)
  {
    ('0' as int + d) as char
  }

  function DigitValue(c: char): (d: nat)
    requires IsDigit(c)
    ensures d < 10
  {
    c as int - '0' as int
  }

  predicate AllDigits(t: string) {
    forall i :: 0 <= i < |t| ==> IsDigit(t[i])
  }

  /** A non-empty digit string with no superfluous leading zero. */
  predicate Canonical(t: string) {
    |t| > 0 && AllDigits(t) && (t[0] == '0' ==> |t| == 1)
  }

  /** The decimal digits of `n`, most significant first. */
  function Digits(n: nat): (t: string)
    ensures Canonical(t)
    ensures t[0] == '0' <==> n == 0
    decreases n
  {
    if n < 10 then [DigitChar(n)] else Digits(n / 10) + [DigitChar(n % 10)]
  }

  /** The number a digit string denotes. */
  function ValueOf(t: string): nat
    requires AllDigits(t)
    decreases |t|
  {
    if |t| == 0 then 0 else ValueOf(t[..|t| - 1]) * 10 + DigitValue(t[|t| - 1])
  }

  /** The text the client writes for an integer argument. */
  function FormatInt(n: int): string {
    if n < 0 then "-" + Digits(-n) else Digits(n)
  }

  /** The server's reading of an integer argument; None when it is not one. */
  function ParseInt(s: string): Option<int> {
    if |s| > 0 && s[0] == '-' then
      var t := s[1..];
      if Canonical(t) && t != "0" then Some(-(ValueOf(t) as int)) else None
    else if Canonical(s) then Some(ValueOf(s))
    else None
  }

  lemma {:induction false} ValueOfDigits(n: nat)
    ensures ValueOf(Digits(n)) == n
    decreases n
  {
    if n >= 10 {
      var t := Digits(n);
      assert t[..|t| - 1] == Digits(n / 10);
      ValueOfDigits(n / 10);
    }
  }

  /** A canonical digit string whose first digit is not zero denotes a positive number. */
  lemma {:induction false} PositiveValue(t: string)
    requires Canonical(t) && t[0] != '0'
    ensures ValueOf(t) > 0
    decreases |t|
  {
    if |t| > 1 {
      var p := t[..|t| - 1];
      assert p[0] == t[0];
      PositiveValue(p);
    }
  }

  lemma {:induction false} DigitsOfValue(t: string)
    requires Canonical(t)
    ensures Digits(ValueOf(t)) == t
    decreases |t|
  {
    var p := t[..|t| - 1];
    if |t| > 1 {
      assert p[0] == t[0];
      PositiveValue(p);
      DigitsOfValue(p);
      assert t == p + [t[|t| - 1]];
    } else {
      assert ValueOf(p) == 0;
    }
  }

  /** Every integer the client writes is read back as the same integer. */
  lemma ParseFormat(n: int)
    ensures ParseInt(FormatInt(n)) == Some(n)
  {
    if n < 0 {
      var s := FormatInt(n);
      assert s[1..] == Digits(-n);
      ValueOfDigits(-n);
    } else {
      ValueOfDigits(n);
    }
  }

  /** Every text the server accepts as an integer is exactly that integer's written form. */
  lemma FormatParse(s: string, n: int)
    requires ParseInt(s) == Some(n)
    ensures FormatInt(n) == s
  {
    if |s| > 0 && s[0] == '-' {
      var t := s[1..];
      DigitsOfValue(t);
      PositiveValue(t);
      assert s == "-" + t;
    } else {
      DigitsOfValue(s);
    }
  }
}
