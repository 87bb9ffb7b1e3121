/**
 * Decimal rendering of integers, as Python's `"%s" % n` (that is, `str(n)`) writes them, and the
 * canonical parse that undoes it.
 */
module Decimal {
  import opened Wrappers

  predicate IsDigit(c: char) { '0' <= c <= '9' }

  predicate AllDigits(s: string) { forall i :: 0 <= i < |s| ==> IsDigit(s[i]) }

  function DigitChar(d: nat): (c: char)
    requires d < 10
    ensures IsDigit(c) && c as int - '0' as int == d
  {
    ('0' as int + d) as char
  }

  function DigitValue(c: char): (d: nat)
    requires IsDigit(c)
    ensures d < 10 && DigitChar(d) == c
  {
    c as int - '0' as int
  }

  /** The digits of `n`, most significant first, without leading zeros. */
  function NatDigits(n: nat): (s: string)
    ensures |s| > 0 && AllDigits(s)
  {
    if n < 10 then [DigitChar(n)] else NatDigits(n / 10) + [DigitChar(n % 10)]
  }

  /** `str(n)`: a minus sign for negative numbers, then the digits of the magnitude. */
  function FromInt(n: int): (s: string)
    ensures |s| > 0
    ensures (s[0] == '-') <==> n < 0
    ensures forall i :: (if n < 0 then 1 else 0) <= i < |s| ==> IsDigit(s[i])
  {
    if n < 0 then "-" + NatDigits(-n) else NatDigits(n)
  }

  /** The number a string of digits denotes. */
  function Value(s: string): nat
    requires AllDigits(s)
  {
    if s == [] then 0 else 10 * Value(s[..|s| - 1]) + DigitValue(s[|s| - 1])
  }

  /** A non-empty string of digits with no leading zero (except "0" itself). */
  predicate Canonical(s: string)
  {
    |s| > 0 && AllDigits(s) && (s[0] == '0' ==> |s| == 1)
  }

  /** Reads back what `FromInt` writes; anything else (leading zeros, "-0", signs alone) is refused. */
  function ParseInt(s: string): Option<int>
  {
    if |s| > 0 && s[0] == '-' then
      if Canonical(s[1..]) && s[1] != '0' then Some(-(Value(s[1..]) as int)) else None
    else if Canonical(s) then Some(Value(s) as int)
    else None
  }

  lemma {:induction false} NatDigitsCanonical(n: nat)
    ensures Canonical(NatDigits(n))
    ensures Value(NatDigits(n)) == n
    ensures NatDigits(n)[0] == '0' <==> n == 0
  {
    if n >= 10 {
      NatDigitsCanonical(n / 10);
      var s := NatDigits(n);
      assert s[..|s| - 1] == NatDigits(n / 10);
    }
  }

  lemma {:induction false} PositiveValue(s: string)
    requires Canonical(s) && s[0] != '0'
    ensures Value(s) > 0
  {
    if |s| > 1 {
      var p := s[..|s| - 1];
      assert p[0] == s[0];
      PositiveValue(p);
    }
  }

  lemma {:induction false} CanonicalDigits(s: string)
    requires Canonical(s)
    ensures NatDigits(Value(s)) == s
  {
    if |s| > 1 {
      var p := s[..|s| - 1];
      assert p[0] == s[0];
      PositiveValue(p);
      CanonicalDigits(p);
      var v := Value(s);
      assert v / 10 == Value(p) && v % 10 == DigitValue(s[|s| - 1]);
      assert s == p + [s[|s| - 1]];
    }
  }

  /** Rendering then parsing gives the number back. */
  lemma ParseFromInt(n: int)
    ensures ParseInt(FromInt(n)) == Some(n)
  {
    if n < 0 {
      NatDigitsCanonical(-n);
      assert FromInt(n)[1..] == NatDigits(-n);
    } else {
      NatDigitsCanonical(n);
    }
  }

  /** A string that parses is exactly the rendering of the number it parses to. */
  lemma FromIntParse(s: string, n: int)
    requires ParseInt(s) == Some(n)
    ensures FromInt(n) == s
  {
    if |s| > 0 && s[0] == '-' {
      CanonicalDigits(s[1..]);
      PositiveValue(s[1..]);
      assert s == "-" + s[1..];
    } else {
      CanonicalDigits(s);
    }
  }

  lemma FromIntInjective(m: int, n: int)
    ensures FromInt(m) == FromInt(n) ==> m == n
  {
    ParseFromInt(m);
    ParseFromInt(n);
  }
}
