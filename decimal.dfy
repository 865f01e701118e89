/**
  Python's `str(n)` for an `int` `n`: an optional minus sign followed by the
  decimal digits of `|n|` without leading zeros, and the reading of such a
  string back into the integer it denotes.
 */
module Decimal {
  import opened Wrappers

  predicate IsDigit(c: char) {
    '0' <= c <= '9'
  }

  predicate AllDigits(s: string) {
    forall k :: 0 <= k < |s| ==> IsDigit(s[k])
  }

  function DigitChar(d: nat): (c: char)
    requires d < 10
    ensures IsDigit(c)
    ensures c as int - '0' as int == d
  {
    ('0' as int + d) as char
  }

  /** The digits of `n`, most significant first, with no leading zero. */
  function NatDigits(n: nat): (s: string)
    ensures |s| >= 1 && AllDigits(s)
    ensures |s| > 1 ==> s[0] != '0'
  {
    if n < 10 then [DigitChar(n)] else NatDigits(n / 10) + [DigitChar(n % 10)]
  }

  /** Python's `str(n)` for an integer. */
  function FromInt(n: int): (s: string)
    ensures |s| >= 1
    ensures s[0] == '-' <==> n < 0
    ensures |s| >= 2 ==> IsDigit(s[1])
    ensures forall k :: 0 <= k < |s| ==> IsDigit(s[k]) || s[k] == '-'
  {
    if n < 0 then "-" + NatDigits(-n) else NatDigits(n)
  }

  /** The value of a string of decimal digits, most significant first. */
  function DigitsValue(s: string): nat
    requires AllDigits(s)
  {
    if s == [] then 0 else DigitsValue(s[..|s| - 1]) * 10 + (s[|s| - 1] as int - '0' as int)
  }

  /** The integer an optionally signed, non-empty digit string denotes. */
  function ToInt(s: string): (r: Option<int>)
    ensures r.Some? <==> (|s| >= 1 && AllDigits(s)) || (|s| >= 2 && s[0] == '-' && AllDigits(s[1..]))
  {
    if |s| >= 1 && AllDigits(s) then Some(DigitsValue(s))
    else if |s| >= 2 && s[0] == '-' && AllDigits(s[1..]) then Some(0 - DigitsValue(s[1..]) as int)
    else None
  }

  /** The strings `str` can produce: no leading zero, and no "-0". */
  predicate Canonical(s: string) {
    || (|s| == 1 && IsDigit(s[0]))
    || (|s| >= 2 && AllDigits(s) && s[0] != '0')
    || (|s| >= 2 && s[0] == '-' && AllDigits(s[1..]) && s[1] != '0')
  }

  lemma {:induction false} NatDigitsValue(n: nat)
    ensures DigitsValue(NatDigits(n)) == n
  {
    if n >= 10 {
      var s := NatDigits(n);
      assert s[..|s| - 1] == NatDigits(n / 10);
      NatDigitsValue(n / 10);
    }
  }

  lemma {:induction false} DigitsValueLeading(s: string)
    requires AllDigits(s) && |s| >= 1 && s[0] != '0'
    ensures DigitsValue(s) >= 1
  {
    if |s| > 1 {
      DigitsValueLeading(s[..|s| - 1]);
    }
  }

  lemma {:induction false} ValueDigits(s: string)
    requires AllDigits(s) && |s| >= 1
    requires |s| > 1 ==> s[0] != '0'
    ensures NatDigits(DigitsValue(s)) == s
  {
    if |s| > 1 {
      var front := s[..|s| - 1];
      DigitsValueLeading(front);
      ValueDigits(front);
      var d := s[|s| - 1] as int - '0' as int;
      assert DigitsValue(s) / 10 == DigitsValue(front) && DigitsValue(s) % 10 == d;
      assert s == front + [s[|s| - 1]];
    }
  }

  /** Reading back what `str` wrote gives the original integer. */
  lemma FromIntToInt(n: int)
    ensures ToInt(FromInt(n)) == Some(n)
    ensures Canonical(FromInt(n))
  {
    var s := FromInt(n);
    if n < 0 {
      var t := NatDigits(-n);
      NatDigitsValue(-n);
      assert s == "-" + t && s[1..] == t;
      assert !AllDigits(s) by { assert !IsDigit(s[0]); }
      assert ToInt(s) == Some(0 - DigitsValue(t) as int);
    } else {
      NatDigitsValue(n);
      assert ToInt(s) == Some(DigitsValue(s));
    }
  }

  /** Every canonical digit string is what `str` writes for the integer it denotes. */
  lemma ToIntFromInt(s: string)
    requires Canonical(s)
    ensures ToInt(s).Some? && FromInt(ToInt(s).value) == s
  {
    if |s| >= 1 && AllDigits(s) {
      ValueDigits(s);
      if |s| > 1 {
        DigitsValueLeading(s);
      }
    } else {
      var t := s[1..];
      ValueDigits(t);
      DigitsValueLeading(t);
      assert s == "-" + t;
    }
  }

  /** Distinct integers are written as distinct strings. */
  lemma FromIntInjective(m: int, n: int)
    requires FromInt(m) == FromInt(n)
    ensures m == n
  {
    FromIntToInt(m);
    FromIntToInt(n);
  }
}
