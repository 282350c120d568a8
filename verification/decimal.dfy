/** The `%v` rendering of Go integers (base-10, a leading '-' for negative
    values), together with a reference parser that inverts it. */
module Decimal {
  import opened Results

  predicate IsDigit(c: char) {
    '0' <= c <= '9'
  }

  predicate AllDigits(s: string) {
    forall i :: 0 <= i < |s| ==> IsDigit(s[i])
  }

  function DigitChar(d: int): (c: char)
    requires 0 <= d < 10
    ensures IsDigit(c) && c as int - '0' as int == d
  {
    ('0' as int + d) as char
  }

  function DigitValue(c: char): int
    requires IsDigit(c)
  {
    c as int - '0' as int
  }

  /** Base-10 digits of `n`, most significant first, with no leading zero. */
  function FormatNat(n: nat): (s: string)
    ensures |s| > 0 && AllDigits(s)
    ensures s[0] == '0' ==> n == 0
    ensures n < 10 <==> |s| == 1
  {
    if n < 10 then [DigitChar(n)] else FormatNat(n / 10) + [DigitChar(n % 10)]
  }

  /** `fmt.Sprintf("%v", i)` for a Go integer. */
  function FormatInt(i: int): (s: string)
    ensures |s| > 0
    ensures s[0] == '-' <==> i < 0
    ensures AllDigits(if i < 0 then s[1..] else s)
    ensures i < 0 ==> |s| > 1 && s[1] != '0'
    ensures i >= 0 && s[0] == '0' ==> i == 0
  {
    if i < 0 then "-" + FormatNat(-i) else FormatNat(i)
  }

  /** Reference reading of a string of decimal digits. */
  function ParseNat(s: string): nat
    requires AllDigits(s)
  {
    if |s| == 0 then 0 else 10 * ParseNat(s[..|s| - 1]) + DigitValue(s[|s| - 1])
  }

  /** Reference reading of an optionally negative decimal numeral. */
  function ParseInt(s: string): Option<int>
  {
    if |s| > 1 && s[0] == '-' && AllDigits(s[1..]) then Some(-(ParseNat(s[1..]) as int))
    else if |s| > 0 && AllDigits(s) then Some(ParseNat(s))
    else None
  }

  lemma {:induction false} ParseFormatNat(n: nat)
    ensures ParseNat(FormatNat(n)) == n
  {
    if n >= 10 {
      var s := FormatNat(n);
      var prefix := FormatNat(n / 10);
      assert s[..|s| - 1] == prefix;
      ParseFormatNat(n / 10);
    }
  }

  lemma ParseFormatNegative(n: nat)
    requires n > 0
    ensures ParseInt("-" + FormatNat(n)) == Some(-(n as int))
  {
    var digits := FormatNat(n);
    var s := "-" + digits;
    assert s[1..] == digits;
    ParseFormatNat(n);
  }

  lemma ParseFormatNonNegative(n: nat)
    ensures ParseInt(FormatNat(n)) == Some(n)
  {
    var s := FormatNat(n);
    assert s[0] != '-' by { assert IsDigit(s[0]); }
    ParseFormatNat(n);
  }

  /** Reading back the rendering of any integer yields that integer. */
  lemma ParseFormatInt(i: int)
    ensures ParseInt(FormatInt(i)) == Some(i)
  {
    if i < 0 {
      ParseFormatNegative(-i);
    } else {
      ParseFormatNonNegative(i);
    }
  }

  /** Distinct integers are rendered differently. */
  lemma FormatIntInjective(i: int, j: int)
    requires FormatInt(i) == FormatInt(j)
    ensures i == j
  {
    ParseFormatInt(i);
    ParseFormatInt(j);
  }
}
