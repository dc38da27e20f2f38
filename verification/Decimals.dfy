/** Decimal numbers as text, written and read. */
module Decimals {

  predicate IsDigit(c: char) {
    '0' <= c <= '9'
  }

  predicate AllDigits(s: string) {
    forall i :: 0 <= i < |s| ==> IsDigit(s[i])
  }

  /** `str.isdecimal`, on ASCII text. */
  predicate IsDecimal(s: string) {
    s != [] && AllDigits(s)
  }

  /** `'%d' % n`, for a number that is not negative. */
  function Dec(n: nat): string {
    var digit := ["0123456789"[n % 10]];
    if n < 10 then digit else Dec(n / 10) + digit
  }

  /** `int(s)`, for a decimal text. */
  function Value(s: string): nat
    requires AllDigits(s)
  {
    if s == [] then 0 else Value(s[..|s| - 1]) * 10 + (s[|s| - 1] as int - '0' as int)
  }

  /** What is written is read as the number it was. */
  lemma {:induction false} DecRead(n: nat)
    ensures IsDecimal(Dec(n)) && Value(Dec(n)) == n
    ensures n > 0 ==> Dec(n)[0] != '0'
  {
    var s := Dec(n);
    if n < 10 {
      assert s[..0] == [];
    } else {
      DecRead(n / 10);
      assert s[..|s| - 1] == Dec(n / 10);
    }
  }

  lemma DigitRead(c: char)
    requires IsDigit(c)
    ensures "0123456789"[c as int - '0' as int] == c
  {
  }

  lemma LastDigit(q: nat, d: nat)
    requires d < 10
    ensures (q * 10 + d) % 10 == d && (q * 10 + d) / 10 == q
  {
  }

  /** What is read is written as the text it was, but for leading zeros. */
  lemma {:induction false} ValueWritten(s: string)
    requires IsDecimal(s) && (s[0] != '0' || |s| == 1)
    ensures Dec(Value(s)) == s && (s[0] != '0' ==> Value(s) > 0)
  {
    hide Dec, Value;
    var n := |s| - 1;
    var d := s[n] as int - '0' as int;
    DigitRead(s[n]);
    ValueStep(s);
    assert s == s[..n] + [s[n]];
    if n == 0 {
      DecStep(0, d);
    } else {
      ValueWritten(s[..n]);
      DecStep(Value(s[..n]), d);
    }
  }

  lemma ValueStep(s: string)
    requires IsDecimal(s)
    ensures Value(s) == Value(s[..|s| - 1]) * 10 + (s[|s| - 1] as int - '0' as int) && Value([]) == 0
  {
  }

  lemma DecStep(q: nat, d: nat)
    requires d < 10
    ensures Dec(q * 10 + d) == if q == 0 then ["0123456789"[d]] else Dec(q) + ["0123456789"[d]]
  {
    LastDigit(q, d);
  }

  /** Leading zeros do not matter. */
  lemma {:induction false} LeadingZero(s: string)
    requires AllDigits(s)
    ensures Value("0" + s) == Value(s)
  {
    var t := "0" + s;
    if s == [] {
      assert t[..0] == [];
    } else {
      assert t[..|t| - 1] == "0" + s[..|s| - 1];
      LeadingZero(s[..|s| - 1]);
    }
  }

  /** Different numbers are written differently. */
  lemma DecInjective(a: nat, b: nat)
    requires Dec(a) == Dec(b)
    ensures a == b
  {
    DecRead(a);
    DecRead(b);
  }
}
