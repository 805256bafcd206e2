/** Decimal numerals, as Go's `%d` and `%06d` print them. */
module Decimal {

  predicate IsDigit(c: char) {
    '0' <= c <= '9'
  }

  function DigitChar(d: nat): (c: char)
    requires d < 10
    ensures IsDigit(c)
  {
    ('0' as int + d) as char
  }

  function DigitValue(c: char): nat
    requires IsDigit(c)
  {
    c as int - '0' as int
  }

  predicate Digits(s: string) {
    forall i :: 0 <= i < |s| ==> IsDigit(s[i])
  }

  /** The numeral of n without leading zeros. */
  function Dec(n: nat): (s: string)
    ensures s != [] && Digits(s)
  {
    if n < 10 then [DigitChar(n)] else Dec(n / 10) + [DigitChar(n % 10)]
  }

  /** `%d` of a signed number. */
  function Signed(n: int): string {
    if n < 0 then "-" + Dec(-n) else Dec(n)
  }

  /** `%06d` of a number that is not negative. */
  function Padded(n: nat): (s: string)
    ensures Digits(s)
  {
    var s := Dec(n);
    if |s| < 6 then seq(6 - |s|, i => '0') + s else s
  }

  /** The number a string of digits stands for. */
  function Value(s: string): nat
    requires Digits(s)
  {
    if s == [] then 0 else Value(s[..|s| - 1]) * 10 + DigitValue(s[|s| - 1])
  }

  lemma {:induction false} ValueOfDec(n: nat)
    ensures Value(Dec(n)) == n
  {
    if n >= 10 {
      ValueOfDec(n / 10);
      assert Dec(n)[..|Dec(n)| - 1] == Dec(n / 10);
    } else {
      assert Dec(n)[..0] == [];
    }
  }

  lemma {:induction false} ValueIgnoresZeros(zeros: string, s: string)
    requires Digits(s) && forall i :: 0 <= i < |zeros| ==> zeros[i] == '0'
    ensures Digits(zeros + s) && Value(zeros + s) == Value(s)
    decreases |zeros| + |s|
  {
    var t := zeros + s;
    if s != [] {
      ValueIgnoresZeros(zeros, s[..|s| - 1]);
      assert t[..|t| - 1] == zeros + s[..|s| - 1];
    } else if zeros != [] {
      ValueIgnoresZeros(zeros[..|zeros| - 1], []);
      assert t[..|t| - 1] == zeros[..|zeros| - 1] + [];
    }
  }

  lemma {:induction false} ValueOfPadded(n: nat)
    ensures Value(Padded(n)) == n
  {
    ValueOfDec(n);
    if |Dec(n)| < 6 {
      ValueIgnoresZeros(seq(6 - |Dec(n)|, i => '0'), Dec(n));
    }
  }

  lemma {:induction false} SignedInjective(m: int, n: int)
    requires Signed(m) == Signed(n)
    ensures m == n
  {
    SignedHead(m);
    SignedHead(n);
    if m >= 0 && n >= 0 {
      ValueOfDec(m);
      ValueOfDec(n);
    } else if m < 0 && n < 0 {
      assert Signed(m)[1..] == Dec(-m) && Signed(n)[1..] == Dec(-n);
      ValueOfDec(-m);
      ValueOfDec(-n);
    }
  }

  lemma SignedHead(n: int)
    ensures Signed(n) != [] && (Signed(n)[0] == '-' <==> n < 0)
  {
    var s := Dec(if n < 0 then -n else n);
    assert IsDigit(s[0]);
  }
}
