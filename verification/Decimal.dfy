/** Decimal text of integers, as Go's %d and JavaScript's String print it. */
module Decimal {
  function Digit(d: int): char
    requires 0 <= d < 10
  {
    '0' + d as char
  }

  function Digits(n: nat): string {
    if n < 10 then [Digit(n)] else Digits(n / 10) + [Digit(n % 10)]
  }

  function Print(n: int): string {
    if n < 0 then "-" + Digits(-n) else Digits(n)
  }

  predicate IsDigit(c: char) {
    '0' <= c <= '9'
  }

  predicate AllDigits(s: string) {
    forall i :: 0 <= i < |s| ==> IsDigit(s[i])
  }

  /** The value of a digit string, leading zeros included. */
  function Value(s: string): nat
    requires AllDigits(s)
  {
    if s == "" then 0 else Value(s[..|s| - 1]) * 10 + (s[|s| - 1] - '0') as int
  }

  lemma {:induction false} DigitsValue(n: nat)
    ensures AllDigits(Digits(n)) && Digits(n) != ""
    ensures Value(Digits(n)) == n
    ensures n > 0 ==> Digits(n)[0] != '0'
  {
    if n < 10 {
      assert [Digit(n)][..0] == "";
    } else {
      DigitsValue(n / 10);
      assert Digits(n)[..|Digits(n)| - 1] == Digits(n / 10);
    }
  }

  /** A digit string without a leading zero is what its value prints as. */
  lemma {:induction false} DigitsOfValue(s: string)
    requires AllDigits(s) && s != "" && s[0] != '0'
    ensures Value(s) > 0 && Digits(Value(s)) == s
    decreases |s|
  {
    var front, d := s[..|s| - 1], (s[|s| - 1] - '0') as int;
    assert Digit(d) == s[|s| - 1];
    if |s| == 1 {
      assert front == "" && Value(s) == d;
    } else {
      assert front[0] == s[0];
      DigitsOfValue(front);
      assert Value(s) == Value(front) * 10 + d;
      assert s == front + [Digit(d)];
    }
  }
}
