/** Hexadecimal digits and fixed-width numbers. */
module Hex {
  import opened Wrappers

  function HexValue(c: char): (r: Option<nat>)
    ensures r.Some? ==> r.value < 16
  {
    if '0' <= c <= '9' then Some((c - '0') as int)
    else if 'a' <= c <= 'f' then Some((c - 'a') as int + 10)
    else if 'A' <= c <= 'F' then Some((c - 'A') as int + 10)
    else None
  }

  function HexDigit(x: int): char
    requires 0 <= x < 16
  {
    if x < 10 then '0' + x as char else 'a' + (x - 10) as char
  }

  lemma DigitRoundTrip(x: int)
    requires 0 <= x < 16
    ensures HexValue(HexDigit(x)) == Some(x) && !('A' <= HexDigit(x) <= 'F')
  {
  }

  lemma DigitUnique(c: char)
    requires HexValue(c).Some? && !('A' <= c <= 'F')
    ensures HexDigit(HexValue(c).value) == c
  {
  }

  function Power16(n: nat): nat {
    if n == 0 then 1 else 16 * Power16(n - 1)
  }

  predicate AllHex(s: string) {
    forall i :: 0 <= i < |s| ==> HexValue(s[i]).Some?
  }

  /** A number in lower-case digits, filled up with zeros to a width. */
  function HexText(x: nat, width: nat): (r: string)
    ensures |r| == width
  {
    if width == 0 then "" else HexText(x / 16, width - 1) + [HexDigit(x % 16)]
  }

  function HexNumber(s: string): nat
    requires AllHex(s)
  {
    if s == "" then 0 else 16 * HexNumber(s[..|s| - 1]) + HexValue(s[|s| - 1]).value
  }

  lemma {:induction false} HexNumberOfText(x: nat, width: nat)
    requires x < Power16(width)
    ensures AllHex(HexText(x, width)) && HexNumber(HexText(x, width)) == x
  {
    if width > 0 {
      var s := HexText(x, width);
      HexNumberOfText(x / 16, width - 1);
      DigitRoundTrip(x % 16);
      assert s[..width - 1] == HexText(x / 16, width - 1);
      forall i | 0 <= i < width ensures HexValue(s[i]).Some? { assert i < width - 1 ==> s[i] == HexText(x / 16, width - 1)[i]; }
    }
  }
}
