/**
 The text form of worker tokens: base64url without padding (section 5 of RFC 4648) with a
 check that only the canonical encoding is accepted (section 3.5 of RFC 4648). The decoder
 goes through atob, whose forgiving rules are those of section 7 of the WHATWG Infra Standard.
 */
module Base64Url {
  import opened Wrappers

  type Byte = b: int | 0 <= b < 256
  type Sextet = s: int | 0 <= s < 64

  // ---------- Symbols ----------

  /** The base64 alphabet, section 4 of RFC 4648. */
  function Symbol(s: Sextet): char {
    if s < 26 then 'A' + s as char
    else if s < 52 then 'a' + (s - 26) as char
    else if s < 62 then '0' + (s - 52) as char
    else if s == 62 then '+' else '/'
  }

  function Index(c: char): Option<Sextet> {
    if 'A' <= c <= 'Z' then Some((c - 'A') as int)
    else if 'a' <= c <= 'z' then Some((c - 'a') as int + 26)
    else if '0' <= c <= '9' then Some((c - '0') as int + 52)
    else if c == '+' then Some(62)
    else if c == '/' then Some(63)
    else None
  }

  lemma SymbolIndex(s: Sextet, c: char)
    ensures Index(c) == Some(s) <==> c == Symbol(s)
  {
  }

  function ToUrl(c: char): char {
    if c == '+' then '-' else if c == '/' then '_' else c
  }

  function FromUrl(c: char): char {
    if c == '-' then '+' else if c == '_' then '/' else c
  }

  /** The characters of the pattern [A-Za-z0-9_-]. */
  predicate UrlChar(c: char) {
    'A' <= c <= 'Z' || 'a' <= c <= 'z' || '0' <= c <= '9' || c == '_' || c == '-'
  }

  function Replaced(s: string, f: char -> char): (r: string)
    ensures |r| == |s|
  {
    seq(|s|, i requires 0 <= i < |s| => f(s[i]))
  }

  // ---------- Bits ----------

  function Power2(n: nat): nat {
    if n == 0 then 1 else 2 * Power2(n - 1)
  }

  lemma Powers()
    ensures Power2(6) == 64 && Power2(8) == 256
  {
    assert Power2(2) == 4 && Power2(4) == 16;
  }

  /** The lowest bits of a number, most significant first. */
  function Bits(x: nat, width: nat): (r: seq<bool>)
    ensures |r| == width
  {
    if width == 0 then [] else Bits(x / 2, width - 1) + [x % 2 == 1]
  }

  function Number(bits: seq<bool>): (x: nat)
    ensures x < Power2(|bits|)
  {
    if bits == [] then 0
    else 2 * Number(bits[..|bits| - 1]) + if bits[|bits| - 1] then 1 else 0
  }

  function Zeros(n: nat): seq<bool> {
    seq(n, _ => false)
  }

  /** The bits of some numbers, one after the other. */
  function Join(xs: seq<nat>, width: nat): seq<bool> {
    if xs == [] then [] else Bits(xs[0], width) + Join(xs[1..], width)
  }

  /** Bits read as numbers of a width; an incomplete last one is dropped. */
  function Chunks(bits: seq<bool>, width: nat): seq<nat>
    requires width > 0
  {
    if |bits| < width then [] else [Number(bits[..width])] + Chunks(bits[width..], width)
  }

  lemma {:induction false} ChunksBounded(bits: seq<bool>, width: nat)
    requires width > 0
    ensures forall i :: 0 <= i < |Chunks(bits, width)| ==> Chunks(bits, width)[i] < Power2(width)
  {
    if |bits| >= width { ChunksBounded(bits[width..], width); }
  }

  // ---------- btoa and atob ----------

  /** Bytes regrouped into six-bit numbers, the last of them filled up with zero bits. */
  function Sextets(b: seq<Byte>): seq<Sextet> {
    var bits := Join(b, 8) + Zeros(Fill(|b|));
    ChunksBounded(bits, 6);
    Powers();
    Chunks(bits, 6)
  }

  function Fill(n: nat): nat {
    if n % 3 == 0 then 0 else if n % 3 == 1 then 4 else 2
  }

  /** Six-bit numbers regrouped into bytes; left-over bits are dropped. */
  function Bytes(s: seq<Sextet>): seq<Byte> {
    ChunksBounded(Join(s, 6), 8);
    Powers();
    Chunks(Join(s, 6), 8)
  }

  function Text(s: seq<Sextet>): (r: string)
    ensures |r| == |s|
  {
    seq(|s|, i requires 0 <= i < |s| => Symbol(s[i]))
  }

  function Padding(n: nat): string {
    if n % 3 == 0 then "" else if n % 3 == 1 then "==" else "="
  }

  function Btoa(b: seq<Byte>): string {
    Text(Sextets(b)) + Padding(|b|)
  }

  predicate AsciiWhitespace(c: char) {
    c == '\t' || c == '\n' || c == 12 as char || c == '\r' || c == ' '
  }

  function WithoutWhitespace(s: string): string {
    if s == "" then "" else (if AsciiWhitespace(s[0]) then "" else [s[0]]) + WithoutWhitespace(s[1..])
  }

  function WithoutPadding(s: string): string {
    if |s| == 0 || |s| % 4 != 0 || s[|s| - 1] != '=' then s
    else if s[|s| - 2] == '=' then s[..|s| - 2] else s[..|s| - 1]
  }

  predicate AllSymbols(s: string) {
    forall i :: 0 <= i < |s| ==> Index(s[i]).Some?
  }

  function Indices(s: string): (r: seq<Sextet>)
    requires AllSymbols(s)
    ensures |r| == |s|
  {
    seq(|s|, i requires 0 <= i < |s| => Index(s[i]).value)
  }

  function Atob(s: string): Option<seq<Byte>> {
    var t := WithoutPadding(WithoutWhitespace(s));
    if |t| % 4 == 1 || !AllSymbols(t) then None else Some(Bytes(Indices(t)))
  }

  // ---------- The codec ----------

  function StripPadding(s: string): string
    decreases |s|
  {
    if s != "" && s[|s| - 1] == '=' then StripPadding(s[..|s| - 1]) else s
  }

  function Encode(b: seq<Byte>): string {
    StripPadding(Replaced(Btoa(b), ToUrl))
  }

  predicate AllUrlChars(s: string) {
    forall i :: 0 <= i < |s| ==> UrlChar(s[i])
  }

  function Decode(value: string): Option<seq<Byte>> {
    if value == "" || !AllUrlChars(value) then None
    else
      var bytes := Atob(Replaced(value, FromUrl));
      if bytes.Some? && Encode(bytes.value) == value then bytes else None
  }

  // ---------- Regrouping ----------

  lemma {:induction false} JoinLength(xs: seq<nat>, width: nat)
    ensures |Join(xs, width)| == width * |xs|
  {
    if xs != [] { JoinLength(xs[1..], width); }
  }

  lemma {:induction false} NumberOfBits(x: nat, width: nat)
    requires x < Power2(width)
    ensures Number(Bits(x, width)) == x
  {
    if width > 0 {
      NumberOfBits(x / 2, width - 1);
      assert Bits(x, width)[..width - 1] == Bits(x / 2, width - 1);
    }
  }

  lemma {:induction false} BitsOfNumber(bits: seq<bool>)
    ensures Bits(Number(bits), |bits|) == bits
  {
    if bits != [] {
      BitsOfNumber(bits[..|bits| - 1]);
      assert bits == bits[..|bits| - 1] + [bits[|bits| - 1]];
    }
  }

  /** Cutting joined numbers apart gives them back, and drops an incomplete rest. */
  lemma {:induction false} CutJoined(xs: seq<nat>, width: nat, rest: seq<bool>)
    requires |rest| < width && forall i :: 0 <= i < |xs| ==> xs[i] < Power2(width)
    ensures Chunks(Join(xs, width) + rest, width) == xs
  {
    if xs == [] {
      assert Join(xs, width) + rest == rest;
    } else {
      CutJoined(xs[1..], width, rest);
      NumberOfBits(xs[0], width);
      ChunksCons(Bits(xs[0], width), Join(xs[1..], width) + rest, width);
      JoinCons(xs, width, rest);
    }
  }

  lemma JoinCons(xs: seq<nat>, width: nat, rest: seq<bool>)
    requires xs != []
    ensures Join(xs, width) + rest == Bits(xs[0], width) + (Join(xs[1..], width) + rest)
  {
  }

  lemma ChunksCons(head: seq<bool>, tail: seq<bool>, width: nat)
    requires width > 0 && |head| == width
    ensures Chunks(head + tail, width) == [Number(head)] + Chunks(tail, width)
  {
    assert (head + tail)[..width] == head && (head + tail)[width..] == tail;
  }

  lemma {:induction false} JoinCut(bits: seq<bool>, width: nat, n: nat)
    requires width > 0 && |bits| == width * n
    ensures Join(Chunks(bits, width), width) == bits && |Chunks(bits, width)| == n
    decreases n
  {
    if n > 0 {
      assert width * n == width + width * (n - 1);
      JoinCut(bits[width..], width, n - 1);
      BitsOfNumber(bits[..width]);
      assert bits == bits[..width] + bits[width..];
    }
  }

  lemma FillLength(n: nat)
    ensures 8 * n + Fill(n) == 6 * ((4 * n + 2) / 3)
  {
    var q := n / 3;
    assert n == 3 * q || n == 3 * q + 1 || n == 3 * q + 2;
  }

  /** The six-bit numbers hold the bits of the bytes in order, and then fewer than six zero bits. */
  lemma RegroupKeepsBits(b: seq<Byte>)
    ensures |Sextets(b)| == (4 * |b| + 2) / 3
    ensures Fill(|b|) < 6 && Join(Sextets(b), 6) == Join(b, 8) + Zeros(Fill(|b|))
  {
    JoinLength(b, 8);
    FillLength(|b|);
    JoinCut(Join(b, 8) + Zeros(Fill(|b|)), 6, (4 * |b| + 2) / 3);
  }

  lemma RegroupInverse(b: seq<Byte>)
    ensures Bytes(Sextets(b)) == b
  {
    Powers();
    RegroupKeepsBits(b);
    CutJoined(b, 8, Zeros(Fill(|b|)));
  }

  // ---------- The encoder ----------

  lemma SymbolToUrl(s: Sextet)
    ensures UrlChar(ToUrl(Symbol(s))) && FromUrl(ToUrl(Symbol(s))) == Symbol(s)
  {
  }

  /** The base64url alphabet, section 5 of RFC 4648. */
  const UPPER := "ABCDEFGHIJKLMNOPQRSTUVWXYZ"
  const LOWER := "abcdefghijklmnopqrstuvwxyz"
  const DIGITS := "0123456789"
  const ALPHABET := UPPER + LOWER + DIGITS + "-_"

  lemma UpperAt(k: nat)
    requires k < 26
    ensures |UPPER| == 26 && UPPER[k] == 'A' + k as char
  {
  }

  lemma LowerAt(k: nat)
    requires k < 26
    ensures |LOWER| == 26 && LOWER[k] == 'a' + k as char
  {
  }

  lemma DigitAt(k: nat)
    requires k < 10
    ensures |DIGITS| == 10 && DIGITS[k] == '0' + k as char
  {
  }

  lemma AlphabetSpells(s: Sextet)
    ensures |ALPHABET| == 64 && ToUrl(Symbol(s)) == ALPHABET[s]
  {
    SpellsIn(UPPER, LOWER, DIGITS, s);
  }

  lemma SpellsIn(upper: string, lower: string, digits: string, s: Sextet)
    requires upper == UPPER && lower == LOWER && digits == DIGITS
    ensures var all := upper + lower + digits + "-_"; |all| == 64 && ToUrl(Symbol(s)) == all[s]
  {
    UpperAt(if s < 26 then s else 0);
    LowerAt(if 26 <= s < 52 then s - 26 else 0);
    DigitAt(if 52 <= s < 62 then s - 52 else 0);
  }

  lemma {:induction false} StripPads(t: string, n: nat)
    requires n <= 2 && (t == "" || t[|t| - 1] != '=')
    ensures StripPadding(t + "=="[..n]) == t
  {
    if n == 0 {
      assert t + "=="[..n] == t;
    } else {
      assert (t + "=="[..n])[..|t| + n - 1] == t + "=="[..n - 1];
      StripPads(t, n - 1);
    }
  }

  lemma PaddingStays(t: string, pad: string)
    requires pad == "" || pad == "=" || pad == "=="
    ensures Replaced(t + pad, ToUrl) == Replaced(t, ToUrl) + pad
  {
    forall i | 0 <= i < |t + pad| ensures Replaced(t + pad, ToUrl)[i] == (Replaced(t, ToUrl) + pad)[i] {
      if i < |t| {
        assert (t + pad)[i] == t[i] && (Replaced(t, ToUrl) + pad)[i] == Replaced(t, ToUrl)[i];
      } else {
        assert (t + pad)[i] == pad[i - |t|] == '=' && (Replaced(t, ToUrl) + pad)[i] == pad[i - |t|];
        assert ToUrl('=') == '=';
      }
    }
  }

  /** Encoding is the url alphabet's spelling of the regrouped bits: the padding goes, and nothing else. */
  lemma EncodeIs(b: seq<Byte>)
    ensures Encode(b) == Replaced(Text(Sextets(b)), ToUrl)
  {
    var t := Replaced(Text(Sextets(b)), ToUrl);
    var n := |Padding(|b|)|;
    assert Padding(|b|) == "=="[..n];
    PaddingStays(Text(Sextets(b)), Padding(|b|));
    if t != "" { SymbolToUrl(Sextets(b)[|t| - 1]); }
    StripPads(t, n);
  }

  /** Every byte string has one text, ceil(4n/3) characters of the url alphabet long. */
  lemma EncodedText(b: seq<Byte>)
    ensures |Encode(b)| == (4 * |b| + 2) / 3
    ensures AllUrlChars(Encode(b))
    ensures Encode(b) == "" <==> b == []
  {
    EncodeIs(b);
    RegroupKeepsBits(b);
    forall i | 0 <= i < |Encode(b)| ensures UrlChar(Encode(b)[i]) { SymbolToUrl(Sextets(b)[i]); }
  }

  /** Each six-bit number is spelled by its character of the alphabet. */
  lemma EncodedSpelling(b: seq<Byte>, i: nat)
    requires i < |Sextets(b)|
    ensures i < |Encode(b)| && Encode(b)[i] == ALPHABET[Sextets(b)[i]]
  {
    EncodeIs(b);
    AlphabetSpells(Sextets(b)[i]);
  }

  // ---------- The decoder ----------

  lemma {:induction false} NoWhitespace(s: string)
    requires AllSymbols(s)
    ensures WithoutWhitespace(s) == s
  {
    if s != "" {
      assert Index(s[0]).Some?;
      NoWhitespace(s[1..]);
    }
  }

  lemma NothingToStrip(s: string)
    requires AllSymbols(s)
    ensures WithoutPadding(WithoutWhitespace(s)) == s
  {
    NoWhitespace(s);
    if s != "" { assert Index(s[|s| - 1]).Some?; }
  }

  lemma EncodedDecodes(b: seq<Byte>)
    requires b != []
    ensures Decode(Encode(b)) == Some(b)
  {
    EncodedText(b);
    AtobEncoded(b);
  }

  lemma AtobEncoded(b: seq<Byte>)
    ensures Atob(Replaced(Encode(b), FromUrl)) == Some(b)
  {
    EncodeIs(b);
    UrlTextBack(Sextets(b));
    RegroupKeepsBits(b);
    NeverOneLeft(|b|);
    AtobText(Sextets(b));
    RegroupInverse(b);
  }

  lemma NeverOneLeft(n: nat)
    ensures (4 * n + 2) / 3 % 4 != 1
  {
    var q := n / 3;
    assert n == 3 * q || n == 3 * q + 1 || n == 3 * q + 2;
    assert (4 * n + 2) / 3 == 4 * q + (if n == 3 * q then 0 else if n == 3 * q + 1 then 2 else 3);
  }

  lemma UrlTextBack(s: seq<Sextet>)
    ensures Replaced(Replaced(Text(s), ToUrl), FromUrl) == Text(s)
  {
    forall i | 0 <= i < |s| ensures FromUrl(ToUrl(Symbol(s[i]))) == Symbol(s[i]) { SymbolToUrl(s[i]); }
  }

  lemma AtobText(s: seq<Sextet>)
    requires |s| % 4 != 1
    ensures Atob(Text(s)) == Some(Bytes(s))
  {
    forall i | 0 <= i < |s| ensures Index(Text(s)[i]) == Some(s[i]) { SymbolIndex(s[i], Text(s)[i]); }
    NothingToStrip(Text(s));
    assert Indices(Text(s)) == s;
  }

  /**
   The decoder accepts exactly the non-empty outputs of the encoder, and gives back the bytes
   that produced them.
   */
  lemma DecodeAcceptsExactlyEncodings(value: string, b: seq<Byte>)
    ensures Decode(value) == Some(b) <==> b != [] && value == Encode(b)
  {
    if Decode(value) == Some(b) { EncodedText(b); }
    if b != [] && value == Encode(b) { EncodedDecodes(b); }
  }

  /** No two accepted texts stand for the same bytes, and no two byte strings share a text. */
  lemma CodecIsInjective(v: string, w: string, b: seq<Byte>, c: seq<Byte>)
    ensures Decode(v).Some? && Decode(v) == Decode(w) ==> v == w
    ensures Encode(b) == Encode(c) ==> b == c
  {
    if Decode(v).Some? && Decode(v) == Decode(w) {
      DecodeAcceptsExactlyEncodings(v, Decode(v).value);
      DecodeAcceptsExactlyEncodings(w, Decode(v).value);
    }
    if Encode(b) == Encode(c) {
      EncodedText(b);
      EncodedText(c);
      if b != [] {
        EncodedDecodes(b);
        EncodedDecodes(c);
      }
    }
  }
}
