/**
 Worker tokens (controller/src/api/worker-tokens.ts): "jw2." and the base64url text of two
 big-endian uint32 times, 16 UUID bytes, the queue name and a 32-byte MAC over all of these.
 Key derivation (RFC 5869) and HMAC (RFC 2104) are together one uninterpreted function.
 */
module WorkerTokens {
  import opened Wrappers
  import opened Base64Url
  import opened Hex

  const MAX_SECONDS := 30 * 24 * 60 * 60
  const PREFIX := "jw2."
  const MAX_UINT32 := 0xffff_ffff
  const MAX_SAFE_INTEGER := 0x1f_ffff_ffff_ffff

  type Tag = t: seq<Byte> | |t| == 32 witness seq(32, _ => 0)
  type Mac = (string, seq<Byte>) -> Tag

  datatype Claims = Claims(queue: string, iat: int, exp: int, id: string)

  datatype Error = InvalidDuration | InvalidClaims | InvalidTimestamp

  // ---------- The claims schema ----------

  predicate LowerAlphaNum(c: char) {
    'a' <= c <= 'z' || '0' <= c <= '9'
  }

  /** The pattern [a-z0-9][a-z0-9_-]{0,62}. */
  predicate QueueName(s: string) {
    && 1 <= |s| <= 63
    && LowerAlphaNum(s[0])
    && forall i :: 0 <= i < |s| ==> LowerAlphaNum(s[i]) || s[i] == '_' || s[i] == '-'
  }

  predicate IsDash(i: int) {
    i == 8 || i == 13 || i == 18 || i == 23
  }

  const NIL_UUID := "00000000-0000-0000-0000-000000000000"
  const MAX_UUID := "ffffffff-ffff-ffff-ffff-ffffffffffff"

  /** What the schema takes for a UUID: versions 1 to 8 of the RFC 9562 variant, or one of two special values. */
  predicate UuidText(s: string) {
    || (&& |s| == 36
        && (forall i :: 0 <= i < 36 ==> if IsDash(i) then s[i] == '-' else HexValue(s[i]).Some?)
        && '1' <= s[14] <= '8'
        && s[19] in {'8', '9', 'a', 'b', 'A', 'B'})
    || s == NIL_UUID
    || s == MAX_UUID
  }

  predicate ValidClaims(c: Claims) {
    QueueName(c.queue) && 0 <= c.iat <= MAX_SAFE_INTEGER && 0 <= c.exp <= MAX_SAFE_INTEGER && UuidText(c.id)
  }

  // ---------- The layout ----------

  function Uint16(x: int): (r: seq<Byte>)
    requires 0 <= x < 0x1_0000
    ensures |r| == 2
  {
    var high: Byte := x / 0x100;
    var low: Byte := x % 0x100;
    [high, low]
  }

  function ReadUint16(b: seq<Byte>): (x: int)
    requires |b| == 2
    ensures 0 <= x < 0x1_0000
  {
    var high: int, low: int := b[0], b[1];
    high * 0x100 + low
  }

  /** Most significant byte first. */
  function Uint32(x: int): (r: seq<Byte>)
    requires 0 <= x <= MAX_UINT32
    ensures |r| == 4
  {
    Uint16(x / 0x1_0000) + Uint16(x % 0x1_0000)
  }

  function ReadUint32(b: seq<Byte>): (x: int)
    requires |b| == 4
    ensures 0 <= x <= MAX_UINT32
  {
    ReadUint16(b[..2]) * 0x1_0000 + ReadUint16(b[2..])
  }

  lemma Uint32IsBigEndian(x: int)
    requires 0 <= x <= MAX_UINT32
    ensures Uint32(x) == [x / 0x100_0000, x / 0x1_0000 % 0x100, x / 0x100 % 0x100, x % 0x100]
  {
    var high, low := x / 0x1_0000, x % 0x1_0000;
    assert x == high * 0x1_0000 + low;
    assert x / 0x100 == high * 0x100 + low / 0x100;
  }

  lemma Uint32RoundTrip(x: int)
    requires 0 <= x <= MAX_UINT32
    ensures ReadUint32(Uint32(x)) == x
  {
    assert Uint32(x)[..2] == Uint16(x / 0x1_0000) && Uint32(x)[2..] == Uint16(x % 0x1_0000);
  }

  lemma Uint32Unique(b: seq<Byte>)
    requires |b| == 4
    ensures Uint32(ReadUint32(b)) == b
  {
    Uint16Unique(b[..2]);
    Uint16Unique(b[2..]);
    var high, low := ReadUint16(b[..2]), ReadUint16(b[2..]);
    assert ReadUint32(b) / 0x1_0000 == high && ReadUint32(b) % 0x1_0000 == low;
    assert b == b[..2] + b[2..];
  }

  lemma Uint16Unique(b: seq<Byte>)
    requires |b| == 2
    ensures Uint16(ReadUint16(b)) == b
  {
  }

  /** The position in the dashed text of the k-th of the 32 digits. */
  function DigitAt(k: int): (r: int)
    requires 0 <= k < 32
    ensures 0 <= r < 36 && !IsDash(r)
  {
    if k < 8 then k else if k < 12 then k + 1 else if k < 16 then k + 2 else if k < 20 then k + 3 else k + 4
  }

  /** The id text without its dashes. */
  function Undashed(s: string): (r: string)
    requires |s| == 36
    ensures |r| == 32
  {
    seq(32, k requires 0 <= k < 32 => s[DigitAt(k)])
  }

  function Dashed(h: string): (r: string)
    requires |h| == 32
    ensures |r| == 36
  {
    h[..8] + "-" + h[8..12] + "-" + h[12..16] + "-" + h[16..20] + "-" + h[20..]
  }

  /** The k-th hexadecimal digit of some bytes. */
  function Nibble(b: seq<Byte>, k: int): (x: int)
    requires 0 <= k < 2 * |b|
    ensures 0 <= x < 16
  {
    if k % 2 == 0 then b[k / 2] / 16 else b[k / 2] % 16
  }

  function HexOf(b: seq<Byte>): (r: string)
    ensures |r| == 2 * |b|
  {
    seq(2 * |b|, k requires 0 <= k < 2 * |b| => HexDigit(Nibble(b, k)))
  }

  /** parseInt of two hexadecimal digits. */
  function PairValue(a: char, b: char): Byte
    requires HexValue(a).Some? && HexValue(b).Some?
  {
    HexValue(a).value * 16 + HexValue(b).value
  }

  function HexBytes(h: string): (r: seq<Byte>)
    requires |h| == 32 && AllHex(h)
    ensures |r| == 16
  {
    seq(16, i requires 0 <= i < 16 => PairValue(h[2 * i], h[2 * i + 1]))
  }

  function UuidBytes(id: string): (r: seq<Byte>)
    requires |id| == 36 && AllHex(Undashed(id))
    ensures |r| == 16
  {
    HexBytes(Undashed(id))
  }

  function Ascii(s: string): (r: seq<Byte>)
    requires forall i :: 0 <= i < |s| ==> s[i] < 128 as char
    ensures |r| == |s|
  {
    seq(|s|, i requires 0 <= i < |s| => s[i] as int)
  }

  /** Text that is plain ASCII; the queue name's pattern admits no other. */
  function AsciiText(b: seq<Byte>): Option<string> {
    if forall i :: 0 <= i < |b| ==> b[i] < 128 then Some(Chars(b)) else None
  }

  function Chars(b: seq<Byte>): (r: string)
    requires forall i :: 0 <= i < |b| ==> b[i] < 128
    ensures |r| == |b|
  {
    seq(|b|, i requires 0 <= i < |b| => b[i] as char)
  }

  /** Claims that fit the layout; ids are printed in lower case. */
  predicate Printable(c: Claims) {
    ValidClaims(c) && c.iat <= MAX_UINT32 && c.exp <= MAX_UINT32 && LowerCase(c.id)
  }

  predicate LowerCase(s: string) {
    forall i :: 0 <= i < |s| ==> !('A' <= s[i] <= 'F')
  }

  lemma UuidShape(id: string)
    requires UuidText(id)
    ensures |id| == 36 && (forall i :: 0 <= i < 36 ==> if IsDash(i) then id[i] == '-' else HexValue(id[i]).Some?)
    ensures AllHex(Undashed(id))
  {
  }

  function Payload(c: Claims): (r: seq<Byte>)
    requires ValidClaims(c) && c.iat <= MAX_UINT32 && c.exp <= MAX_UINT32
    ensures |r| == 24 + |c.queue|
  {
    UuidShape(c.id);
    Uint32(c.iat) + Uint32(c.exp) + UuidBytes(c.id) + Ascii(c.queue)
  }

  function TokenBytes(mac: Mac, secret: string, c: Claims): (r: seq<Byte>)
    requires ValidClaims(c) && c.iat <= MAX_UINT32 && c.exp <= MAX_UINT32
    ensures |r| == 56 + |c.queue|
  {
    Payload(c) + mac(secret, Payload(c))
  }

  function Token(mac: Mac, secret: string, c: Claims): string
    requires ValidClaims(c) && c.iat <= MAX_UINT32 && c.exp <= MAX_UINT32
  {
    PREFIX + Encode(TokenBytes(mac, secret, c))
  }

  // ---------- Verification ----------

  function ClaimsOf(iat: seq<Byte>, exp: seq<Byte>, id: seq<Byte>, queue: seq<Byte>): Option<Claims>
    requires |iat| == 4 && |exp| == 4 && |id| == 16
  {
    match AsciiText(queue)
    case None => None
    case Some(name) =>
      var c := Claims(name, ReadUint32(iat), ReadUint32(exp), Dashed(HexOf(id)));
      if ValidClaims(c) then Some(c) else None
  }

  function ReadClaims(payload: seq<Byte>): Option<Claims>
    requires |payload| >= 24
  {
    ClaimsOf(payload[..4], payload[4..8], payload[8..24], payload[24..])
  }

  predicate InForce(c: Claims, now: int) {
    c.iat <= now < c.exp && c.exp - c.iat <= MAX_SECONDS
  }

  function Verify(mac: Mac, secret: string, token: string, now: int): Option<Claims> {
    if !(PREFIX <= token) || |token| > 163 then None
    else
      match Decode(token[|PREFIX|..])
      case None => None
      case Some(bytes) =>
        if |bytes| < 24 + 1 + 32 || |bytes| > 24 + 63 + 32 then None
        else
          var payload, signature := bytes[..|bytes| - 32], bytes[|bytes| - 32..];
          if mac(secret, payload) != signature then None
          else
            match ReadClaims(payload)
            case None => None
            case Some(c) =>
              if c.iat > now || c.exp <= now || c.exp <= c.iat || c.exp - c.iat > MAX_SECONDS then None else Some(c)
  }

  // ---------- Parts ----------

  lemma DashedUndashed(h: string)
    requires |h| == 32
    ensures Undashed(Dashed(h)) == h
    ensures forall i :: 0 <= i < 36 && IsDash(i) ==> Dashed(h)[i] == '-'
  {
    forall k | 0 <= k < 32 ensures Dashed(h)[DigitAt(k)] == h[k] { }
  }

  lemma UndashedDashed(s: string)
    requires |s| == 36 && forall i :: 0 <= i < 36 && IsDash(i) ==> s[i] == '-'
    ensures Dashed(Undashed(s)) == s
  {
    var d := Dashed(Undashed(s));
    forall i | 0 <= i < 36 ensures d[i] == s[i] {
      if !IsDash(i) {
        var k := if i < 8 then i else if i < 13 then i - 1 else if i < 18 then i - 2 else if i < 23 then i - 3 else i - 4;
        DashedUndashed(Undashed(s));
        assert DigitAt(k) == i;
      }
    }
  }

  lemma HexRoundTrip(b: seq<Byte>)
    requires |b| == 16
    ensures AllHex(HexOf(b)) && LowerCase(HexOf(b)) && HexBytes(HexOf(b)) == b
  {
    var h := HexOf(b);
    forall k | 0 <= k < 32 ensures HexValue(h[k]) == Some(Nibble(b, k)) && !('A' <= h[k] <= 'F') {
      DigitRoundTrip(Nibble(b, k));
    }
    forall i | 0 <= i < 16 ensures HexBytes(h)[i] == b[i] {
      assert HexValue(h[2 * i]) == Some(Nibble(b, 2 * i)) && HexValue(h[2 * i + 1]) == Some(Nibble(b, 2 * i + 1));
      assert Nibble(b, 2 * i) == b[i] / 16 && Nibble(b, 2 * i + 1) == b[i] % 16;
    }
  }

  lemma HexUnique(h: string)
    requires |h| == 32 && AllHex(h) && LowerCase(h)
    ensures HexOf(HexBytes(h)) == h
  {
    var b := HexBytes(h);
    forall k | 0 <= k < 32 ensures HexOf(b)[k] == h[k] {
      PairSplits(h[2 * (k / 2)], h[2 * (k / 2) + 1]);
      assert b[k / 2] == PairValue(h[2 * (k / 2)], h[2 * (k / 2) + 1]);
      assert HexOf(b)[k] == HexDigit(Nibble(b, k));
      DigitUnique(h[k]);
    }
  }

  lemma PairSplits(a: char, b: char)
    requires HexValue(a).Some? && HexValue(b).Some?
    ensures PairValue(a, b) / 16 == HexValue(a).value && PairValue(a, b) % 16 == HexValue(b).value
  {
  }

  lemma DashedLower(h: string)
    requires |h| == 32 && LowerCase(h)
    ensures LowerCase(Dashed(h))
  {
  }

  lemma UuidOfBytes(b: seq<Byte>)
    requires |b| == 16
    ensures AllHex(Undashed(Dashed(HexOf(b)))) && UuidBytes(Dashed(HexOf(b))) == b
    ensures LowerCase(Dashed(HexOf(b)))
  {
    HexRoundTrip(b);
    DashedUndashed(HexOf(b));
    DashedLower(HexOf(b));
  }

  lemma BytesOfUuid(id: string)
    requires UuidText(id) && LowerCase(id)
    ensures |id| == 36 && AllHex(Undashed(id)) && Dashed(HexOf(UuidBytes(id))) == id
  {
    UuidShape(id);
    assert LowerCase(Undashed(id));
    HexUnique(Undashed(id));
    UndashedDashed(id);
  }

  lemma AsciiRoundTrip(s: string)
    requires forall i :: 0 <= i < |s| ==> s[i] < 128 as char
    ensures AsciiText(Ascii(s)) == Some(s)
  {
    assert Chars(Ascii(s)) == s;
  }

  lemma AsciiUnique(b: seq<Byte>)
    requires AsciiText(b).Some?
    ensures (forall i :: 0 <= i < |b| ==> AsciiText(b).value[i] < 128 as char) && Ascii(AsciiText(b).value) == b
  {
    var s := AsciiText(b).value;
    forall i | 0 <= i < |b| ensures s[i] < 128 as char && s[i] as int == b[i] { }
    assert Ascii(s) == b;
  }

  // ---------- Printing and parsing are inverse ----------

  lemma ReadPrinted(c: Claims)
    requires Printable(c)
    ensures ReadClaims(Payload(c)) == Some(c)
  {
    var p := Payload(c);
    UuidShape(c.id);
    assert p[..4] == Uint32(c.iat) && p[4..8] == Uint32(c.exp) && p[8..24] == UuidBytes(c.id) && p[24..] == Ascii(c.queue);
    Uint32RoundTrip(c.iat);
    Uint32RoundTrip(c.exp);
    BytesOfUuid(c.id);
    AsciiRoundTrip(c.queue);
  }

  lemma PartsPrint(p: seq<Byte>, iat: seq<Byte>, exp: seq<Byte>, id: seq<Byte>, queue: seq<Byte>, c: Claims)
    requires |iat| == 4 && |exp| == 4 && |id| == 16 && p == iat + exp + id + queue
    requires ClaimsOf(iat, exp, id, queue) == Some(c)
    ensures Printable(c) && Payload(c) == p
  {
    Uint32Unique(iat);
    Uint32Unique(exp);
    UuidOfBytes(id);
    AsciiUnique(queue);
  }

  lemma Cut(p: seq<Byte>)
    requires |p| >= 24
    ensures p == p[..4] + p[4..8] + p[8..24] + p[24..]
  {
  }

  lemma PrintRead(p: seq<Byte>, c: Claims)
    requires |p| >= 24 && ReadClaims(p) == Some(c)
    ensures Printable(c) && Payload(c) == p
  {
    Cut(p);
    PartsPrint(p, p[..4], p[4..8], p[8..24], p[24..], c);
  }

  /** Queue names of 1 to 63 characters give tokens of 80 to 163 characters. */
  lemma TokenLength(mac: Mac, secret: string, c: Claims)
    requires Printable(c)
    ensures |Token(mac, secret, c)| == 4 + (4 * (56 + |c.queue|) + 2) / 3
    ensures 80 <= |Token(mac, secret, c)| <= 163
    ensures |c.queue| == 1 ==> |Token(mac, secret, c)| == 80
    ensures |c.queue| == 63 ==> |Token(mac, secret, c)| == 163
  {
    EncodedText(TokenBytes(mac, secret, c));
  }

  /** No text within the length limit decodes past the layout. */
  lemma LimitMeetsLayout(token: string, bytes: seq<Byte>)
    requires PREFIX <= token && |token| <= 163 && Decode(token[|PREFIX|..]) == Some(bytes)
    ensures |bytes| <= 24 + 63 + 32
  {
    DecodeAcceptsExactlyEncodings(token[|PREFIX|..], bytes);
    EncodedText(bytes);
  }

  lemma PrintedVerifies(mac: Mac, secret: string, c: Claims, now: int)
    requires Printable(c)
    ensures Verify(mac, secret, Token(mac, secret, c), now) == if InForce(c, now) then Some(c) else None
  {
    var bytes, token := TokenBytes(mac, secret, c), Token(mac, secret, c);
    TokenLength(mac, secret, c);
    assert token[|PREFIX|..] == Encode(bytes);
    DecodeAcceptsExactlyEncodings(Encode(bytes), bytes);
    assert bytes[..|bytes| - 32] == Payload(c) && bytes[|bytes| - 32..] == mac(secret, Payload(c));
    ReadPrinted(c);
  }

  /** The bytes that a token's text stands for. */
  function DecodedBytes(token: string): seq<Byte> {
    if PREFIX <= token && Decode(token[|PREFIX|..]).Some? then Decode(token[|PREFIX|..]).value else []
  }

  lemma AcceptedBytes(mac: Mac, secret: string, token: string, now: int, bytes: seq<Byte>)
    requires bytes == DecodedBytes(token)
    ensures Verify(mac, secret, token, now).Some? ==>
              && token == PREFIX + Encode(bytes) && |bytes| >= 57
              && mac(secret, bytes[..|bytes| - 32]) == bytes[|bytes| - 32..]
              && ReadClaims(bytes[..|bytes| - 32]) == Verify(mac, secret, token, now)
  {
    if Verify(mac, secret, token, now).Some? {
      DecodeAcceptsExactlyEncodings(token[|PREFIX|..], bytes);
      assert token == PREFIX + token[|PREFIX|..];
    }
  }

  lemma AcceptedIsPrinted(mac: Mac, secret: string, token: string, now: int, c: Claims)
    ensures Verify(mac, secret, token, now) == Some(c) ==>
              Printable(c) && InForce(c, now) && Token(mac, secret, c) == token
  {
    if Verify(mac, secret, token, now) == Some(c) {
      var bytes := DecodedBytes(token);
      AcceptedBytes(mac, secret, token, now, bytes);
      PrintRead(bytes[..|bytes| - 32], c);
      TokenOf(mac, secret, c, bytes);
    }
  }

  lemma TokenOf(mac: Mac, secret: string, c: Claims, bytes: seq<Byte>)
    requires Printable(c) && |bytes| >= 57 && Payload(c) == bytes[..|bytes| - 32]
    requires mac(secret, bytes[..|bytes| - 32]) == bytes[|bytes| - 32..]
    ensures Token(mac, secret, c) == PREFIX + Encode(bytes)
  {
    assert bytes == bytes[..|bytes| - 32] + bytes[|bytes| - 32..];
  }

  /**
   Verification accepts a token, as standing for certain claims, exactly if it is the printed form
   of those claims and the time is from issue up to but excluding expiry. So printing and
   parsing are inverse both ways.
   */
  lemma VerifyAcceptsExactly(mac: Mac, secret: string, token: string, now: int, c: Claims)
    ensures Verify(mac, secret, token, now) == Some(c) <==>
            Printable(c) && InForce(c, now) && token == Token(mac, secret, c)
  {
    AcceptedIsPrinted(mac, secret, token, now, c);
    if Printable(c) && InForce(c, now) && token == Token(mac, secret, c) { PrintedVerifies(mac, secret, c, now); }
  }

  // ---------- Issuing ----------

  predicate Duration(seconds: real) {
    seconds == seconds.Floor as real && 1 <= seconds.Floor <= MAX_SECONDS
  }

  method SetUint32(a: array<Byte>, at: nat, x: int)
    requires at + 4 <= a.Length && 0 <= x <= MAX_UINT32
    modifies a
    ensures a[..] == old(a[..at]) + Uint32(x) + old(a[at + 4..])
  {
    var b := Uint32(x);
    a[at], a[at + 1], a[at + 2], a[at + 3] := b[0], b[1], b[2], b[3];
  }

  method Set(a: array<Byte>, at: nat, b: seq<Byte>)
    requires at + |b| <= a.Length
    modifies a
    ensures a[..] == old(a[..at]) + b + old(a[at + |b|..])
  {
    forall i | at <= i < at + |b| { a[i] := b[i - at]; }
  }

  method FillPayload(c: Claims) returns (payload: array<Byte>)
    requires Printable(c)
    ensures fresh(payload) && payload[..] == Payload(c)
  {
    UuidShape(c.id);
    payload := new Byte[24 + |c.queue|](_ => 0);
    SetUint32(payload, 0, c.iat);
    assert payload[..4] == Uint32(c.iat);
    SetUint32(payload, 4, c.exp);
    ghost var times := Uint32(c.iat) + Uint32(c.exp);
    assert payload[..8] == times;
    FillId(payload, Undashed(c.id));
    assert payload[..24] == times + UuidBytes(c.id);
    Set(payload, 24, Ascii(c.queue));
  }

  method FillId(payload: array<Byte>, h: string)
    requires payload.Length >= 24 && |h| == 32 && AllHex(h)
    modifies payload
    ensures payload[..] == old(payload[..8]) + HexBytes(h) + old(payload[24..])
  {
    var i := 0;
    while i < 16
      invariant 0 <= i <= 16
      invariant payload[..8] == old(payload[..8]) && payload[24..] == old(payload[24..])
      invariant forall k :: 0 <= k < i ==> payload[8 + k] == HexBytes(h)[k]
    {
      payload[8 + i] := PairValue(h[2 * i], h[2 * i + 1]);
      i := i + 1;
    }
    assert payload[8..24] == HexBytes(h);
    assert payload[..] == payload[..8] + payload[8..24] + payload[24..];
  }

  method FillToken(mac: Mac, secret: string, c: Claims) returns (token: array<Byte>)
    requires Printable(c)
    ensures fresh(token) && token[..] == TokenBytes(mac, secret, c)
  {
    var payload := FillPayload(c);
    var signature := mac(secret, payload[..]);
    token := new Byte[payload.Length + |signature|](_ => 0);
    Set(token, 0, payload[..]);
    assert token[..payload.Length] == Payload(c);
    Set(token, payload.Length, signature);
    assert token[payload.Length + |signature|..] == [];
  }

  /** The token verifies to these claims from issue up to but excluding expiry, and at no other time to anything. */
  ghost predicate VerifiesExactly(mac: Mac, secret: string, token: string, c: Claims) {
    forall t :: Verify(mac, secret, token, t) == if c.iat <= t < c.exp then Some(c) else None
  }

  lemma IssuedVerifies(mac: Mac, secret: string, c: Claims)
    requires Printable(c) && 0 < c.exp - c.iat <= MAX_SECONDS
    ensures VerifiesExactly(mac, secret, Token(mac, secret, c), c)
  {
    forall t ensures Verify(mac, secret, Token(mac, secret, c), t) == if c.iat <= t < c.exp then Some(c) else None {
      PrintedVerifies(mac, secret, c, t);
    }
  }

  /**
   An id is what crypto.randomUUID returns. A token issued without an error verifies to its own
   claims for exactly the seconds from issue up to but excluding expiry.
   */
  method IssueWorkerToken(mac: Mac, secret: string, queue: string, seconds: real, now: int, id: string)
    returns (r: Result<(string, int), Error>)
    requires UuidText(id) && LowerCase(id)
    ensures r == Err(InvalidDuration) <==> !Duration(seconds)
    ensures r == Err(InvalidClaims) <==>
            Duration(seconds) && !(QueueName(queue) && 0 <= now && now + seconds.Floor <= MAX_SAFE_INTEGER)
    ensures r == Err(InvalidTimestamp) <==>
            Duration(seconds) && QueueName(queue) && 0 <= now && MAX_UINT32 < now + seconds.Floor <= MAX_SAFE_INTEGER
    ensures r.Ok? ==> r.value.1 == now + seconds.Floor && 80 <= |r.value.0| <= 163
    ensures r.Ok? ==> VerifiesExactly(mac, secret, r.value.0, Claims(queue, now, r.value.1, id))
  {
    if seconds != seconds.Floor as real || seconds < 1.0 || seconds > MAX_SECONDS as real {
      return Err(InvalidDuration);
    }
    var c := Claims(queue, now, now + seconds.Floor, id);
    if !ValidClaims(c) {
      return Err(InvalidClaims);
    }
    if c.iat > MAX_UINT32 || c.exp > MAX_UINT32 {
      return Err(InvalidTimestamp);
    }
    var token := FillToken(mac, secret, c);
    TokenLength(mac, secret, c);
    IssuedVerifies(mac, secret, c);
    r := Ok((PREFIX + Encode(token[..]), c.exp));
  }
}
