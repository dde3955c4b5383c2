/**
 How Bash reads a simple command: splitting into words, and removing quotes. Covers bare
 characters, backslash (section 2.2.1 of the POSIX Shell Command Language), single quotes
 (section 2.2.2), $'...' (section 3.1.2.4 of the Bash Reference Manual), assignments in
 front of a command, and reserved words (section 2.4 of POSIX, section 3.2.5 of Bash).

 Text that would start anything else (an expansion, an operator, a pattern, a comment, a
 history reference) is refused, so that text which is accepted means its words and
 nothing more.
 */
module Bash {
  import opened Wrappers
  import opened Hex

  /** A character of a word, and whether it was quoted. */
  datatype Piece = Piece(c: char, quoted: bool)

  type Word = seq<Piece>

  datatype Mode = Plain | Single | Ansi

  // ---------- Words ----------

  predicate Blank(c: char) {
    c == ' ' || c == '\t'
  }

  /** Characters that, unquoted, are or may begin something other than themselves. */
  predicate Special(c: char) {
    c in {'|', '&', ';', '<', '>', '(', ')', '`', '"', '\n', '\r', '*', '?', '[', ']', '!', '{', '}', '^', '~', '#', '$'}
  }

  predicate Unquoted(w: Word) {
    forall i :: 0 <= i < |w| ==> !w[i].quoted
  }

  function TextOf(w: Word): (r: string)
    ensures |r| == |w|
  {
    seq(|w|, i requires 0 <= i < |w| => w[i].c)
  }

  function Texts(words: seq<Word>): (r: seq<string>)
    ensures |r| == |words|
  {
    seq(|words|, i requires 0 <= i < |words| => TextOf(words[i]))
  }

  predicate NameStart(c: char) {
    'a' <= c <= 'z' || 'A' <= c <= 'Z' || c == '_'
  }

  predicate NameChar(c: char) {
    NameStart(c) || '0' <= c <= '9'
  }

  predicate Name(s: string) {
    s != "" && NameStart(s[0]) && forall i :: 0 <= i < |s| ==> NameChar(s[i])
  }

  /** An unquoted NAME= or NAME+= at the front makes a word an assignment. */
  predicate IsAssignment(w: Word) {
    exists n :: 0 < n < |w| && Assigns(w, n)
  }

  predicate Assigns(w: Word, n: nat)
    requires 0 < n < |w|
  {
    && Unquoted(w[..n + 1]) && w[n].c == '='
    && (Name(TextOf(w)[..n]) || (w[n - 1].c == '+' && Name(TextOf(w)[..n - 1])))
  }

  const RESERVED_WORDS: seq<string> :=
    ["if", "then", "else", "elif", "fi", "case", "esac", "for", "select", "while", "until", "do", "done", "in",
     "function", "time", "coproc", "!", "{", "}", "[[", "]]"]

  /** Reserved words count only with no character quoted. */
  predicate IsReserved(w: Word) {
    Unquoted(w) && TextOf(w) in RESERVED_WORDS
  }

  // ---------- Escapes inside $'...' ----------

  function HexRun(s: string, limit: nat): (n: nat)
    ensures n <= |s| && n <= limit
    ensures forall i :: 0 <= i < n ==> HexValue(s[i]).Some?
  {
    if limit == 0 || s == "" || HexValue(s[0]).None? then 0
    else
      var n := HexRun(s[1..], limit - 1);
      assert forall i :: 0 < i < n + 1 ==> s[i] == s[1..][i - 1];
      n + 1
  }

  predicate OctalDigit(c: char) {
    '0' <= c <= '7'
  }

  function OctalRun(s: string, limit: nat): (n: nat)
    ensures n <= |s| && n <= limit
  {
    if limit == 0 || s == "" || !OctalDigit(s[0]) then 0 else 1 + OctalRun(s[1..], limit - 1)
  }

  function OctalNumber(s: string): int {
    if s == "" then 0 else 8 * OctalNumber(s[..|s| - 1]) + (s[|s| - 1] as int - '0' as int)
  }

  /** A byte that is a whole character other than NUL. */
  function ByteText(n: int): Option<string> {
    if 0 < n < 128 then Some([n as char]) else None
  }

  function ScalarText(n: int): Option<string> {
    if 0 < n < 0xD800 || 0xE000 <= n < 0x11_0000 then Some([n as char]) else None
  }

  function Numeric(text: Option<string>, used: nat): Option<(string, nat)> {
    if text.Some? then Some((text.value, used)) else None
  }

  /** What an escape means, and how many characters after the backslash it takes. */
  function Escape(s: string): (r: Option<(string, nat)>)
    requires s != ""
    ensures r.Some? ==> 0 < r.value.1 <= |s|
  {
    var c := s[0];
    if c == 'a' then Some(([7 as char], 1))
    else if c == 'b' then Some(([8 as char], 1))
    else if c == 'e' || c == 'E' then Some(([27 as char], 1))
    else if c == 'f' then Some(([12 as char], 1))
    else if c == 'n' then Some(("\n", 1))
    else if c == 'r' then Some(("\r", 1))
    else if c == 't' then Some(("\t", 1))
    else if c == 'v' then Some(([11 as char], 1))
    else if c == '\\' || c == '\'' || c == '"' || c == '?' then Some(([c], 1))
    else if c == 'x' then HexEscape(s, 2, true)
    else if c == 'u' then HexEscape(s, 4, false)
    else if c == 'U' then HexEscape(s, 8, false)
    else if OctalDigit(c) then
      var n := OctalRun(s, 3);
      Numeric(ByteText(OctalNumber(s[..n]) % 256), n)
    else if c == 'c' then None
    else Some((['\\', c], 1))
  }

  function HexEscape(s: string, limit: nat, byte: bool): (r: Option<(string, nat)>)
    requires s != ""
    ensures r.Some? ==> 0 < r.value.1 <= |s|
  {
    var n := HexRun(s[1..], limit);
    if n == 0 then None
    else
      var x := HexNumber(s[1..][..n]);
      Numeric(if byte then ByteText(x) else ScalarText(x), 1 + n)
  }

  // ---------- The scanner ----------

  function Open(current: Option<Word>): Word {
    if current.Some? then current.value else []
  }

  function Close(current: Option<Word>, done: seq<Word>): seq<Word> {
    if current.Some? then done + [current.value] else done
  }

  function Added(current: Option<Word>, s: string, quoted: bool): Option<Word> {
    Some(Open(current) + Pieces(s, quoted))
  }

  function Pieces(s: string, quoted: bool): (r: Word)
    ensures |r| == |s|
  {
    seq(|s|, i requires 0 <= i < |s| => Piece(s[i], quoted))
  }

  /** Reads the rest of a line, with the word begun so far (if any) and the words before it. */
  function Scan(s: string, mode: Mode, current: Option<Word>, done: seq<Word>): Option<seq<Word>>
    decreases |s|
  {
    match mode
    case Plain =>
      if s == "" then Some(Close(current, done))
      else if Blank(s[0]) then Scan(s[1..], Plain, None, Close(current, done))
      else if s[0] == '\'' then Scan(s[1..], Single, Added(current, "", true), done)
      else if s[0] == '$' && |s| > 1 && s[1] == '\'' then Scan(s[2..], Ansi, Added(current, "", true), done)
      else if s[0] == '\\' then
        if |s| == 1 then None
        else if s[1] == '\n' then Scan(s[2..], Plain, current, done)
        else Scan(s[2..], Plain, Added(current, [s[1]], true), done)
      else if Special(s[0]) then None
      else Scan(s[1..], Plain, Added(current, [s[0]], false), done)
    case Single =>
      if s == "" then None
      else if s[0] == '\'' then Scan(s[1..], Plain, current, done)
      else Scan(s[1..], Single, Added(current, [s[0]], true), done)
    case Ansi =>
      if s == "" then None
      else if s[0] == '\'' then Scan(s[1..], Plain, current, done)
      else if s[0] == '\\' then
        if |s| == 1 then None
        else
          match Escape(s[1..])
          case None => None
          case Some(e) => Scan(s[1 + e.1..], Ansi, Added(current, e.0, true), done)
      else Scan(s[1..], Ansi, Added(current, [s[0]], true), done)
  }

  /** The argument vector of a line that is one simple command and nothing else. */
  function Command(line: string): Option<seq<string>> {
    match Scan(line, Plain, None, [])
    case None => None
    case Some(words) =>
      if words == [] || IsAssignment(words[0]) || IsReserved(words[0]) then None else Some(Texts(words))
  }

  // ---------- One step of the scanner ----------

  lemma StepBlank(rest: string, current: Option<Word>, done: seq<Word>)
    ensures Scan(" " + rest, Plain, current, done) == Scan(rest, Plain, None, Close(current, done))
  {
    assert (" " + rest)[1..] == rest;
  }

  lemma StepOpenSingle(rest: string, current: Option<Word>, done: seq<Word>)
    ensures Scan("'" + rest, Plain, current, done) == Scan(rest, Single, Added(current, "", true), done)
  {
    assert ("'" + rest)[1..] == rest;
  }

  lemma StepOpenAnsi(rest: string, current: Option<Word>, done: seq<Word>)
    ensures Scan("$'" + rest, Plain, current, done) == Scan(rest, Ansi, Added(current, "", true), done)
  {
    assert ("$'" + rest)[2..] == rest;
  }

  lemma StepBackslash(c: char, rest: string, current: Option<Word>, done: seq<Word>)
    requires c != '\n'
    ensures Scan(['\\', c] + rest, Plain, current, done) == Scan(rest, Plain, Added(current, [c], true), done)
  {
    assert (['\\', c] + rest)[2..] == rest;
  }

  lemma StepBare(c: char, rest: string, current: Option<Word>, done: seq<Word>)
    requires !Blank(c) && c != '\'' && c != '\\' && !Special(c)
    ensures Scan([c] + rest, Plain, current, done) == Scan(rest, Plain, Added(current, [c], false), done)
  {
    assert ([c] + rest)[1..] == rest;
  }

  lemma StepClose(mode: Mode, rest: string, current: Option<Word>, done: seq<Word>)
    requires mode != Plain
    ensures Scan("'" + rest, mode, current, done) == Scan(rest, Plain, current, done)
  {
    assert ("'" + rest)[1..] == rest;
  }

  lemma StepInside(mode: Mode, c: char, rest: string, current: Option<Word>, done: seq<Word>)
    requires mode != Plain && c != '\'' && (mode == Ansi ==> c != '\\')
    ensures Scan([c] + rest, mode, current, done) == Scan(rest, mode, Added(current, [c], true), done)
  {
    assert ([c] + rest)[1..] == rest;
  }

  lemma StepEscape(e: string, text: string, rest: string, current: Option<Word>, done: seq<Word>)
    requires e != "" && Escape(e + rest) == Some((text, |e|))
    ensures Scan("\\" + (e + rest), Ansi, current, done) == Scan(rest, Ansi, Added(current, text, true), done)
  {
    var s := "\\" + (e + rest);
    assert s[1..] == e + rest && s[1 + |e|..] == rest;
  }

  // ---------- How pieces add up ----------

  lemma AddedTwice(current: Option<Word>, c: char, t: string, quoted: bool)
    requires t != "" && t[0] == c
    ensures Added(Added(current, [c], quoted), t[1..], quoted) == Added(current, t, quoted)
  {
    assert Open(current) + Pieces([c], quoted) + Pieces(t[1..], quoted) == Open(current) + Pieces(t, quoted);
  }

  lemma AddedNothing(current: Option<Word>, quoted: bool)
    requires current.Some?
    ensures Added(current, "", quoted) == current
  {
    assert Open(current) + Pieces("", quoted) == Open(current);
  }

  lemma HexRunWhole(t: string, rest: string)
    requires AllHex(t)
    ensures HexRun(t + rest, |t|) == |t|
  {
    if t != "" {
      assert (t + rest)[1..] == t[1..] + rest;
      HexRunWhole(t[1..], rest);
    }
  }

  /** A number escape is read back, whatever follows it. */
  lemma HexEscapeReads(letter: char, x: nat, digits: string, rest: string, byte: bool)
    requires digits != "" && digits == HexText(x, |digits|) && x < Power16(|digits|)
    ensures HexEscape([letter] + digits + rest, |digits|, byte) ==
            Numeric(if byte then ByteText(x) else ScalarText(x), 1 + |digits|)
  {
    HexNumberOfText(x, |digits|);
    HexRunWhole(digits, rest);
    var s := [letter] + digits + rest;
    assert s[1..] == digits + rest && (digits + rest)[..|digits|] == digits;
  }

  lemma CommandOf(line: string, words: seq<Word>)
    requires Scan(line, Plain, None, []) == Some(words)
    requires words != [] && !IsAssignment(words[0]) && !IsReserved(words[0])
    ensures Command(line) == Some(Texts(words))
  {
  }

  lemma Associate(a: string, b: string, c: string)
    ensures a + b + c == a + (b + c)
  {
  }

  lemma HeadTail(t: string, rest: string)
    requires t != ""
    ensures t + rest == [t[0]] + (t[1..] + rest)
  {
  }

  /** Bare characters are read as themselves. */
  lemma {:induction false} ScanBare(t: string, rest: string, current: Option<Word>, done: seq<Word>)
    requires current.Some? || t != ""
    requires forall i :: 0 <= i < |t| ==> !Blank(t[i]) && t[i] != '\'' && t[i] != '\\' && !Special(t[i])
    ensures Scan(t + rest, Plain, current, done) == Scan(rest, Plain, Added(current, t, false), done)
  {
    if t == "" {
      assert t + rest == rest;
      AddedNothing(current, false);
    } else {
      HeadTail(t, rest);
      StepBare(t[0], t[1..] + rest, current, done);
      ScanBare(t[1..], rest, Added(current, [t[0]], false), done);
      AddedTwice(current, t[0], t, false);
    }
  }
}
