/** How the CLI shows a command line (cli/format.go), and that Bash reads it back unchanged. */
module ShellQuote {
  import opened Wrappers
  import opened Hex
  import Bash

  /**
   The tables the printer consults: Unicode's category Cf, which is left open, since nothing below
   depends on which characters it holds; and the words it takes for shell keywords.
   */
  datatype Tables = Tables(format: char -> bool, keyword: string -> bool)

  /** Every word that Bash reserves, and that could be shown bare, is in the table of keywords. */
  ghost predicate CoversBash(u: Tables) {
    forall w :: w in Bash.RESERVED_WORDS && BareWord(w) ==> u.keyword(w)
  }

  /** Unicode's category Cc. */
  predicate IsControl(c: char) {
    c < 32 as char || 127 as char <= c < 160 as char
  }

  predicate Hidden(u: Tables, c: char) {
    IsControl(c) || u.format(c)
  }

  predicate AnyHidden(u: Tables, s: string) {
    exists i :: 0 <= i < |s| && Hidden(u, s[i])
  }

  // ---------- What is printed ----------

  function AnsiChar(u: Tables, c: char): string {
    if c == '\n' then "\\n"
    else if c == '\r' then "\\r"
    else if c == '\t' then "\\t"
    else if c == '\\' then "\\\\"
    else if c == '\'' then "\\'"
    else if Hidden(u, c) then
      if c < 128 as char then "\\x" + HexText(c as int, 2) else "\\U" + HexText(c as int, 8)
    else [c]
  }

  function AnsiText(u: Tables, s: string): string {
    if s == "" then "" else AnsiChar(u, s[0]) + AnsiText(u, s[1..])
  }

  /** strings.ReplaceAll(s, "'", "'\\''"). */
  function Requoted(s: string): string {
    if s == "" then "" else SingleChar(s[0]) + Requoted(s[1..])
  }

  function SingleChar(c: char): string {
    if c == '\'' then "'\\''" else [c]
  }

  /** The pattern [a-zA-Z0-9_@%+=:,./-]+. */
  predicate BareWord(s: string) {
    s != "" && forall i :: 0 <= i < |s| ==> BareChar(s[i])
  }

  predicate BareChar(c: char) {
    'a' <= c <= 'z' || 'A' <= c <= 'Z' || '0' <= c <= '9' ||
    c in {'_', '@', '%', '+', '=', ':', ',', '.', '/', '-'}
  }

  const KEYWORDS: seq<string> :=
    ["if", "then", "else", "elif", "fi", "case", "esac", "for", "select", "while", "until", "do", "done", "in",
     "function", "time", "coproc", "repeat", "end", "foreach", "nocorrect", "noglob"]

  /** The keywords, each followed by a space. */
  function Spaced(words: seq<string>): string {
    if words == [] then "" else words[0] + " " + Spaced(words[1..])
  }

  predicate Contains(s: string, t: string) {
    exists i :: 0 <= i <= |s| && OccursAt(s, t, i)
  }

  predicate OccursAt(s: string, t: string, i: int) {
    0 <= i <= |s| - |t| && s[i..i + |t|] == t
  }

  predicate ListedAmong(words: seq<string>, arg: string) {
    Contains(" " + Spaced(words), " " + arg + " ")
  }

  predicate Reserved(arg: string) {
    ListedAmong(KEYWORDS, arg)
  }

  function Quote(u: Tables, arg: string, command: bool): string {
    if AnyHidden(u, arg) then "$'" + AnsiText(u, arg) + "'"
    else if BareWord(arg) && !(command && ('=' in arg || u.keyword(arg))) then arg
    else "'" + Requoted(arg) + "'"
  }

  /** The arguments as shown; the first of them, if it comes first in the line, in command position. */
  function Quoted(u: Tables, argv: seq<string>, first: bool): (r: seq<string>)
    ensures |r| == |argv|
  {
    seq(|argv|, i requires 0 <= i < |argv| => Quote(u, argv[i], first && i == 0))
  }

  /** strings.Join(parts, " "). */
  function Joined(parts: seq<string>): string {
    if parts == [] then "" else if |parts| == 1 then parts[0] else parts[0] + " " + Joined(parts[1..])
  }

  function Display(u: Tables, argv: seq<string>): string {
    Joined(Quoted(u, argv, true))
  }

  // ---------- One argument ----------

  ghost predicate NulFree(s: string) {
    forall i :: 0 <= i < |s| ==> s[i] != '\0'
  }

  lemma CharsFitEscapes(c: char)
    ensures (c as int) < Power16(8) && (c < 128 as char ==> (c as int) < Power16(2))
  {
    assert Power16(4) == 0x1_0000;
    assert Power16(8) == 0x1_0000_0000;
  }

  /** What follows the backslash, for a character that is escaped. */
  function EscapeLetters(c: char): string {
    if c == '\n' then "n" else if c == '\r' then "r" else if c == '\t' then "t"
    else if c == '\\' then "\\" else if c == '\'' then "'"
    else if c < 128 as char then "x" + HexText(c as int, 2)
    else "U" + HexText(c as int, 8)
  }

  predicate Escaped(u: Tables, c: char) {
    c == '\\' || c == '\'' || Hidden(u, c)
  }

  lemma AnsiCharIs(u: Tables, c: char)
    ensures AnsiChar(u, c) == if Escaped(u, c) then "\\" + EscapeLetters(c) else [c]
  {
  }

  lemma LettersMean(c: char, rest: string)
    requires c != '\0'
    ensures Bash.Escape(EscapeLetters(c) + rest) == Some(([c], |EscapeLetters(c)|))
  {
    if c != '\n' && c != '\r' && c != '\t' && c != '\\' && c != '\'' {
      CharsFitEscapes(c);
      if c < 128 as char {
        Bash.HexEscapeReads('x', c as int, HexText(c as int, 2), rest, true);
      } else {
        Bash.HexEscapeReads('U', c as int, HexText(c as int, 8), rest, false);
      }
    }
  }

  lemma ScanAnsiChar(u: Tables, c: char, rest: string, current: Option<Bash.Word>, done: seq<Bash.Word>)
    requires c != '\0'
    ensures Bash.Scan(AnsiChar(u, c) + rest, Bash.Ansi, current, done) ==
            Bash.Scan(rest, Bash.Ansi, Bash.Added(current, [c], true), done)
  {
    AnsiCharIs(u, c);
    if Escaped(u, c) {
      LettersMean(c, rest);
      Bash.Associate("\\", EscapeLetters(c), rest);
      Bash.StepEscape(EscapeLetters(c), [c], rest, current, done);
    } else {
      Bash.StepInside(Bash.Ansi, c, rest, current, done);
    }
  }

  lemma {:induction false} ScanAnsi(u: Tables, t: string, rest: string, current: Option<Bash.Word>, done: seq<Bash.Word>)
    requires NulFree(t) && current.Some?
    ensures Bash.Scan(AnsiText(u, t) + ("'" + rest), Bash.Ansi, current, done) ==
            Bash.Scan(rest, Bash.Plain, Bash.Added(current, t, true), done)
  {
    var end := "'" + rest;
    if t == "" {
      assert AnsiText(u, t) + end == end;
      Bash.StepClose(Bash.Ansi, rest, current, done);
      Bash.AddedNothing(current, true);
    } else {
      Bash.Associate(AnsiChar(u, t[0]), AnsiText(u, t[1..]), end);
      ScanAnsiChar(u, t[0], AnsiText(u, t[1..]) + end, current, done);
      ScanAnsi(u, t[1..], rest, Bash.Added(current, [t[0]], true), done);
      Bash.AddedTwice(current, t[0], t, true);
    }
  }

  lemma ScanSingleChar(c: char, rest: string, current: Option<Bash.Word>, done: seq<Bash.Word>)
    requires current.Some?
    ensures Bash.Scan(SingleChar(c) + rest, Bash.Single, current, done) ==
            Bash.Scan(rest, Bash.Single, Bash.Added(current, [c], true), done)
  {
    if c == '\'' {
      assert SingleChar(c) + rest == "'" + (['\\', c] + ("'" + rest));
      Bash.StepClose(Bash.Single, ['\\', c] + ("'" + rest), current, done);
      Bash.StepBackslash(c, "'" + rest, current, done);
      Bash.StepOpenSingle(rest, Bash.Added(current, [c], true), done);
      Bash.AddedNothing(Bash.Added(current, [c], true), true);
    } else {
      Bash.StepInside(Bash.Single, c, rest, current, done);
    }
  }

  lemma {:induction false} ScanSingle(t: string, rest: string, current: Option<Bash.Word>, done: seq<Bash.Word>)
    requires current.Some?
    ensures Bash.Scan(Requoted(t) + ("'" + rest), Bash.Single, current, done) ==
            Bash.Scan(rest, Bash.Plain, Bash.Added(current, t, true), done)
  {
    var end := "'" + rest;
    if t == "" {
      assert Requoted(t) + end == end;
      Bash.StepClose(Bash.Single, rest, current, done);
      Bash.AddedNothing(current, true);
    } else {
      Bash.Associate(SingleChar(t[0]), Requoted(t[1..]), end);
      ScanSingleChar(t[0], Requoted(t[1..]) + end, current, done);
      ScanSingle(t[1..], rest, Bash.Added(current, [t[0]], true), done);
      Bash.AddedTwice(current, t[0], t, true);
    }
  }

  /** Whether an argument is shown as it is. */
  predicate ShownBare(u: Tables, arg: string, command: bool) {
    !AnyHidden(u, arg) && BareWord(arg) && !(command && ('=' in arg || u.keyword(arg)))
  }

  /** The word that Bash makes of one shown argument. */
  function WordFor(u: Tables, arg: string, command: bool): Bash.Word {
    Bash.Pieces(arg, !ShownBare(u, arg, command))
  }

  lemma ScanQuote(u: Tables, arg: string, command: bool, rest: string, done: seq<Bash.Word>)
    requires NulFree(arg)
    ensures Bash.Scan(Quote(u, arg, command) + rest, Bash.Plain, None, done) ==
            Bash.Scan(rest, Bash.Plain, Some(WordFor(u, arg, command)), done)
  {
    if AnyHidden(u, arg) {
      ScanAnsiArg(u, arg, rest, done);
    } else if ShownBare(u, arg, command) {
      ScanBareArg(arg, rest, done);
    } else {
      ScanSingleArg(arg, rest, done);
    }
  }

  lemma ScanAnsiArg(u: Tables, arg: string, rest: string, done: seq<Bash.Word>)
    requires NulFree(arg)
    ensures Bash.Scan("$'" + AnsiText(u, arg) + "'" + rest, Bash.Plain, None, done) ==
            Bash.Scan(rest, Bash.Plain, Some(Bash.Pieces(arg, true)), done)
  {
    var text, empty := AnsiText(u, arg), Bash.Added(None, "", true);
    assert "$'" + text + "'" + rest == "$'" + (text + ("'" + rest));
    Bash.StepOpenAnsi(text + ("'" + rest), None, done);
    ScanAnsi(u, arg, rest, empty, done);
    FirstPieces(arg);
  }

  lemma ScanSingleArg(arg: string, rest: string, done: seq<Bash.Word>)
    ensures Bash.Scan("'" + Requoted(arg) + "'" + rest, Bash.Plain, None, done) ==
            Bash.Scan(rest, Bash.Plain, Some(Bash.Pieces(arg, true)), done)
  {
    var text, empty := Requoted(arg), Bash.Added(None, "", true);
    assert "'" + text + "'" + rest == "'" + (text + ("'" + rest));
    Bash.StepOpenSingle(text + ("'" + rest), None, done);
    ScanSingle(arg, rest, empty, done);
    FirstPieces(arg);
  }

  lemma ScanBareArg(arg: string, rest: string, done: seq<Bash.Word>)
    requires BareWord(arg)
    ensures Bash.Scan(arg + rest, Bash.Plain, None, done) == Bash.Scan(rest, Bash.Plain, Some(Bash.Pieces(arg, false)), done)
  {
    Bash.ScanBare(arg, rest, None, done);
    assert [] + Bash.Pieces(arg, false) == Bash.Pieces(arg, false);
  }

  lemma FirstPieces(arg: string)
    ensures Bash.Added(Bash.Added(None, "", true), arg, true) == Some(Bash.Pieces(arg, true))
  {
    assert [] + Bash.Pieces("", true) + Bash.Pieces(arg, true) == Bash.Pieces(arg, true);
  }

  // ---------- The first word ----------

  lemma OccursLater(s: string, t: string, i: int, front: string)
    requires OccursAt(s, t, i)
    ensures OccursAt(front + s, t, |front| + i)
  {
    assert (front + s)[|front| + i..|front| + i + |t|] == s[i..i + |t|];
  }

  lemma {:induction false} SpacedContains(words: seq<string>, k: nat)
    requires k < |words|
    ensures Contains(" " + Spaced(words), " " + words[k] + " ")
  {
    var s, t := " " + Spaced(words), " " + words[k] + " ";
    if k == 0 {
      assert s == t + Spaced(words[1..]);
      assert OccursAt(s, t, 0);
    } else {
      SpacedContains(words[1..], k - 1);
      var s' := " " + Spaced(words[1..]);
      var i :| OccursAt(s', t, i);
      OccursLater(s', t, i, " " + words[0]);
      assert s == (" " + words[0]) + s';
    }
  }

  lemma ListedIsFound(words: seq<string>, w: string)
    requires w in words
    ensures ListedAmong(words, w)
  {
    var k :| 0 <= k < |words| && words[k] == w;
    SpacedContains(words, k);
  }

  lemma BashKeywordsListed(w: string)
    requires w in Bash.RESERVED_WORDS
    ensures w in KEYWORDS || w in ["!", "{", "}", "[[", "]]"]
  {
    var k :| 0 <= k < |Bash.RESERVED_WORDS| && Bash.RESERVED_WORDS[k] == w;
    if k < 17 {
      assert KEYWORDS[k] == w;
    } else {
      assert ["!", "{", "}", "[[", "]]"][k - 17] == w;
    }
  }

  lemma KeywordIsReserved(w: string)
    requires w in KEYWORDS
    ensures Reserved(w)
  {
    ListedIsFound(KEYWORDS, w);
  }

  lemma OtherKeywordsNotBare(w: string)
    requires w in ["!", "{", "}", "[[", "]]"]
    ensures !BareWord(w)
  {
    assert !BareChar(w[0]);
  }

  /** The list of keywords in the source covers every Bash keyword that needs no quotes otherwise. */
  lemma KeywordsCoverBash(format: char -> bool)
    ensures CoversBash(Tables(format, Reserved))
  {
    forall w | w in Bash.RESERVED_WORDS && BareWord(w) ensures Reserved(w) {
      BashKeywordsListed(w);
      if w in KEYWORDS {
        KeywordIsReserved(w);
      } else {
        OtherKeywordsNotBare(w);
        assert false;
      }
    }
  }

  lemma FirstWordIsCommand(u: Tables, arg: string)
    requires CoversBash(u)
    ensures !Bash.IsAssignment(WordFor(u, arg, true)) && !Bash.IsReserved(WordFor(u, arg, true))
  {
    var w := WordFor(u, arg, true);
    assert Bash.TextOf(w) == arg;
    if ShownBare(u, arg, true) {
      BareIsNoAssignment(w, arg);
    } else {
      QuotedIsPlainWord(w, arg);
    }
  }

  lemma BareIsNoAssignment(w: Bash.Word, arg: string)
    requires w == Bash.Pieces(arg, false) && '=' !in arg
    ensures !Bash.IsAssignment(w)
  {
    forall n | 0 < n < |w| ensures !Bash.Assigns(w, n) {
      assert w[n].c == arg[n] && arg[n] in arg;
    }
  }

  /** A word with every character quoted is neither an assignment nor reserved, not even the empty one. */
  lemma QuotedIsPlainWord(w: Bash.Word, arg: string)
    requires w == Bash.Pieces(arg, true)
    ensures !Bash.IsAssignment(w) && !Bash.IsReserved(w)
  {
    forall n | 0 < n < |w| ensures !Bash.Assigns(w, n) {
      assert w[..n + 1][0].quoted;
    }
    if arg == "" {
      assert Bash.TextOf(w) == "" && "" !in Bash.RESERVED_WORDS;
    } else {
      assert w[0].quoted;
    }
  }

  // ---------- The whole line ----------

  function Words(u: Tables, argv: seq<string>, first: bool): (r: seq<Bash.Word>)
    ensures |r| == |argv|
  {
    seq(|argv|, i requires 0 <= i < |argv| => WordFor(u, argv[i], first && i == 0))
  }

  lemma HeadAndTail(u: Tables, argv: seq<string>, first: bool)
    requires argv != []
    ensures Quoted(u, argv, first) == [Quote(u, argv[0], first)] + Quoted(u, argv[1..], false)
    ensures Words(u, argv, first) == [WordFor(u, argv[0], first)] + Words(u, argv[1..], false)
  {
  }

  lemma JoinedMore(part: string, parts: seq<string>)
    requires parts != []
    ensures Joined([part] + parts) == part + (" " + Joined(parts))
  {
    assert ([part] + parts)[1..] == parts;
    Bash.Associate(part, " ", Joined(parts));
  }

  lemma JoinedOne(part: string)
    ensures Joined([part] + []) == part + ""
  {
  }

  lemma {:induction false} ScanLine(u: Tables, argv: seq<string>, first: bool, done: seq<Bash.Word>)
    requires argv != [] && forall i :: 0 <= i < |argv| ==> NulFree(argv[i])
    ensures Bash.Scan(Joined(Quoted(u, argv, first)), Bash.Plain, None, done) == Some(done + Words(u, argv, first))
    decreases |argv|
  {
    var part, word := Quote(u, argv[0], first), WordFor(u, argv[0], first);
    HeadAndTail(u, argv, first);
    if |argv| == 1 {
      JoinedOne(part);
      ScanQuote(u, argv[0], first, "", done);
      assert Words(u, argv, first) == [word];
    } else {
      var parts := Quoted(u, argv[1..], false);
      JoinedMore(part, parts);
      ScanQuote(u, argv[0], first, " " + Joined(parts), done);
      Bash.StepBlank(Joined(parts), Some(word), done);
      ScanLine(u, argv[1..], false, done + [word]);
      MoreWords(done, word, Words(u, argv[1..], false));
    }
  }

  lemma MoreWords(done: seq<Bash.Word>, word: Bash.Word, words: seq<Bash.Word>)
    ensures done + [word] + words == done + ([word] + words)
  {
  }

  lemma LineReadsBack(u: Tables, argv: seq<string>)
    requires CoversBash(u) && argv != [] && forall i :: 0 <= i < |argv| ==> NulFree(argv[i])
    ensures Bash.Command(Display(u, argv)) == Some(argv)
  {
    ScanLine(u, argv, true, []);
    NoneBefore(Words(u, argv, true));
    FirstWordIsCommand(u, argv[0]);
    Bash.CommandOf(Display(u, argv), Words(u, argv, true));
    WordTexts(u, argv);
  }

  lemma NoneBefore(words: seq<Bash.Word>)
    ensures [] + words == words
  {
  }

  lemma WordTexts(u: Tables, argv: seq<string>)
    ensures Bash.Texts(Words(u, argv, true)) == argv
  {
    var words := Words(u, argv, true);
    forall i | 0 <= i < |argv| ensures Bash.TextOf(words[i]) == argv[i] { }
  }

  /**
   For every non-empty argv of NUL-free text, whatever characters count as format characters,
   Bash reads the shown line as one simple command with exactly that argv: the first word
   is neither an assignment nor a reserved word.
   */
  lemma DisplayReadsBack(format: char -> bool, argv: seq<string>)
    requires argv != [] && forall i :: 0 <= i < |argv| ==> NulFree(argv[i])
    ensures Bash.Command(Display(Tables(format, Reserved), argv)) == Some(argv)
  {
    KeywordsCoverBash(format);
    LineReadsBack(Tables(format, Reserved), argv);
  }

  /** Different commands are shown differently. */
  lemma DisplayInjective(u: Tables, a: seq<string>, b: seq<string>)
    requires CoversBash(u) && Display(u, a) == Display(u, b)
    requires a != [] && forall i :: 0 <= i < |a| ==> NulFree(a[i])
    requires b != [] && forall i :: 0 <= i < |b| ==> NulFree(b[i])
    ensures a == b
  {
    LineReadsBack(u, a);
    LineReadsBack(u, b);
  }

  // ---------- What a shown line looks like ----------

  /** No character of the text is a control or format character. */
  ghost predicate Visible(u: Tables, s: string) {
    forall i :: 0 <= i < |s| ==> !Hidden(u, s[i])
  }

  /** No printable ASCII character is a format character. */
  ghost predicate PlainAscii(u: Tables) {
    forall c :: ' ' <= c <= '~' ==> !u.format(c)
  }

  predicate Printable(s: string) {
    forall i :: 0 <= i < |s| ==> ' ' <= s[i] <= '~'
  }

  lemma PrintableIsVisible(u: Tables, s: string)
    requires PlainAscii(u) && Printable(s)
    ensures Visible(u, s)
  {
  }

  lemma {:induction false} HexIsPrintable(x: nat, width: nat)
    ensures Printable(HexText(x, width))
  {
    if width > 0 { HexIsPrintable(x / 16, width - 1); }
  }

  lemma AnsiCharVisible(u: Tables, c: char)
    requires PlainAscii(u)
    ensures Visible(u, AnsiChar(u, c))
  {
    if Escaped(u, c) {
      AnsiCharIs(u, c);
      HexIsPrintable(c as int, 2);
      HexIsPrintable(c as int, 8);
      PrintableIsVisible(u, AnsiChar(u, c));
    }
  }

  lemma {:induction false} AnsiTextVisible(u: Tables, s: string)
    requires PlainAscii(u)
    ensures Visible(u, AnsiText(u, s))
  {
    if s != "" {
      AnsiCharVisible(u, s[0]);
      AnsiTextVisible(u, s[1..]);
    }
  }

  lemma {:induction false} RequotedVisible(u: Tables, s: string)
    requires PlainAscii(u) && Visible(u, s)
    ensures Visible(u, Requoted(s))
  {
    if s != "" {
      assert Visible(u, s[1..]);
      RequotedVisible(u, s[1..]);
      assert !Hidden(u, s[0]);
      assert !Hidden(u, '\'') && !Hidden(u, '\\');
    }
  }

  lemma QuoteIsVisible(u: Tables, arg: string, command: bool)
    ensures PlainAscii(u) ==> Visible(u, Quote(u, arg, command))
  {
    if PlainAscii(u) {
      assert !Hidden(u, '\'') && !Hidden(u, '$');
      if AnyHidden(u, arg) {
        AnsiTextVisible(u, arg);
      } else {
        assert Visible(u, arg);
        RequotedVisible(u, arg);
      }
    }
  }

  lemma {:induction false} JoinedVisible(u: Tables, parts: seq<string>)
    requires PlainAscii(u) && forall i :: 0 <= i < |parts| ==> Visible(u, parts[i])
    ensures Visible(u, Joined(parts))
  {
    if |parts| > 1 {
      JoinedVisible(u, parts[1..]);
      assert Visible(u, parts[0]) && !Hidden(u, ' ');
    }
  }

  /** For every argv the shown line stays on one line and holds no control or format character. */
  lemma DisplayIsVisible(u: Tables, argv: seq<string>)
    requires PlainAscii(u)
    ensures Visible(u, Display(u, argv)) && '\n' !in Display(u, argv)
  {
    var parts := Quoted(u, argv, true);
    forall i | 0 <= i < |parts| ensures Visible(u, parts[i]) { QuoteIsVisible(u, argv[i], i == 0); }
    JoinedVisible(u, parts);
    assert Hidden(u, '\n');
  }

  lemma LineIsVisible(u: Tables, argv: seq<string>)
    ensures PlainAscii(u) ==> Visible(u, Display(u, argv))
  {
    if PlainAscii(u) { DisplayIsVisible(u, argv); }
  }

  lemma {:induction false} RequotedPlain(s: string)
    requires '\'' !in s
    ensures Requoted(s) == s
  {
    if s != "" {
      assert s[0] in s;
      RequotedPlain(s[1..]);
    }
  }

  lemma {:induction false} AnsiTextPlain(u: Tables, s: string)
    requires forall i :: 0 <= i < |s| ==> !Escaped(u, s[i])
    ensures AnsiText(u, s) == s
  {
    if s != "" {
      AnsiCharIs(u, s[0]);
      AnsiTextPlain(u, s[1..]);
    }
  }

  lemma {:induction false} AnsiTextConcat(u: Tables, s: string, t: string)
    ensures AnsiText(u, s + t) == AnsiText(u, s) + AnsiText(u, t)
  {
    if s == "" {
      assert s + t == t;
    } else {
      assert (s + t)[1..] == s[1..] + t;
      AnsiTextConcat(u, s[1..], t);
      Bash.Associate(AnsiChar(u, s[0]), AnsiText(u, s[1..]), AnsiText(u, t));
    }
  }

  /** Quoting is no heavier than it must be: which of the three forms an argument takes, and what is left as it is. */
  lemma QuoteForms(u: Tables, arg: string, command: bool)
    ensures Quote(u, arg, command) == arg <==> ShownBare(u, arg, command)
    ensures "$'" <= Quote(u, arg, command) <==> AnyHidden(u, arg)
    ensures !AnyHidden(u, arg) && !ShownBare(u, arg, command) && '\'' !in arg ==> Quote(u, arg, command) == "'" + arg + "'"
  {
    if !AnyHidden(u, arg) && '\'' !in arg { RequotedPlain(arg); }
    LongerText(u, arg);
    var q := Quote(u, arg, command);
    if AnyHidden(u, arg) {
      assert q == "$'" + (AnsiText(u, arg) + "'");
    } else {
      assert ShownBare(u, arg, command) ==> BareChar(arg[0]);
      assert q[0] != '$';
    }
  }

  lemma {:induction false} LongerText(u: Tables, s: string)
    ensures |Requoted(s)| >= |s| && |AnsiText(u, s)| >= |s|
  {
    if s != "" {
      LongerText(u, s[1..]);
      AnsiCharIs(u, s[0]);
    }
  }

  // ---------- The printer ----------

  /** What the loop writes for one rune. */
  method ShellChar(u: Tables, c: char) returns (r: string)
    ensures r == AnsiChar(u, c)
  {
    match c {
      case '\n' => r := "\\n";
      case '\r' => r := "\\r";
      case '\t' => r := "\\t";
      case '\\' => r := "\\\\";
      case '\'' => r := "\\'";
      case _ =>
        if Hidden(u, c) {
          if c < 128 as char {
            r := "\\x" + HexText(c as int, 2);
          } else {
            r := "\\U" + HexText(c as int, 8);
          }
        } else {
          r := [c];
        }
    }
  }

  lemma AnsiTextSnoc(u: Tables, s: string, c: char)
    ensures AnsiText(u, s + [c]) == AnsiText(u, s) + AnsiChar(u, c)
  {
    AnsiTextConcat(u, s, [c]);
    assert [c][1..] == "";
    assert AnsiText(u, [c]) == AnsiChar(u, c) + "";
  }

  method AnsiQuote(u: Tables, arg: string) returns (r: string)
    ensures r == "$'" + AnsiText(u, arg) + "'"
  {
    var body := "";
    var i := 0;
    while i < |arg|
      invariant 0 <= i <= |arg|
      invariant body == AnsiText(u, arg[..i])
    {
      var shown := ShellChar(u, arg[i]);
      AnsiTextSnoc(u, arg[..i], arg[i]);
      assert arg[..i + 1] == arg[..i] + [arg[i]];
      body := body + shown;
      i := i + 1;
    }
    assert arg[..i] == arg;
    r := "$'" + body + "'";
  }

  method ShellQuote(u: Tables, arg: string, command: bool) returns (r: string)
    ensures r == Quote(u, arg, command)
    ensures PlainAscii(u) ==> Visible(u, r)
  {
    QuoteIsVisible(u, arg, command);
    if exists i :: 0 <= i < |arg| && Hidden(u, arg[i]) {
      r := AnsiQuote(u, arg);
      return;
    }
    var reserved := u.keyword(arg);
    if BareWord(arg) && !(command && ('=' in arg || reserved)) {
      return arg;
    }
    r := "'" + Requoted(arg) + "'";
  }

  method DisplayCommand(format: char -> bool, argv: seq<string>) returns (line: string)
    ensures line == Display(Tables(format, Reserved), argv)
    ensures argv != [] && (forall i :: 0 <= i < |argv| ==> NulFree(argv[i])) ==> Bash.Command(line) == Some(argv)
    ensures PlainAscii(Tables(format, Reserved)) ==> Visible(Tables(format, Reserved), line)
  {
    var u := Tables(format, Reserved);
    var parts := new string[|argv|](_ => "");
    var i := 0;
    while i < |argv|
      invariant 0 <= i <= |argv|
      invariant forall k :: 0 <= k < i ==> parts[k] == Quote(u, argv[k], k == 0)
    {
      parts[i] := ShellQuote(u, argv[i], i == 0);
      i := i + 1;
    }
    assert parts[..] == Quoted(u, argv, true);
    line := Joined(parts[..]);
    if argv != [] && (forall i :: 0 <= i < |argv| ==> NulFree(argv[i])) {
      DisplayReadsBack(format, argv);
    }
    LineIsVisible(u, argv);
  }
}
