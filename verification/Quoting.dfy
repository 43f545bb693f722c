/**
 * systemd words. The writer quotes and escapes; the reader is the quoting grammar of
 * systemd.syntax(7) and the `%%` rule of systemd.unit(5).
 */
module Quoting {
  import opened Wrappers
  import opened Slugs
  import opened Specs

  // ---- writing -----------------------------------------------------------------------------

  /** Every occurrence of `c` becomes `text`. */
  function Replace(s: string, c: char, text: string): string {
    if s == "" then "" else (if s[0] == c then text else [s[0]]) + Replace(s[1..], c, text)
  }

  function EscapePercent(s: string): string {
    Replace(s, '%', "%%")
  }

  predicate NeedsQuoting(word: string) {
    word == "" || exists i | 0 <= i < |word| ::
        IsWhitespace(word[i]) || word[i] == '"' || word[i] == '\'' || word[i] == '\\'
  }

  function EscapeQuoted(word: string): string {
    Replace(Replace(word, '\\', "\\\\"), '"', "\\\"")
  }

  function QuoteWord(word: string): string {
    if NeedsQuoting(word) then "\"" + EscapeQuoted(word) + "\"" else word
  }

  /** One `Exec=` value: the words, quoted, with single spaces between them. */
  function JoinWords(words: seq<string>): string {
    if words == [] then ""
    else if |words| == 1 then words[0]
    else words[0] + " " + JoinWords(words[1..])
  }

  function QuoteAll(argv: seq<string>): (words: seq<string>)
    ensures |words| == |argv|
    ensures forall i | 0 <= i < |argv| :: words[i] == QuoteWord(EscapePercent(argv[i]))
  {
    seq(|argv|, i requires 0 <= i < |argv| => QuoteWord(EscapePercent(argv[i])))
  }

  function ExecValue(argv: seq<string>): string {
    JoinWords(QuoteAll(argv))
  }

  // ---- reading -----------------------------------------------------------------------------

  predicate IsSystemdSpace(c: char) {
    c == ' ' || c == '\t' || c == '\n' || c == '\r'
  }

  /** The one-letter C escapes. */
  function Unescape(c: char): Option<char> {
    match c
    case 'a' => Some('\U{0007}')
    case 'b' => Some('\U{0008}')
    case 'f' => Some('\U{000C}')
    case 'n' => Some('\n')
    case 'r' => Some('\r')
    case 't' => Some('\t')
    case 'v' => Some('\U{000B}')
    case 's' => Some(' ')
    case '\\' => Some('\\')
    case '"' => Some('"')
    case '\'' => Some('\'')
    case _ => None
  }

  /** Between words, inside a word, or inside a quoted part of a word. */
  datatype Lexer = Between | Bare(word: string) | Quoted(word: string, quote: char)

  function Prepend(word: string, rest: Option<seq<string>>): Option<seq<string>> {
    if rest.Some? then Some([word] + rest.value) else None
  }

  /** The words of `s`; none when a quote is left open or an escape is unknown. */
  function Lex(s: string, state: Lexer): Option<seq<string>>
    decreases |s|, if state.Between? then 1 else 0
  {
    if s == "" then
      match state
      case Between => Some([])
      case Bare(word) => Some([word])
      case Quoted(_, _) => None
    else if state.Between? then
      if IsSystemdSpace(s[0]) then Lex(s[1..], Between) else Lex(s, Bare(""))
    else if s[0] == '\\' then
      if |s| == 1 || Unescape(s[1]).None? then None
      else Lex(s[2..], state.(word := state.word + [Unescape(s[1]).value]))
    else
      match state
      case Bare(word) =>
        if IsSystemdSpace(s[0]) then Prepend(word, Lex(s[1..], Between))
        else if s[0] == '"' || s[0] == '\'' then Lex(s[1..], Quoted(word, s[0]))
        else Lex(s[1..], Bare(word + [s[0]]))
      case Quoted(word, quote) =>
        if s[0] == quote then Lex(s[1..], Bare(word))
        else Lex(s[1..], Quoted(word + [s[0]], quote))
  }

  /** `%%` stands for one percent sign; any other `%` is a specifier, not literal text. */
  function Collapse(s: string): Option<string> {
    if s == "" then Some("")
    else if s[0] != '%' then
      var rest := Collapse(s[1..]);
      if rest.Some? then Some([s[0]] + rest.value) else None
    else if |s| >= 2 && s[1] == '%' then
      var rest := Collapse(s[2..]);
      if rest.Some? then Some("%" + rest.value) else None
    else None
  }

  function CollapseAll(words: seq<string>): Option<seq<string>> {
    if words == [] then Some([])
    else
      var first, rest := Collapse(words[0]), CollapseAll(words[1..]);
      if first.Some? && rest.Some? then Some([first.value] + rest.value) else None
  }

  /** An `Exec=` value read back as an argument vector. */
  function ReadExec(value: string): Option<seq<string>> {
    var words := Lex(value, Between);
    if words.Some? then CollapseAll(words.value) else None
  }

  // ---- the reader inverts the writer -------------------------------------------------------

  lemma {:induction false} CollapseInvertsEscape(s: string)
    ensures Collapse(EscapePercent(s)) == Some(s)
  {
    if s != "" {
      CollapseInvertsEscape(s[1..]);
      var escaped := EscapePercent(s);
      if s[0] == '%' {
        assert escaped[2..] == EscapePercent(s[1..]);
      } else {
        assert escaped[1..] == EscapePercent(s[1..]);
      }
      assert s == [s[0]] + s[1..];
    }
  }

  /** Escaping works one character at a time. */
  lemma {:induction false} EscapeQuotedCons(c: char, s: string)
    ensures EscapeQuoted([c] + s) == (if c == '\\' then "\\\\" else if c == '"' then "\\\"" else [c]) + EscapeQuoted(s)
  {
    assert ([c] + s)[1..] == s;
    var inner := Replace(s, '\\', "\\\\");
    if c == '\\' {
      var t := "\\\\" + inner;
      var u := t[1..];
      assert u == "\\" + inner && u[1..] == inner;
      var tail := Replace(inner, '"', "\\\"");
      assert Replace(u, '"', "\\\"") == "\\" + tail;
      assert Replace(t, '"', "\\\"") == "\\" + ("\\" + tail) == "\\\\" + tail;
    } else {
      assert ([c] + inner)[1..] == inner;
    }
  }

  /** Inside double quotes, the escaped text adds exactly the original characters. */
  lemma {:induction false} LexEscaped(text: string, rest: string, word: string)
    ensures Lex(EscapeQuoted(text) + rest, Quoted(word, '"')) == Lex(rest, Quoted(word + text, '"'))
    decreases |text|
  {
    if text == "" {
      assert EscapeQuoted(text) + rest == rest && word + text == word;
    } else {
      var c, tail := text[0], text[1..];
      assert text == [c] + tail;
      EscapeQuotedCons(c, tail);
      var s := EscapeQuoted(text) + rest;
      LexEscaped(tail, rest, word + [c]);
      assert word + [c] + tail == word + text;
      if c == '\\' || c == '"' {
        assert s[0] == '\\' && s[1] == c && s[2..] == EscapeQuoted(tail) + rest;
      } else {
        assert s[0] == c && s[1..] == EscapeQuoted(tail) + rest;
      }
    }
  }

  lemma {:induction false} LexBare(text: string, rest: string, word: string)
    requires forall i | 0 <= i < |text| :: !IsWhitespace(text[i])
              && text[i] != '"' && text[i] != '\'' && text[i] != '\\'
    ensures Lex(text + rest, Bare(word)) == Lex(rest, Bare(word + text))
    decreases |text|
  {
    if text == "" {
      assert text + rest == rest && word + text == word;
    } else {
      assert (text + rest)[1..] == text[1..] + rest;
      LexBare(text[1..], rest, word + [text[0]]);
      assert word + [text[0]] + text[1..] == word + text;
    }
  }

  /** A written word is read as that word, whatever follows it. */
  lemma LexWord(word: string, rest: string)
    ensures Lex(QuoteWord(word) + rest, Between) == Lex(rest, Bare(word))
  {
    hide EscapeQuoted;
    if NeedsQuoting(word) {
      var body := EscapeQuoted(word);
      var s := QuoteWord(word) + rest;
      assert s[1..] == body + ("\"" + rest);
      LexEscaped(word, "\"" + rest, "");
      assert "" + word == word;
      assert ("\"" + rest)[1..] == rest;
    } else {
      LexBare(word, rest, "");
      assert "" + word == word;
      assert (word + rest)[0] == word[0];
    }
  }

  lemma {:induction false} LexWords(words: seq<string>, quoted: seq<string>)
    requires |quoted| == |words| && forall i | 0 <= i < |words| :: quoted[i] == QuoteWord(words[i])
    ensures Lex(JoinWords(quoted), Between) == Some(words)
  {
    if words == [] {
    } else if |words| == 1 {
      LexWord(words[0], "");
      assert QuoteWord(words[0]) + "" == QuoteWord(words[0]);
      assert words == [words[0]];
    } else {
      var tail := JoinWords(quoted[1..]);
      LexWord(words[0], " " + tail);
      assert quoted[0] + " " + tail == QuoteWord(words[0]) + (" " + tail);
      assert (" " + tail)[1..] == tail;
      LexWords(words[1..], quoted[1..]);
      assert [words[0]] + words[1..] == words;
    }
  }

  function EscapeAll(argv: seq<string>): (words: seq<string>)
    ensures |words| == |argv|
    ensures forall i | 0 <= i < |argv| :: words[i] == EscapePercent(argv[i])
  {
    seq(|argv|, i requires 0 <= i < |argv| => EscapePercent(argv[i]))
  }

  lemma {:induction false} CollapseInvertsEscapeAll(argv: seq<string>)
    ensures CollapseAll(EscapeAll(argv)) == Some(argv)
  {
    if argv != [] {
      assert EscapeAll(argv)[1..] == EscapeAll(argv[1..]);
      CollapseInvertsEscape(argv[0]);
      CollapseInvertsEscapeAll(argv[1..]);
      assert [argv[0]] + argv[1..] == argv;
    }
  }

  /** An `Exec=` line carries exactly the argument vector it was written from. */
  lemma ExecRoundTrip(argv: seq<string>)
    ensures ReadExec(ExecValue(argv)) == Some(argv)
  {
    LexWords(EscapeAll(argv), QuoteAll(argv));
    CollapseInvertsEscapeAll(argv);
  }


  /** An `Environment=` line is one word: the assignment it was written from. */
  lemma EnvironmentRoundTrip(assignment: string)
    ensures ReadExec(QuoteWord(EscapePercent(assignment))) == Some([assignment])
  {
    ExecRoundTrip([assignment]);
    assert QuoteAll([assignment]) == [QuoteWord(EscapePercent(assignment))];
  }

  // ---- writing adds no line break ----------------------------------------------------------

  lemma {:induction false} ReplaceSingleLine(s: string, c: char, text: string)
    requires SingleLine(s) && SingleLine(text)
    ensures SingleLine(Replace(s, c, text))
  {
    if s != "" {
      ReplaceSingleLine(s[1..], c, text);
    }
  }

  lemma QuoteSingleLine(s: string)
    requires SingleLine(s)
    ensures SingleLine(EscapePercent(s)) && SingleLine(QuoteWord(EscapePercent(s)))
  {
    ReplaceSingleLine(s, '%', "%%");
    var e := EscapePercent(s);
    ReplaceSingleLine(e, '\\', "\\\\");
    ReplaceSingleLine(Replace(e, '\\', "\\\\"), '"', "\\\"");
  }

  lemma {:induction false} JoinSingleLine(words: seq<string>)
    requires AllSingleLine(words)
    ensures SingleLine(JoinWords(words))
  {
    if |words| > 1 {
      JoinSingleLine(words[1..]);
    }
  }

  lemma ExecSingleLine(argv: seq<string>)
    requires AllSingleLine(argv)
    ensures SingleLine(ExecValue(argv))
  {
    forall i | 0 <= i < |argv| ensures SingleLine(QuoteAll(argv)[i]) {
      QuoteSingleLine(argv[i]);
    }
    JoinSingleLine(QuoteAll(argv));
  }
}
