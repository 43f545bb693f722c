/**
 * The curl config document of the outbound webhook, read back by the rules of curl's manual for
 * `--config`.
 */
module Webhook {
  import opened Wrappers

  // ---- writing -----------------------------------------------------------------------------

  /** A control character curl has no escape for. */
  predicate Unsupported(c: char) {
    (c as int < 0x20 && c != '\t' && c != '\n' && c != '\r' && c != '\U{000B}') || c as int == 0x7f
  }

  function EscapeChar(c: char): string {
    match c
    case '\\' => "\\\\"
    case '"' => "\\\""
    case '\t' => "\\t"
    case '\n' => "\\n"
    case '\r' => "\\r"
    case '\U{000B}' => "\\v"
    case _ => if Unsupported(c) then " " else [c]
  }

  function EscapeValue(value: string): string {
    if value == "" then "" else EscapeChar(value[0]) + EscapeValue(value[1..])
  }

  lemma {:induction false} EscapeValuePush(value: string, c: char)
    ensures EscapeValue(value + [c]) == EscapeValue(value) + EscapeChar(c)
  {
    if value == "" {
      assert value + [c] == [c];
      assert [c][1..] == "";
    } else {
      assert (value + [c])[1..] == value[1..] + [c];
      EscapeValuePush(value[1..], c);
    }
  }

  method EscapeConfigValue(value: string) returns (out: string)
    ensures out == EscapeValue(value)
  {
    out := "";
    for i := 0 to |value|
      invariant out == EscapeValue(value[..i])
    {
      assert value[..i + 1] == value[..i] + [value[i]];
      EscapeValuePush(value[..i], value[i]);
      out := out + EscapeChar(value[i]);
    }
    assert value[..|value|] == value;
  }

  function Directive(name: string, quoted: string): string {
    name + " = \"" + quoted + "\""
  }

  const CONTENT_TYPE: string := "Content-Type: application/json"

  function Config(url: string, header: string, body: string): string {
    Directive("url", EscapeValue(url)) + "\n" + Directive("header", header) + "\n" +
        Directive("data-raw", EscapeValue(body)) + "\n"
  }

  function CurlConfig(url: string, body: string): string {
    Config(url, CONTENT_TYPE, body)
  }

  // ---- reading -----------------------------------------------------------------------------

  /** The lines of a config file. */
  function Lines(text: string, current: string): seq<string> {
    if text == "" then (if current == "" then [] else [current])
    else if text[0] == '\n' then [current] + Lines(text[1..], "")
    else Lines(text[1..], current + [text[0]])
  }

  predicate IsSeparator(c: char) {
    c == ' ' || c == '\t' || c == '=' || c == ':'
  }

  /** The option name: everything up to a space, a colon or an equals sign. */
  function NameLength(line: string): (n: nat)
    ensures n <= |line|
  {
    if line == "" || IsSeparator(line[0]) then 0 else 1 + NameLength(line[1..])
  }

  function SkipSeparators(line: string): string {
    if line != "" && IsSeparator(line[0]) then SkipSeparators(line[1..]) else line
  }

  /** Up to the closing quote: six escapes, and a backslash before any other character is dropped. */
  function Unquote(s: string): Option<string> {
    if s == "" then None
    else if s[0] == '"' then Some("")
    else if s[0] == '\\' then
      if |s| == 1 then None
      else Cons(UnescapeChar(s[1]), Unquote(s[2..]))
    else Cons(s[0], Unquote(s[1..]))
  }

  function UnescapeChar(c: char): char {
    match c
    case 't' => '\t'
    case 'n' => '\n'
    case 'r' => '\r'
    case 'v' => '\U{000B}'
    case _ => c
  }

  function Cons(c: char, rest: Option<string>): Option<string> {
    if rest.Some? then Some([c] + rest.value) else None
  }

  /** One quoted directive. */
  function ReadDirective(line: string): Option<(string, string)> {
    var n := NameLength(line);
    var rest := SkipSeparators(line[n..]);
    if rest == "" || rest[0] != '"' then None
    else
      var value := Unquote(rest[1..]);
      if value.Some? then Some((line[..n], value.value)) else None
  }

  function ReadDirectives(lines: seq<string>): Option<seq<(string, string)>> {
    if lines == [] then Some([])
    else
      var first, rest := ReadDirective(lines[0]), ReadDirectives(lines[1..]);
      if first.Some? && rest.Some? then Some([first.value] + rest.value) else None
  }

  function ReadConfig(text: string): Option<seq<(string, string)>> {
    ReadDirectives(Lines(text, ""))
  }

  // ---- the reader inverts the writer -------------------------------------------------------

  /** The value curl ends up with: unsupported control characters have become spaces. */
  function Clean(value: string): (r: string)
    ensures |r| == |value|
    ensures forall i | 0 <= i < |value| :: r[i] == CleanChar(value[i])
  {
    if value == "" then "" else [CleanChar(value[0])] + Clean(value[1..])
  }

  /** An ASCII control character. */
  predicate IsControl(c: char) {
    c <= '\U{001F}' || c == '\U{007F}'
  }

  /** A value arrives exactly if and only if its control characters are all among the four curl can spell. */
  lemma CleanIsExact(value: string)
    ensures Clean(value) == value <==>
              forall i | 0 <= i < |value| && IsControl(value[i]) :: value[i] in {'\t', '\n', '\r', '\U{000B}'}
  {
    assert forall c :: IsControl(c) && c !in {'\t', '\n', '\r', '\U{000B}'} <==> Unsupported(c);
    if Clean(value) == value {
      forall i | 0 <= i < |value| ensures !Unsupported(value[i]) {
        assert value[i] == CleanChar(value[i]);
      }
    }
  }

  predicate OnOneLine(s: string) {
    forall i | 0 <= i < |s| :: s[i] != '\n'
  }

  lemma {:induction false} EscapedStaysOnLine(value: string)
    ensures OnOneLine(EscapeValue(value))
  {
    if value != "" {
      EscapedStaysOnLine(value[1..]);
      assert OnOneLine(EscapeChar(value[0]));
    }
  }

  function CleanChar(c: char): char {
    if Unsupported(c) then ' ' else c
  }

  /** Nothing that is written is a control character. */
  lemma {:induction false} NoControlIsWritten(value: string)
    ensures forall i | 0 <= i < |EscapeValue(value)| :: !IsControl(EscapeValue(value)[i])
  {
    if value != "" {
      NoControlIsWritten(value[1..]);
      var first := EscapeChar(value[0]);
      assert forall i | 0 <= i < |first| :: !IsControl(first[i]);
    }
  }

  /** One escaped character unquotes to the character it stands for. */
  lemma UnquoteChar(c: char, tail: string)
    ensures Unquote(EscapeChar(c) + tail) == Cons(CleanChar(c), Unquote(tail))
  {
    var s := EscapeChar(c) + tail;
    if |EscapeChar(c)| == 2 {
      assert s[2..] == tail && s[0] == '\\';
    } else {
      assert s[1..] == tail;
    }
  }

  lemma {:induction false} UnquoteInvertsEscape(value: string, rest: string)
    ensures Unquote(EscapeValue(value) + "\"" + rest) == Some(Clean(value))
  {
    if value == "" {
      assert EscapeValue(value) + "\"" + rest == "\"" + rest;
    } else {
      hide EscapeChar;
      hide Unquote;
      UnquoteInvertsEscape(value[1..], rest);
      var tail := EscapeValue(value[1..]) + "\"" + rest;
      UnquoteChar(value[0], tail);
      assert EscapeValue(value) + "\"" + rest == EscapeChar(value[0]) + tail;
    }
  }

  lemma {:induction false} NameIsRead(name: string, rest: string)
    requires forall i | 0 <= i < |name| :: !IsSeparator(name[i])
    requires rest != "" && IsSeparator(rest[0])
    ensures NameLength(name + rest) == |name|
  {
    if name == "" {
      assert name + rest == rest;
    } else {
      assert (name + rest)[1..] == name[1..] + rest;
      NameIsRead(name[1..], rest);
    }
  }

  lemma SkipsToQuote(tail: string)
    ensures SkipSeparators(" = " + ("\"" + tail)) == "\"" + tail
  {
    var quoted := "\"" + tail;
    assert (" = " + quoted)[1..] == "= " + quoted;
    assert ("= " + quoted)[1..] == " " + quoted;
    assert (" " + quoted)[1..] == quoted;
    assert SkipSeparators(quoted) == quoted;
    assert SkipSeparators(" " + quoted) == quoted;
    assert SkipSeparators("= " + quoted) == quoted;
  }

  /** A directive whose quoted text unquotes to `value` is read as that name and value. */
  lemma DirectiveReads(name: string, quoted: string, value: string)
    requires forall i | 0 <= i < |name| :: !IsSeparator(name[i])
    requires Unquote(quoted + "\"") == Some(value)
    ensures ReadDirective(Directive(name, quoted)) == Some((name, value))
  {
    hide NameLength;
    hide SkipSeparators;
    hide Unquote;
    var line, tail := Directive(name, quoted), quoted + "\"";
    var rest := " = " + ("\"" + tail);
    assert line == name + rest;
    NameIsRead(name, rest);
    assert line[|name|..] == rest && line[..|name|] == name;
    SkipsToQuote(tail);
    assert ("\"" + tail)[1..] == tail;
  }

  lemma {:induction false} LineIsRead(line: string, rest: string, current: string)
    requires OnOneLine(line)
    ensures Lines(line + "\n" + rest, current) == [current + line] + Lines(rest, "")
    decreases |line|
  {
    var text := line + "\n" + rest;
    if line == "" {
      assert text == "\n" + rest && text[1..] == rest && current + line == current;
    } else {
      assert text[1..] == line[1..] + "\n" + rest;
      LineIsRead(line[1..], rest, current + [line[0]]);
      assert current + [line[0]] + line[1..] == current + line;
    }
  }

  lemma EscapedDirectiveReads(name: string, value: string)
    requires forall i | 0 <= i < |name| :: !IsSeparator(name[i])
    requires OnOneLine(name)
    ensures OnOneLine(Directive(name, EscapeValue(value)))
    ensures ReadDirective(Directive(name, EscapeValue(value))) == Some((name, Clean(value)))
  {
    EscapedStaysOnLine(value);
    UnquoteInvertsEscape(value, "");
    assert EscapeValue(value) + "\"" + "" == EscapeValue(value) + "\"";
    DirectiveReads(name, EscapeValue(value), Clean(value));
  }

  /** Text without quotes, backslashes or line breaks stands for itself. */
  predicate Plain(s: string) {
    forall i | 0 <= i < |s| :: s[i] != '"' && s[i] != '\\' && s[i] != '\n'
  }

  lemma {:induction false} PlainReads(s: string)
    requires Plain(s)
    ensures Unquote(s + "\"") == Some(s)
  {
    if s == "" {
      assert s + "\"" == "\"";
    } else {
      assert (s + "\"")[1..] == s[1..] + "\"";
      PlainReads(s[1..]);
      assert [s[0]] + s[1..] == s;
    }
  }

  lemma ReadOne(line: string, rest: seq<string>)
    requires ReadDirective(line).Some? && ReadDirectives(rest).Some?
    ensures ReadDirectives([line] + rest) == Some([ReadDirective(line).value] + ReadDirectives(rest).value)
  {
    assert ([line] + rest)[1..] == rest;
  }

  lemma ReadThree(a: string, b: string, c: string)
    requires ReadDirective(a).Some? && ReadDirective(b).Some? && ReadDirective(c).Some?
    ensures ReadDirectives([a, b, c]) == Some([ReadDirective(a).value, ReadDirective(b).value, ReadDirective(c).value])
  {
    hide ReadDirective;
    ReadOne(c, []);
    ReadOne(b, [c] + []);
    ReadOne(a, [b] + ([c] + []));
    var x, y, z := ReadDirective(a).value, ReadDirective(b).value, ReadDirective(c).value;
    assert ReadDirectives([]) == Some([]);
    assert [x] + ([y] + ([z] + [])) == [x, y, z] && [a] + ([b] + ([c] + [])) == [a, b, c];
  }

  lemma ReadLines(a: string, b: string, c: string)
    requires OnOneLine(a) && OnOneLine(b) && OnOneLine(c)
    ensures Lines(a + "\n" + b + "\n" + c + "\n", "") == [a, b, c]
  {
    hide OnOneLine;
    LineIsRead(a, b + "\n" + (c + "\n" + ""), "");
    LineIsRead(b, c + "\n" + "", "");
    LineIsRead(c, "", "");
    hide Lines;
    assert a + "\n" + b + "\n" + c + "\n" == a + "\n" + (b + "\n" + (c + "\n" + ""));
    NothingLeft();
  }

  lemma NothingLeft()
    ensures Lines("", "") == []
    ensures forall s: string :: "" + s == s
  {
  }

  lemma PlainDirectiveReads(name: string, value: string)
    requires forall i | 0 <= i < |name| :: !IsSeparator(name[i])
    requires OnOneLine(name) && Plain(value)
    ensures OnOneLine(Directive(name, value)) && ReadDirective(Directive(name, value)) == Some((name, value))
  {
    hide ReadDirective;
    PlainReads(value);
    DirectiveReads(name, value, value);
  }

  lemma ConfigReads(url: string, header: string, body: string)
    requires Plain(header)
    ensures ReadConfig(Config(url, header, body)) ==
              Some([("url", Clean(url)), ("header", header), ("data-raw", Clean(body))])
  {
    hide Directive;
    hide ReadDirective;
    hide ReadDirectives;
    hide Lines;
    hide EscapeValue;
    hide Clean;
    EscapedDirectiveReads("url", url);
    EscapedDirectiveReads("data-raw", body);
    PlainDirectiveReads("header", header);
    var a, b, c := Directive("url", EscapeValue(url)), Directive("header", header),
        Directive("data-raw", EscapeValue(body));
    ReadLines(a, b, c);
    ReadThree(a, b, c);
  }

  lemma ContentTypeIsPlain()
    ensures Plain(CONTENT_TYPE)
  {
  }

  /** Exactly three directives, whatever the url and the body: no value ends early or adds an option. */
  lemma ConfigRoundTrip(url: string, body: string)
    ensures ReadConfig(CurlConfig(url, body)) ==
              Some([("url", Clean(url)), ("header", "Content-Type: application/json"), ("data-raw", Clean(body))])
  {
    hide Plain;
    hide Config;
    hide ReadConfig;
    hide Clean;
    ContentTypeIsPlain();
    ConfigReads(url, CONTENT_TYPE, body);
  }

  /** The document as the program builds it. */
  method WriteConfig(url: string, body: string) returns (text: string)
    ensures text == CurlConfig(url, body)
    ensures ReadConfig(text) ==
              Some([("url", Clean(url)), ("header", "Content-Type: application/json"), ("data-raw", Clean(body))])
  {
    hide Clean;
    hide ReadConfig;
    var quotedUrl := EscapeConfigValue(url);
    var quotedBody := EscapeConfigValue(body);
    ConfigRoundTrip(url, body);
    text := Directive("url", quotedUrl) + "\n" + Directive("header", CONTENT_TYPE) + "\n" +
        Directive("data-raw", quotedBody) + "\n";
  }
}
