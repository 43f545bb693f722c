/**
 * The slug of a name: the identity every file, unit, container and image of an app is derived from.
 * The specification splits the name into words and joins them with dashes; the program is the
 * single pass over the characters.
 */
module Slugs {

  predicate IsAsciiAlphanumeric(c: char) {
    'a' <= c <= 'z' || 'A' <= c <= 'Z' || '0' <= c <= '9'
  }

  function ToAsciiLowercase(c: char): char {
    if 'A' <= c <= 'Z' then ((c as int) + 32) as char else c
  }

  predicate IsSeparator(c: char) {
    c == ' ' || c == '-' || c == '_'
  }

  /** The Unicode White_Space property, which is what `trim` removes. */
  predicate IsWhitespace(c: char) {
    || '\U{0009}' <= c <= '\U{000D}'
    || c == ' '
    || c == '\U{0085}'
    || c == '\U{00A0}'
    || c == '\U{1680}'
    || '\U{2000}' <= c <= '\U{200A}'
    || c == '\U{2028}'
    || c == '\U{2029}'
    || c == '\U{202F}'
    || c == '\U{205F}'
    || c == '\U{3000}'
  }

  function TrimStart(s: string): string {
    if s != "" && IsWhitespace(s[0]) then TrimStart(s[1..]) else s
  }

  function TrimEnd(s: string): string {
    if s != "" && IsWhitespace(s[|s| - 1]) then TrimEnd(s[..|s| - 1]) else s
  }

  function Trim(s: string): string {
    TrimEnd(TrimStart(s))
  }

  /** The words of `s`, with `current` being the word under construction. */
  function Split(s: string, current: string): seq<string> {
    if s == "" then
      if current == "" then [] else [current]
    else if IsAsciiAlphanumeric(s[0]) then
      Split(s[1..], current + [ToAsciiLowercase(s[0])])
    else if IsSeparator(s[0]) && current != "" then
      [current] + Split(s[1..], "")
    else
      Split(s[1..], current)
  }

  function Join(words: seq<string>): string {
    if words == [] then ""
    else if |words| == 1 then words[0]
    else words[0] + "-" + Join(words[1..])
  }

  function Slug(name: string): string {
    Join(Split(name, ""))
  }

  /** A lowercase letter or a digit. */
  predicate IsSlugLetter(c: char) {
    'a' <= c <= 'z' || '0' <= c <= '9'
  }

  predicate IsWord(w: string) {
    w != "" && forall i | 0 <= i < |w| :: IsSlugLetter(w[i])
  }

  predicate AreWords(words: seq<string>) {
    forall i | 0 <= i < |words| :: IsWord(words[i])
  }

  /** What a slug looks like: letters, digits and single dashes, no dash at either end. */
  predicate WellFormed(s: string) {
    && (forall i | 0 <= i < |s| :: IsSlugLetter(s[i]) || s[i] == '-')
    && (s != "" ==> s[0] != '-' && s[|s| - 1] != '-')
    && (forall i | 0 <= i < |s| - 1 :: !(s[i] == '-' && s[i + 1] == '-'))
  }

  lemma {:induction false} SplitYieldsWords(s: string, current: string)
    requires forall i | 0 <= i < |current| :: IsSlugLetter(current[i])
    ensures AreWords(Split(s, current))
    decreases |s|
  {
    if s == "" {
    } else if IsAsciiAlphanumeric(s[0]) {
      SplitYieldsWords(s[1..], current + [ToAsciiLowercase(s[0])]);
    } else if IsSeparator(s[0]) && current != "" {
      SplitYieldsWords(s[1..], "");
    } else {
      SplitYieldsWords(s[1..], current);
    }
  }

  lemma {:induction false} JoinIsWellFormed(words: seq<string>)
    requires AreWords(words)
    ensures WellFormed(Join(words))
    ensures words != [] ==> Join(words) != ""
  {
    if |words| > 1 {
      var w, rest := words[0], Join(words[1..]);
      JoinIsWellFormed(words[1..]);
      var s := w + "-" + rest;
      forall i | 0 <= i < |s| ensures IsSlugLetter(s[i]) || s[i] == '-' {
        if i > |w| { assert s[i] == rest[i - |w| - 1]; }
      }
      forall i | 0 <= i < |s| - 1 ensures !(s[i] == '-' && s[i + 1] == '-') {
        if i > |w| {
          assert s[i] == rest[i - |w| - 1] && s[i + 1] == rest[i - |w|];
        }
      }
      assert s[|s| - 1] == rest[|rest| - 1];
    } else if |words| == 1 {
      assert IsWord(words[0]);
    }
  }

  /** Every slug is well formed. */
  lemma SlugIsWellFormed(name: string)
    ensures WellFormed(Slug(name))
  {
    SplitYieldsWords(name, "");
    JoinIsWellFormed(Split(name, ""));
  }

  /** Scanning a word's letters only extends the word under construction. */
  lemma {:induction false} SplitWord(w: string, rest: string, current: string)
    requires forall i | 0 <= i < |w| :: IsSlugLetter(w[i])
    ensures Split(w + rest, current) == Split(rest, current + w)
    decreases |w|
  {
    if w == "" {
      assert w + rest == rest && current + w == current;
    } else {
      assert (w + rest)[1..] == w[1..] + rest;
      SplitWord(w[1..], rest, current + [w[0]]);
      assert current + [w[0]] + w[1..] == current + w;
    }
  }

  /** Joining words and splitting again loses nothing. */
  lemma {:induction false} SplitInvertsJoin(words: seq<string>)
    requires AreWords(words)
    ensures Split(Join(words), "") == words
  {
    if words == [] {
    } else {
      var w := words[0];
      assert IsWord(w);
      assert "" + w == w;
      if |words| == 1 {
        SplitWord(w, "", "");
        assert w + "" == w;
      } else {
        var rest := Join(words[1..]);
        assert w + "-" + rest == w + ("-" + rest);
        SplitWord(w, "-" + rest, "");
        assert ("-" + rest)[1..] == rest;
        SplitInvertsJoin(words[1..]);
      }
    }
  }

  /** A slug is its own slug. */
  lemma SlugIsIdempotent(name: string)
    ensures Slug(Slug(name)) == Slug(name)
  {
    SplitYieldsWords(name, "");
    SplitInvertsJoin(Split(name, ""));
  }

  lemma {:induction false} JoinAppend(words: seq<string>, w: string)
    ensures Join(words + [w]) == if words == [] then w else Join(words) + "-" + w
  {
    if words == [] {
      assert words + [w] == [w];
    } else {
      assert (words + [w])[1..] == words[1..] + [w];
      JoinAppend(words[1..], w);
      if |words| > 1 {
        assert words[0] + "-" + (Join(words[1..]) + "-" + w) == words[0] + "-" + Join(words[1..]) + "-" + w;
      }
    }
  }

  lemma {:induction false} SplitSkipsTrailing(s: string, c: char, current: string)
    requires !IsAsciiAlphanumeric(c)
    ensures Split(s + [c], current) == Split(s, current)
    decreases |s|
  {
    if s == "" {
      assert s + [c] == [c];
      assert [c][1..] == "";
    } else {
      assert (s + [c])[1..] == s[1..] + [c];
      if IsAsciiAlphanumeric(s[0]) {
        SplitSkipsTrailing(s[1..], c, current + [ToAsciiLowercase(s[0])]);
      } else if IsSeparator(s[0]) && current != "" {
        SplitSkipsTrailing(s[1..], c, "");
      } else {
        SplitSkipsTrailing(s[1..], c, current);
      }
    }
  }

  /** Trimming first changes no slug. */
  lemma {:induction false} SlugIgnoresSurroundingSpace(name: string)
    ensures Slug(Trim(name)) == Slug(name)
  {
    TrimStartKeepsWords(name);
    TrimEndKeepsWords(TrimStart(name));
  }

  lemma {:induction false} TrimStartKeepsWords(s: string)
    ensures Split(TrimStart(s), "") == Split(s, "")
    decreases |s|
  {
    if s != "" && IsWhitespace(s[0]) {
      TrimStartKeepsWords(s[1..]);
    }
  }

  lemma {:induction false} TrimEndKeepsWords(s: string)
    ensures Split(TrimEnd(s), "") == Split(s, "")
    decreases |s|
  {
    if s != "" && IsWhitespace(s[|s| - 1]) {
      var front := s[..|s| - 1];
      assert s == front + [s[|s| - 1]];
      SplitSkipsTrailing(front, s[|s| - 1], "");
      TrimEndKeepsWords(front);
    }
  }

  predicate IsBlank(s: string) {
    forall i | 0 <= i < |s| :: IsWhitespace(s[i])
  }

  lemma {:induction false} TrimStartFinds(s: string)
    ensures TrimStart(s) != "" <==> !IsBlank(s)
    ensures TrimStart(s) != "" ==> !IsWhitespace(TrimStart(s)[0])
  {
    if s != "" && IsWhitespace(s[0]) {
      TrimStartFinds(s[1..]);
      assert forall i | 0 < i < |s| :: s[i] == s[1..][i - 1];
    }
  }

  lemma {:induction false} TrimEndStops(s: string)
    requires s != "" && !IsWhitespace(s[0])
    ensures TrimEnd(s) != ""
  {
    if IsWhitespace(s[|s| - 1]) {
      TrimEndStops(s[..|s| - 1]);
    }
  }

  /** Trimming leaves something exactly of what is not all white space. */
  lemma TrimIsBlank(s: string)
    ensures Trim(s) == "" <==> IsBlank(s)
  {
    TrimStartFinds(s);
    if TrimStart(s) != "" {
      TrimEndStops(TrimStart(s));
    }
  }

  /** What the pass has written after the words `words` and the letters `current`. */
  function Written(words: seq<string>, current: string): string {
    if words == [] then current else Join(words) + "-" + current
  }

  /** Closing a word writes exactly one dash. */
  lemma CloseWord(words: seq<string>, current: string)
    ensures Written(words + [current], "") == Written(words, current) + "-"
  {
    JoinAppend(words, current);
    assert Join(words + [current]) + "-" + "" == Join(words + [current]) + "-";
  }

  lemma WriteLetter(words: seq<string>, current: string, c: char)
    ensures Written(words, current + [c]) == Written(words, current) + [c]
  {
  }

  /** Popping the trailing dashes of what was written leaves the joined words. */
  lemma PopTrailing(words: seq<string>, current: string)
    requires AreWords(words) && (current != "" ==> IsWord(current))
    ensures var target := Join(words + Split("", current));
            && WellFormed(target)
            && (Written(words, current) == target || Written(words, current) == target + "-")
  {
    if current == "" {
      assert words + [] == words;
      JoinIsWellFormed(words);
      assert Join(words) + "-" + "" == Join(words) + "-";
    } else {
      assert AreWords(words + [current]);
      JoinAppend(words, current);
      JoinIsWellFormed(words + [current]);
    }
  }

  /** Pop trailing dashes. */
  method PopDashes(text: string, ghost slug: string) returns (out: string)
    requires WellFormed(slug) && (text == slug || text == slug + "-")
    ensures out == slug
  {
    out := text;
    while out != "" && out[|out| - 1] == '-'
      decreases |out|
      invariant out == slug || out == slug + "-"
    {
      out := out[..|out| - 1];
    }
  }

  /** One pass over the trimmed name, collapsing separators as it goes. */
  method ComputeSlug(name: string) returns (out: string)
    ensures out == Slug(name)
  {
    hide Trim;
    hide WellFormed;
    hide IsWhitespace;
    var trimmed := Trim(name);
    SlugIgnoresSurroundingSpace(name);
    out := "";
    var lastDash := false;
    ghost var words: seq<string>, current := [], "";
    for i := 0 to |trimmed|
      invariant AreWords(words) && (current != "" ==> IsWord(current))
      invariant words + Split(trimmed[i..], current) == Split(trimmed, "")
      invariant out == Written(words, current)
      invariant lastDash <==> words != [] && current == ""
    {
      var ch := trimmed[i];
      assert trimmed[i..][1..] == trimmed[i + 1..];
      if IsAsciiAlphanumeric(ch) {
        WriteLetter(words, current, ToAsciiLowercase(ch));
        current := current + [ToAsciiLowercase(ch)];
        out := out + [ToAsciiLowercase(ch)];
        lastDash := false;
      } else if IsSeparator(ch) && !lastDash && out != "" {
        CloseWord(words, current);
        assert words + ([current] + Split(trimmed[i + 1..], "")) == words + [current] + Split(trimmed[i + 1..], "");
        words, current := words + [current], "";
        out := out + "-";
        lastDash := true;
      }
    }
    assert trimmed[|trimmed|..] == "";
    PopTrailing(words, current);
    out := PopDashes(out, Slug(name));
  }

  // ---- what a name's characters do to its slug ---------------------------------------------

  /** Two slugs one after the other. */
  function Glue(a: string, b: string): string {
    if a == "" then b else if b == "" then a else a + "-" + b
  }

  lemma {:induction false} JoinConcat(a: seq<string>, b: seq<string>)
    requires AreWords(a) && AreWords(b)
    ensures Join(a + b) == Glue(Join(a), Join(b))
  {
    JoinIsWellFormed(b);
    if a == [] {
      assert a + b == b;
    } else {
      var w, rest := a[0], a[1..];
      assert IsWord(w) && (a + b)[1..] == rest + b;
      JoinConcat(rest, b);
      JoinIsWellFormed(rest);
      hide IsWord;
      hide AreWords;
      hide WellFormed;
      assert w + "-" + (Join(rest) + "-" + Join(b)) == w + "-" + Join(rest) + "-" + Join(b);
    }
  }

  lemma {:induction false} SplitAtSeparator(a: string, c: char, b: string, current: string)
    requires IsSeparator(c)
    ensures Split(a + [c] + b, current) == Split(a, current) + Split(b, "")
    decreases |a|
  {
    var s := a + [c] + b;
    if a == "" {
      assert s[1..] == b;
    } else {
      assert s[1..] == a[1..] + [c] + b;
      if IsAsciiAlphanumeric(a[0]) {
        SplitAtSeparator(a[1..], c, b, current + [ToAsciiLowercase(a[0])]);
      } else if IsSeparator(a[0]) && current != "" {
        SplitAtSeparator(a[1..], c, b, "");
      } else {
        SplitAtSeparator(a[1..], c, b, current);
      }
    }
  }

  /** A space, a dash or an underscore anywhere in a name parts its slug in two. */
  lemma SeparatorParts(a: string, c: char, b: string)
    requires c == ' ' || c == '-' || c == '_'
    ensures Slug(a + [c] + b) == Glue(Slug(a), Slug(b))
  {
    SplitAtSeparator(a, c, b, "");
    SplitYieldsWords(a, "");
    SplitYieldsWords(b, "");
    JoinConcat(Split(a, ""), Split(b, ""));
  }

  lemma {:induction false} SplitDrops(a: string, c: char, b: string, current: string)
    requires !IsAsciiAlphanumeric(c) && !IsSeparator(c)
    ensures Split(a + [c] + b, current) == Split(a + b, current)
    decreases |a|
  {
    var s := a + [c] + b;
    if a == "" {
      assert s[1..] == b && a + b == b;
    } else {
      assert s[1..] == a[1..] + [c] + b && (a + b)[1..] == a[1..] + b;
      if IsAsciiAlphanumeric(a[0]) {
        SplitDrops(a[1..], c, b, current + [ToAsciiLowercase(a[0])]);
      } else if IsSeparator(a[0]) && current != "" {
        SplitDrops(a[1..], c, b, "");
      } else {
        SplitDrops(a[1..], c, b, current);
      }
    }
  }

  /** Any other character that is no ASCII letter or digit leaves no trace. */
  lemma OthersVanish(a: string, c: char, b: string)
    requires c != ' ' && c != '-' && c != '_'
    requires !('a' <= c <= 'z' || 'A' <= c <= 'Z' || '0' <= c <= '9')
    ensures Slug(a + [c] + b) == Slug(a + b)
  {
    SplitDrops(a, c, b, "");
  }

  const UPPER: string := "ABCDEFGHIJKLMNOPQRSTUVWXYZ"
  const LOWER: string := "abcdefghijklmnopqrstuvwxyz"

  /** A letter of one alphabet, or the letter in its place in the other, or a digit. */
  predicate SameLetter(c: char, d: char) {
    if 'A' <= c <= 'Z' then d == LOWER[c as int - 'A' as int] else d == c
  }

  lemma LowercaseIsSameLetter(c: char)
    ensures SameLetter(c, ToAsciiLowercase(c))
    ensures 'A' <= c <= 'Z' ==> UPPER[c as int - 'A' as int] == c
  {
  }

  /** Letters and digits stay, one for one and in lower case. */
  lemma {:induction false} LettersStay(w: string, current: string)
    requires forall i | 0 <= i < |w| :: 'a' <= w[i] <= 'z' || 'A' <= w[i] <= 'Z' || '0' <= w[i] <= '9'
    ensures w + current != "" ==> |Split(w, current)| == 1
    ensures w + current != "" ==> |Split(w, current)[0]| == |current| + |w| && current <= Split(w, current)[0]
    ensures w + current != "" ==> forall i | 0 <= i < |w| :: SameLetter(w[i], Split(w, current)[0][|current| + i])
    decreases |w|
  {
    if w != "" {
      LowercaseIsSameLetter(w[0]);
      LettersStay(w[1..], current + [ToAsciiLowercase(w[0])]);
      assert forall i | 0 < i < |w| :: w[i] == w[1..][i - 1];
    }
  }

  /** The slug of one word is that word in lower case. */
  lemma SlugOfWord(w: string)
    requires forall i | 0 <= i < |w| :: 'a' <= w[i] <= 'z' || 'A' <= w[i] <= 'Z' || '0' <= w[i] <= '9'
    ensures |Slug(w)| == |w| && forall i | 0 <= i < |w| :: SameLetter(w[i], Slug(w)[i])
  {
    LettersStay(w, "");
  }

  lemma SlugOfLetter()
    ensures Slug("a") == "a" && Slug("A") == "a"
  {
    assert "a"[1..] == "" && "A"[1..] == "";
    assert Split("", "a") == ["a"];
    assert [] + ['a'] == "a";
    assert Split("a", "") == ["a"] && Split("A", "") == ["a"];
  }
}
