/**
 * Line-oriented unit text: how a list of lines is written, and an independent reader that splits
 * text at line breaks and takes each physical line apart.
 */
module UnitText {
  import opened Specs

  datatype Line =
    | Comment(text: string)
    | Header(section: string)
    | Directive(key: string, value: string)
    | Blank
    | Junk(text: string)

  // ---- writing -----------------------------------------------------------------------------

  function Show(line: Line): string {
    match line
    case Comment(text) => "#" + text
    case Header(section) => "[" + section + "]"
    case Directive(key, value) => key + "=" + value
    case Blank => ""
    case Junk(text) => text
  }

  function Write(doc: seq<Line>): string {
    if doc == [] then "" else Show(doc[0]) + "\n" + Write(doc[1..])
  }

  lemma {:induction false} WriteAppend(a: seq<Line>, b: seq<Line>)
    ensures Write(a + b) == Write(a) + Write(b)
  {
    if a == [] {
      assert a + b == b;
    } else {
      assert (a + b)[1..] == a[1..] + b;
      WriteAppend(a[1..], b);
    }
  }

  lemma WritePush(doc: seq<Line>, line: Line)
    ensures Write(doc + [line]) == Write(doc) + (Show(line) + "\n")
  {
    WriteAppend(doc, [line]);
    assert [line][1..] == [];
    assert Write([line]) == Show(line) + "\n" + "";
  }

  // ---- reading -----------------------------------------------------------------------------

  predicate IsLineBreak(c: char) {
    c == '\n' || c == '\r'
  }

  /** The physical lines of `text`, `current` being the line under construction. */
  function PhysicalLines(text: string, current: string): seq<string> {
    if text == "" then
      if current == "" then [] else [current]
    else if IsLineBreak(text[0]) then
      [current] + PhysicalLines(text[1..], "")
    else
      PhysicalLines(text[1..], current + [text[0]])
  }

  /** Index of the first `=`, or the length. */
  function FirstEquals(s: string): (i: nat)
    ensures i <= |s|
    ensures i < |s| ==> s[i] == '='
    ensures forall k | 0 <= k < i :: s[k] != '='
  {
    if s == "" || s[0] == '=' then 0 else 1 + FirstEquals(s[1..])
  }

  function ReadLine(s: string): Line {
    if s == "" then Blank
    else if s[0] == '#' || s[0] == ';' then Comment(s[1..])
    else if s[0] == '[' && |s| >= 2 && s[|s| - 1] == ']' then Header(s[1..|s| - 1])
    else
      var eq := FirstEquals(s);
      if eq == |s| then Junk(s) else Directive(s[..eq], s[eq + 1..])
  }

  function ReadLines(lines: seq<string>): (doc: seq<Line>)
    ensures |doc| == |lines|
    ensures forall i | 0 <= i < |doc| :: doc[i] == ReadLine(lines[i])
  {
    seq(|lines|, i requires 0 <= i < |lines| => ReadLine(lines[i]))
  }

  function Read(text: string): seq<Line> {
    ReadLines(PhysicalLines(text, ""))
  }

  /** A directive name: letters only. */
  predicate IsKey(key: string) {
    key != "" && forall i | 0 <= i < |key| :: 'a' <= key[i] <= 'z' || 'A' <= key[i] <= 'Z'
  }

  /** A line that fits on one physical line and says what it is. */
  predicate Writable(line: Line) {
    match line
    case Comment(text) => SingleLine(text)
    case Header(section) => SingleLine(section)
    case Directive(key, value) => IsKey(key) && SingleLine(value)
    case Blank => true
    case Junk(_) => false
  }

  predicate AllWritable(doc: seq<Line>) {
    forall i | 0 <= i < |doc| :: Writable(doc[i])
  }

  lemma ReadInvertsShow(line: Line)
    requires Writable(line)
    ensures ReadLine(Show(line)) == line
    ensures SingleLine(Show(line))
  {
    match line {
      case Comment(text) => assert Show(line)[1..] == text;
      case Header(section) => assert Show(line)[1..|Show(line)| - 1] == section;
      case Directive(key, value) =>
        var s := Show(line);
        assert s[|key|] == '=' && s[0] == key[0];
        assert forall k | 0 <= k < |key| :: s[k] == key[k];
        assert FirstEquals(s) == |key|;
        assert s[..|key|] == key && s[|key| + 1..] == value;
      case Blank =>
    }
  }

  lemma {:induction false} PhysicalLine(s: string, rest: string, current: string)
    requires SingleLine(s)
    ensures PhysicalLines(s + "\n" + rest, current) == [current + s] + PhysicalLines(rest, "")
    decreases |s|
  {
    var text := s + "\n" + rest;
    if s == "" {
      assert text[1..] == rest && current + s == current;
    } else {
      assert text[1..] == s[1..] + "\n" + rest;
      PhysicalLine(s[1..], rest, current + [s[0]]);
      assert current + [s[0]] + s[1..] == current + s;
    }
  }

  /** Reading back what was written gives the same lines: no value can add one. */
  lemma {:induction false} ReadInvertsWrite(doc: seq<Line>)
    requires AllWritable(doc)
    ensures Read(Write(doc)) == doc
  {
    if doc != [] {
      var s := Show(doc[0]);
      ReadInvertsShow(doc[0]);
      PhysicalLine(s, Write(doc[1..]), "");
      assert "" + s == s;
      ReadInvertsWrite(doc[1..]);
      assert PhysicalLines(Write(doc), "")[1..] == PhysicalLines(Write(doc[1..]), "");
    }
  }

  // ---- looking values up -------------------------------------------------------------------

  /** The values of `key` in `section`, in order; `current` is the section the text is in. */
  function Values(doc: seq<Line>, current: string, section: string, key: string): seq<string> {
    if doc == [] then []
    else
      match doc[0]
      case Header(s) => Values(doc[1..], s, section, key)
      case Directive(k, v) =>
        (if current == section && k == key then [v] else []) + Values(doc[1..], current, section, key)
      case _ => Values(doc[1..], current, section, key)
  }

  function LastSection(doc: seq<Line>, current: string): string {
    if doc == [] then current
    else LastSection(doc[1..], if doc[0].Header? then doc[0].section else current)
  }

  lemma {:induction false} ValuesAppend(a: seq<Line>, b: seq<Line>, current: string, section: string, key: string)
    ensures Values(a + b, current, section, key)
         == Values(a, current, section, key) + Values(b, LastSection(a, current), section, key)
    ensures LastSection(a + b, current) == LastSection(b, LastSection(a, current))
    decreases |a|
  {
    if a == [] {
      assert a + b == b;
    } else {
      assert (a + b)[1..] == a[1..] + b;
      ValuesAppend(a[1..], b, if a[0].Header? then a[0].section else current, section, key);
    }
  }

  /** All values of one key, one directive each. */
  datatype Group = Group(key: string, values: seq<string>)

  function Directives(key: string, values: seq<string>): (doc: seq<Line>)
    ensures |doc| == |values|
    ensures forall i | 0 <= i < |doc| :: doc[i] == Directive(key, values[i])
  {
    seq(|values|, i requires 0 <= i < |values| => Directive(key, values[i]))
  }

  function Flatten(groups: seq<Group>): seq<Line> {
    if groups == [] then [] else Directives(groups[0].key, groups[0].values) + Flatten(groups[1..])
  }

  function Section(name: string, groups: seq<Group>): seq<Line> {
    [Header(name)] + Flatten(groups)
  }

  function Pick(groups: seq<Group>, key: string): seq<string> {
    if groups == [] then []
    else (if groups[0].key == key then groups[0].values else []) + Pick(groups[1..], key)
  }

  lemma {:induction false} DirectiveValues(key0: string, values: seq<string>, current: string, section: string,
      key: string)
    ensures Values(Directives(key0, values), current, section, key)
         == if current == section && key0 == key then values else []
    ensures LastSection(Directives(key0, values), current) == current
    decreases |values|
  {
    if values != [] {
      assert Directives(key0, values)[1..] == Directives(key0, values[1..]);
      DirectiveValues(key0, values[1..], current, section, key);
    }
  }

  lemma {:induction false} FlattenValues(groups: seq<Group>, current: string, section: string, key: string)
    ensures Values(Flatten(groups), current, section, key) == if current == section then Pick(groups, key) else []
    ensures LastSection(Flatten(groups), current) == current
    decreases |groups|
  {
    if groups != [] {
      var d := Directives(groups[0].key, groups[0].values);
      ValuesAppend(d, Flatten(groups[1..]), current, section, key);
      DirectiveValues(groups[0].key, groups[0].values, current, section, key);
      FlattenValues(groups[1..], current, section, key);
    }
  }

  /** Named sections, laid out with a blank line between them. */
  datatype Part = Part(name: string, groups: seq<Group>)

  function Layout(parts: seq<Part>): seq<Line> {
    if parts == [] then []
    else if |parts| == 1 then Section(parts[0].name, parts[0].groups)
    else Section(parts[0].name, parts[0].groups) + [Blank] + Layout(parts[1..])
  }

  lemma SectionValues(name: string, groups: seq<Group>, current: string, section: string, key: string)
    ensures Values(Section(name, groups), current, section, key) == if name == section then Pick(groups, key) else []
    ensures LastSection(Section(name, groups), current) == name
  {
    var doc := Section(name, groups);
    assert doc[1..] == Flatten(groups);
    FlattenValues(groups, name, section, key);
  }

  lemma BlankValues(current: string, section: string, key: string)
    ensures Values([Blank], current, section, key) == [] && LastSection([Blank], current) == current
  {
    assert [Blank][1..] == [];
  }

  function PickPart(parts: seq<Part>, section: string, key: string): seq<string> {
    if parts == [] then []
    else (if parts[0].name == section then Pick(parts[0].groups, key) else []) + PickPart(parts[1..], section, key)
  }

  lemma LayoutStep(parts: seq<Part>)
    requires parts != []
    ensures Layout(parts) == if |parts| == 1 then Section(parts[0].name, parts[0].groups)
              else Section(parts[0].name, parts[0].groups) + [Blank] + Layout(parts[1..])
  {
  }

  lemma PickPartStep(parts: seq<Part>, section: string, key: string)
    requires parts != []
    ensures PickPart(parts, section, key) == (if parts[0].name == section then Pick(parts[0].groups, key) else []) +
              PickPart(parts[1..], section, key)
    ensures |parts| == 1 ==> PickPart(parts[1..], section, key) == []
  {
  }

  lemma NothingLaidOut(current: string, section: string, key: string)
    ensures Values(Layout([]), current, section, key) == PickPart([], section, key)
  {
  }

  /** The values a section contributes come from its own part alone. */
  lemma {:induction false} LayoutValues(parts: seq<Part>, current: string, section: string, key: string)
    ensures Values(Layout(parts), current, section, key) == PickPart(parts, section, key)
    decreases |parts|
  {
    hide *;
    if parts == [] {
      NothingLaidOut(current, section, key);
    } else {
      var name, rest := parts[0].name, parts[1..];
      var d := Section(name, parts[0].groups);
      LayoutStep(parts);
      PickPartStep(parts, section, key);
      SectionValues(name, parts[0].groups, current, section, key);
      if |parts| > 1 {
        BlankValues(name, section, key);
        ValuesAppend(d + [Blank], Layout(rest), current, section, key);
        ValuesAppend(d, [Blank], current, section, key);
        LayoutValues(rest, name, section, key);
      }
    }
  }

  predicate DistinctParts(parts: seq<Part>) {
    && (forall i, j | 0 <= i < j < |parts| :: parts[i].name != parts[j].name)
    && (forall i | 0 <= i < |parts| :: DistinctKeys(parts[i].groups))
  }

  /** With distinct section names and keys, a lookup finds one group. */
  lemma {:induction false} PickPartUnique(parts: seq<Part>, i: nat, key: string)
    requires i < |parts| && DistinctParts(parts)
    ensures PickPart(parts, parts[i].name, key) == Pick(parts[i].groups, key)
  {
    if i == 0 {
      PickPartAbsent(parts[1..], parts[0].name, key);
    } else {
      assert parts[0].name != parts[i].name;
      PickPartUnique(parts[1..], i - 1, key);
    }
  }

  lemma {:induction false} PickPartAbsent(parts: seq<Part>, section: string, key: string)
    requires forall i | 0 <= i < |parts| :: parts[i].name != section
    ensures PickPart(parts, section, key) == []
  {
    if parts != [] {
      PickPartAbsent(parts[1..], section, key);
    }
  }

  lemma Lookup(parts: seq<Part>, i: nat, j: nat)
    requires i < |parts| && DistinctParts(parts) && j < |parts[i].groups|
    ensures Values(Layout(parts), "", parts[i].name, parts[i].groups[j].key) == parts[i].groups[j].values
  {
    LayoutValues(parts, "", parts[i].name, parts[i].groups[j].key);
    PickPartUnique(parts, i, parts[i].groups[j].key);
    PickUnique(parts[i].groups, j);
  }

  predicate DistinctKeys(groups: seq<Group>) {
    forall i, j | 0 <= i < j < |groups| :: groups[i].key != groups[j].key
  }

  lemma {:induction false} PickUnique(groups: seq<Group>, i: nat)
    requires i < |groups| && DistinctKeys(groups)
    ensures Pick(groups, groups[i].key) == groups[i].values
  {
    if i == 0 {
      PickAbsent(groups[1..], groups[0].key);
    } else {
      assert groups[0].key != groups[i].key;
      PickUnique(groups[1..], i - 1);
    }
  }

  lemma {:induction false} PickAbsent(groups: seq<Group>, key: string)
    requires forall i | 0 <= i < |groups| :: groups[i].key != key
    ensures Pick(groups, key) == []
  {
    if groups != [] {
      PickAbsent(groups[1..], key);
    }
  }

  predicate WritableGroup(g: Group) {
    && IsKey(g.key)
    && AllSingleLine(g.values)
  }

  lemma {:induction false} FlattenWritable(groups: seq<Group>)
    requires forall i | 0 <= i < |groups| :: WritableGroup(groups[i])
    ensures AllWritable(Flatten(groups))
  {
    if groups != [] {
      FlattenWritable(groups[1..]);
      assert WritableGroup(groups[0]);
    }
  }

  predicate WritablePart(p: Part) {
    && SingleLine(p.name)
    && forall i | 0 <= i < |p.groups| :: WritableGroup(p.groups[i])
  }

  lemma {:induction false} LayoutWritable(parts: seq<Part>)
    requires forall i | 0 <= i < |parts| :: WritablePart(parts[i])
    ensures AllWritable(Layout(parts))
  {
    if parts != [] {
      assert WritablePart(parts[0]);
      FlattenWritable(parts[0].groups);
      LayoutWritable(parts[1..]);
    }
  }

  // ---- pushing lines -----------------------------------------------------------------------

  lemma {:induction false} FlattenPush(groups: seq<Group>, g: Group)
    ensures Flatten(groups + [g]) == Flatten(groups) + Directives(g.key, g.values)
  {
    if groups == [] {
      assert [g][1..] == [];
      assert Flatten([g]) == Directives(g.key, g.values) + [];
    } else {
      assert (groups + [g])[1..] == groups[1..] + [g];
      FlattenPush(groups[1..], g);
    }
  }

  /** `out.push_str` of one line and its line break. */
  method Push(out: string, ghost doc: seq<Line>, line: Line) returns (text: string, ghost lines: seq<Line>)
    requires out == Write(doc)
    ensures lines == doc + [line]
    ensures text == Write(lines)
  {
    WritePush(doc, line);
    lines := doc + [line];
    text := out + Show(line) + "\n";
  }

  /** The loop that pushes one directive per value. */
  method PushAll(out: string, ghost doc: seq<Line>, key: string, values: seq<string>)
    returns (text: string, ghost lines: seq<Line>)
    requires out == Write(doc)
    ensures lines == doc + Directives(key, values)
    ensures text == Write(lines)
  {
    text, lines := out, doc;
    for i := 0 to |values|
      invariant lines == doc + Directives(key, values[..i])
      invariant text == Write(lines)
    {
      assert Directives(key, values[..i + 1]) == Directives(key, values[..i]) + [Directive(key, values[i])];
      text, lines := Push(text, lines, Directive(key, values[i]));
    }
    assert values[..|values|] == values;
  }

  /** Pushes group `k` of the section that `base` has opened. */
  method PushGroup(out: string, ghost base: seq<Line>, ghost groups: seq<Group>, ghost k: nat, key: string,
      values: seq<string>)
    returns (text: string)
    requires k < |groups| && groups[k] == Group(key, values)
    requires out == Write(base + Flatten(groups[..k]))
    ensures text == Write(base + Flatten(groups[..k + 1]))
  {
    ghost var lines;
    text, lines := PushAll(out, base + Flatten(groups[..k]), key, values);
    assert groups[..k + 1] == groups[..k] + [groups[k]];
    FlattenPush(groups[..k], groups[k]);
    assert lines == base + Flatten(groups[..k + 1]);
  }

  lemma LayoutOne(p: Part)
    ensures Layout([p]) == Section(p.name, p.groups) && Layout([]) == []
  {
  }

  lemma {:induction false} LayoutPush(parts: seq<Part>, p: Part)
    ensures Layout(parts + [p]) == Layout(parts) + (if parts == [] then [] else [Blank]) + Section(p.name, p.groups)
  {
    hide *;
    LayoutOne(p);
    if parts == [] {
      assert parts + [p] == [p];
    } else {
      var rest := parts[1..];
      assert (parts + [p])[1..] == rest + [p];
      LayoutStep(parts + [p]);
      LayoutStep(parts);
      LayoutPush(rest, p);
      if |parts| == 1 {
        assert rest == [];
      }
    }
  }

  /** Opens the first section, right after the top line. */
  method OpenFirst(top: Line, name: string) returns (text: string, ghost base: seq<Line>)
    ensures base == [top] + [Header(name)]
    ensures text == Write(base)
  {
    text, base := Push("", [], top);
    text, base := Push(text, base, Header(name));
  }

  /** The finished parts, and part `k` written up to its last group. */
  ghost predicate Finished(text: string, top: Line, parts: seq<Part>, k: nat)
    requires 0 < k <= |parts|
  {
    text == Write([top] + Layout(parts[..k]))
  }

  /** Ends a section with a blank line and opens part `k`. */
  method OpenNext(out: string, top: Line, ghost parts: seq<Part>, ghost k: nat, name: string)
    returns (text: string, ghost base: seq<Line>)
    requires 0 < k < |parts| && parts[k].name == name && Finished(out, top, parts, k)
    ensures base == [top] + Layout(parts[..k]) + [Blank] + [Header(name)]
    ensures text == Write(base)
  {
    text, base := Push(out, [top] + Layout(parts[..k]), Blank);
    text, base := Push(text, base, Header(name));
  }

  lemma AllFinished(text: string, top: Line, parts: seq<Part>)
    requires |parts| > 0 && Finished(text, top, parts, |parts|)
    ensures text == Write([top] + Layout(parts))
  {
    assert parts[..|parts|] == parts;
  }

  lemma CloseFirst(text: string, top: Line, parts: seq<Part>)
    requires |parts| > 0
    requires text == Write([top] + [Header(parts[0].name)] + Flatten(parts[0].groups))
    ensures Finished(text, top, parts, 1)
  {
    assert parts[..1] == [parts[0]];
    assert [top] + [Header(parts[0].name)] + Flatten(parts[0].groups) == [top] + Layout(parts[..1]);
  }

  lemma Reassociate(a: seq<Line>, b: seq<Line>, c: seq<Line>, d: seq<Line>, e: seq<Line>)
    ensures a + b + c + d + e == a + (b + c + (d + e))
  {
  }

  lemma CloseNext(text: string, top: Line, parts: seq<Part>, k: nat)
    requires 0 < k < |parts|
    requires text == Write([top] + Layout(parts[..k]) + [Blank] + [Header(parts[k].name)] + Flatten(parts[k].groups))
    ensures Finished(text, top, parts, k + 1)
  {
    assert parts[..k + 1] == parts[..k] + [parts[k]];
    LayoutPush(parts[..k], parts[k]);
    Reassociate([top], Layout(parts[..k]), [Blank], [Header(parts[k].name)], Flatten(parts[k].groups));
  }

  lemma Nothing(base: seq<Line>, groups: seq<Group>)
    ensures base + Flatten(groups[..0]) == base
    ensures groups[..|groups|] == groups
  {
  }
}
