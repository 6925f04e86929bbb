// The worker writes a skill file for its capabilities and the loader reads it
// back. Strings are sequences of Unicode characters.
module SkillMarkdown {
  import opened Wrappers

  datatype Skill = Skill(
    skillRef: string,
    name: string,
    kind: string,
    description: string,
    capabilities: seq<string>,
    appliesTo: seq<string>,
    executorHint: string,
    approvalRequired: bool,
    body: string,
    sourcePath: string)

  datatype Verdict = Accepted(skill: Skill) | Rejected(reason: string)

  const SKILL_PREFIX := "tc://skill/"
  const GUIDANCE := "guidance"
  const EXECUTABLE := "executable"

  // Strings as the library handles them

  predicate IsSpace(c: char) {
    var n := c as int;
    9 <= n <= 13 || n == 0x20 || n == 0x85 || n == 0xA0 || n == 0x1680 || 0x2000 <= n <= 0x200A
    || n == 0x2028 || n == 0x2029 || n == 0x202F || n == 0x205F || n == 0x3000
  }

  predicate IsQuote(c: char) {
    c == '"' || c == '\''
  }

  function TrimLeft(cut: char -> bool, s: string): string {
    if s == "" || !cut(s[0]) then s else TrimLeft(cut, s[1..])
  }

  function TrimRight(cut: char -> bool, s: string): string {
    if s == "" || !cut(s[|s| - 1]) then s else TrimRight(cut, s[..|s| - 1])
  }

  function Trim(cut: char -> bool, s: string): string {
    TrimRight(cut, TrimLeft(cut, s))
  }

  function TrimSpace(s: string): string {
    Trim(IsSpace, s)
  }

  predicate HasPrefix(s: string, p: string) {
    p <= s
  }

  function TrimPrefix(s: string, p: string): string {
    if p <= s then s[|p|..] else s
  }

  function Unify(s: string): string {
    if |s| < 2 then s
    else if s[0] == '\r' && s[1] == '\n' then "\n" + Unify(s[2..])
    else [s[0]] + Unify(s[1..])
  }

  /** Where `mark` first occurs. */
  function Index(s: string, mark: string): (r: Option<nat>)
    ensures r.Some? ==> r.value + |mark| <= |s| && s[r.value..r.value + |mark|] == mark
  {
    if mark <= s then Some(0)
    else if s == "" then None
    else
      match Index(s[1..], mark)
      case None => None
      case Some(k) => assert s[k + 1..k + 1 + |mark|] == s[1..][k..k + |mark|]; Some(k + 1)
  }

  datatype Halves = Halves(before: string, after: string)

  /** Around the first colon. */
  function Cut(s: string): Option<Halves> {
    match Index(s, ":")
    case None => None
    case Some(k) => Some(Halves(s[..k], s[k + 1..]))
  }

  function Split(s: string, comma: char): seq<string> {
    match Index(s, [comma])
    case None => [s]
    case Some(k) => [s[..k]] + Split(s[k + 1..], comma)
  }

  function Utf8Length(s: string): nat {
    if s == "" then 0
    else
      var n := s[|s| - 1] as int;
      Utf8Length(s[..|s| - 1]) + if n < 0x80 then 1 else if n < 0x800 then 2 else if n < 0x10000 then 3 else 4
  }

  /** The scanner gives up on a longer line. */
  const LINE_LIMIT: nat := 65536

  predicate Fits(line: string) {
    Utf8Length(line) < LINE_LIMIT
  }

  function DropReturn(line: string): string {
    if line != "" && line[|line| - 1] == '\r' then line[..|line| - 1] else line
  }

  /** The lines that the scanner returns: none from the first too long one on. */
  function Lines(s: string): seq<string>
    decreases |s|
  {
    if s == "" then []
    else
      match Index(s, "\n")
      case None => if Fits(s) then [DropReturn(s)] else []
      case Some(k) => if Fits(s[..k]) then [DropReturn(s[..k])] + Lines(s[k + 1..]) else []
  }

  // The parser

  type FrontMatter = map<string, seq<string>>

  datatype Reading = Reading(key: string, values: FrontMatter)

  function Get(values: FrontMatter, key: string): seq<string> {
    if key in values then values[key] else []
  }

  function CleanScalar(value: string): string {
    TrimSpace(Trim(IsQuote, TrimSpace(value)))
  }

  function CleanParts(parts: seq<string>): seq<string> {
    if parts == [] then []
    else
      var item := CleanScalar(parts[|parts| - 1]);
      CleanParts(parts[..|parts| - 1]) + if item == "" then [] else [item]
  }

  function ParseValueList(value: string): seq<string> {
    var v := CleanScalar(value);
    if |v| >= 2 && v[0] == '[' && v[|v| - 1] == ']' then CleanParts(Split(v[1..|v| - 1], ',')) else [v]
  }

  function ReadLine(r: Reading, line: string): Reading {
    var trimmed := TrimSpace(line);
    if trimmed == "" || HasPrefix(trimmed, "#") then r
    else if HasPrefix(trimmed, "- ") && r.key != "" then
      r.(values := r.values[r.key := Get(r.values, r.key) + [CleanScalar(trimmed[2..])]])
    else
      match Cut(trimmed)
      case None => r
      case Some(Halves(before, after)) =>
        var key, value := TrimSpace(before), TrimSpace(after);
        Reading(key, r.values[key := if value == "" then [] else ParseValueList(value)])
  }

  function ReadLines(r: Reading, lines: seq<string>): Reading {
    if lines == [] then r else ReadLine(ReadLines(r, lines[..|lines| - 1]), lines[|lines| - 1])
  }

  method ParseFrontMatter(raw: string) returns (values: FrontMatter)
    ensures values == ReadLines(Reading("", map[]), Lines(raw)).values
  {
    values := map[];
    var lines, currentKey := Lines(raw), "";
    for i := 0 to |lines|
      invariant Reading(currentKey, values) == ReadLines(Reading("", map[]), lines[..i])
    {
      assert lines[..i + 1][..i] == lines[..i];
      var trimmed := TrimSpace(lines[i]);
      if trimmed == "" || HasPrefix(trimmed, "#") { continue; }
      if HasPrefix(trimmed, "- ") && currentKey != "" {
        values := values[currentKey := Get(values, currentKey) + [CleanScalar(trimmed[2..])]];
        continue;
      }
      match Cut(trimmed) {
        case None => continue;
        case Some(Halves(before, after)) =>
          currentKey := TrimSpace(before);
          var value := TrimSpace(after);
          values := values[currentKey := if value == "" then [] else ParseValueList(value)];
      }
    }
    assert lines[..|lines|] == lines;
  }

  datatype Parts = Parts(front: Option<string>, body: string)

  /** The text between the first two rulers, if there is one, and what follows. */
  function SplitFrontMatter(content: string): Parts {
    var normalized := Unify(content);
    if !HasPrefix(normalized, "---\n") then Parts(None, normalized)
    else
      var rest := normalized[4..];
      match Index(rest, "\n---")
      case None => Parts(None, normalized)
      case Some(k) => Parts(Some(rest[..k]), TrimPrefix(TrimPrefix(rest[k..], "\n---"), "\n"))
  }

  function Metadata(front: Option<string>): FrontMatter {
    if front.None? then map[] else ReadLines(Reading("", map[]), Lines(front.value)).values
  }

  function Scalar(values: FrontMatter, key: string): string {
    if Get(values, key) == [] then "" else values[key][0]
  }

  /** Blanks and later duplicates dropped. */
  function Distinct(values: seq<string>): seq<string> {
    if values == [] then []
    else
      var earlier, last := Distinct(values[..|values| - 1]), TrimSpace(values[|values| - 1]);
      if last == "" || last in earlier then earlier else earlier + [last]
  }

  method List(metadata: FrontMatter, key: string) returns (items: seq<string>)
    ensures items == Distinct(Get(metadata, key))
  {
    items := [];
    var values, seen := Get(metadata, key), {};
    for i := 0 to |values|
      invariant items == Distinct(values[..i])
      invariant seen == set x | x in items
    {
      assert values[..i + 1][..i] == values[..i];
      var value := TrimSpace(values[i]);
      if value == "" || value in seen { continue; }
      seen := seen + {value};
      items := items + [value];
    }
    assert values[..|values|] == values;
  }

  function Lower(c: char): char {
    if 'A' <= c <= 'Z' then c - 'A' + 'a' else c
  }

  function ToLower(s: string): string {
    seq(|s|, i requires 0 <= i < |s| => Lower(s[i]))
  }

  predicate IsTrue(value: string) {
    ToLower(value) in {"true", "yes", "y", "1"}
  }

  /** What a file's place says of its skill, used where its front matter is silent. */
  datatype Defaults = Defaults(name: string, skillRef: string)

  function Inferred(skill: Skill, defaults: Defaults): Skill {
    skill.(name := if skill.name == "" then defaults.name else skill.name,
           skillRef := if skill.skillRef == "" then defaults.skillRef else skill.skillRef,
           kind := if skill.kind == "" then GUIDANCE else skill.kind)
  }

  function Parsed(path: string, defaults: Defaults, content: string): Skill {
    var parts := SplitFrontMatter(content);
    var metadata := Metadata(parts.front);
    Inferred(Skill(Scalar(metadata, "skill_ref"), Scalar(metadata, "name"), Scalar(metadata, "kind"),
                   Scalar(metadata, "description"), Distinct(Get(metadata, "capabilities")),
                   Distinct(Get(metadata, "applies_to")), Scalar(metadata, "executor_hint"),
                   IsTrue(Scalar(metadata, "approval_required")), TrimSpace(parts.body), path), defaults)
  }

  method ParseMarkdown(path: string, defaults: Defaults, content: string) returns (skill: Skill)
    ensures skill == Parsed(path, defaults, content)
  {
    var parts := SplitFrontMatter(content);
    var metadata: FrontMatter := map[];
    if parts.front.Some? { metadata := ParseFrontMatter(parts.front.value); }
    var capabilities := List(metadata, "capabilities");
    var appliesTo := List(metadata, "applies_to");
    skill := Inferred(Skill(Scalar(metadata, "skill_ref"), Scalar(metadata, "name"), Scalar(metadata, "kind"),
                            Scalar(metadata, "description"), capabilities, appliesTo, Scalar(metadata, "executor_hint"),
                            IsTrue(Scalar(metadata, "approval_required")), TrimSpace(parts.body), path), defaults);
  }

  function Validate(skill: Skill): Verdict {
    if TrimSpace(skill.skillRef) == "" then Rejected("skill_ref is required")
    else if !HasPrefix(skill.skillRef, SKILL_PREFIX) then Rejected("skill_ref must start with tc://skill/")
    else if TrimSpace(skill.name) == "" then Rejected("skill name is required")
    else if skill.kind != GUIDANCE && skill.kind != EXECUTABLE then Rejected("skill kind must be guidance or executable")
    else if TrimSpace(skill.body) == "" then Rejected("skill body is required")
    else Accepted(skill.(body := TrimSpace(skill.body)))
  }

  // The printer

  const WORKER_REF := "tc://skill/local-ai-worker"
  const WORKER_NAME := "Local AI Worker"
  const WORKER_DESCRIPTION := "Execute touch-connect handoffs " + "through the selected local AI CLI."
  const WORKER_HINT := "ai-cli"

  // The body, a clause at a time

  function Title(): string {
    "\n# Local AI Worker\n\n"
  }

  function Role(): string {
    "You are a touch-connect worker. "
    + "Read the task body, "
    + "produce a concise readback, "
    + "do the requested work, "
    + "and finish with these exact markers:\n\n"
  }

  function Markers(): string {
    "- WORKER_READBACK\n"
    + "- WORKER_ACTION\n"
    + "- WORKER_RESULT_READY\n\n"
  }

  function Prompts(): string {
    "Do not wait for "
    + "interactive permission prompts. "
    + "Use the trusted local workspace policy "
    + "configured by the worker.\n"
  }

  function WorkerBody(): string {
    Title() + Role() + Markers() + Prompts()
  }

  function Field(key: string, value: string): string {
    key + ": " + value
  }

  function Head(): seq<string> {
    [Field("skill_ref", WORKER_REF), Field("name", WORKER_NAME), Field("kind", EXECUTABLE),
     Field("description", WORKER_DESCRIPTION), "capabilities" + ":"]
  }

  function Tail(): seq<string> {
    [Field("executor_hint", WORKER_HINT), Field("approval_required", "false")]
  }

  /** Each line ended by a newline. */
  function Unlines(lines: seq<string>): string {
    if lines == [] then "" else lines[0] + "\n" + Unlines(lines[1..])
  }

  function Item(name: string): string {
    "  - " + name
  }

  function Items(names: seq<string>): seq<string> {
    seq(|names|, i requires 0 <= i < |names| => Item(names[i]))
  }

  /** The names that get printed. */
  function Names(capabilities: seq<string>): seq<string> {
    if capabilities == [] then []
    else
      var name := TrimSpace(capabilities[|capabilities| - 1]);
      Names(capabilities[..|capabilities| - 1]) + if name == "" then [] else [name]
  }

  function Printed(capabilities: seq<string>): string {
    "---\n" + Unlines(Head() + Items(Names(capabilities)) + Tail()) + "---\n" + WorkerBody()
  }

  lemma {:induction false} UnlinesAppend(a: seq<string>, b: seq<string>)
    ensures Unlines(a + b) == Unlines(a) + Unlines(b)
  {
    if a == [] {
      assert a + b == b;
    } else {
      assert (a + b)[1..] == a[1..] + b;
      UnlinesAppend(a[1..], b);
    }
  }

  lemma PrintOneMore(capabilities: seq<string>, i: nat)
    requires i < |capabilities|
    ensures var name := TrimSpace(capabilities[i]);
            Unlines(Items(Names(capabilities[..i + 1])))
            == Unlines(Items(Names(capabilities[..i]))) + if name == "" then "" else Item(name) + "\n"
  {
    hide TrimSpace, Item;
    var name := TrimSpace(capabilities[i]);
    var names := Names(capabilities[..i]);
    assert capabilities[..i + 1][..i] == capabilities[..i];
    if name != "" {
      assert Items(names + [name]) == Items(names) + [Item(name)];
      UnlinesAppend(Items(names), [Item(name)]);
      OneLine(Item(name));
    } else {
      assert Names(capabilities[..i + 1]) == names;
      assert Unlines(Items(names)) + "" == Unlines(Items(names));
    }
  }

  lemma PrintedInParts(capabilities: seq<string>)
    ensures Printed(capabilities)
            == "---\n" + Unlines(Head()) + Unlines(Items(Names(capabilities))) + Unlines(Tail()) + "---\n" + WorkerBody()
  {
    hide Head, Tail, WorkerBody, Unlines, Items, Names;
    UnlinesAppend(Head(), Items(Names(capabilities)));
    UnlinesAppend(Head() + Items(Names(capabilities)), Tail());
  }

  method DefaultWorkerSkillMarkdown(capabilities: seq<string>) returns (content: string)
    ensures content == Printed(capabilities)
  {
    hide Head, Tail, WorkerBody, TrimSpace, Unlines, Printed;
    content := "---\n" + Unlines(Head());
    ghost var head := content;
    assert Unlines(Items(Names(capabilities[..0]))) == "" by { NothingPrinted(); }
    for i := 0 to |capabilities|
      invariant content == head + Unlines(Items(Names(capabilities[..i])))
    {
      PrintOneMore(capabilities, i);
      var capability := TrimSpace(capabilities[i]);
      if capability != "" { content := content + ("  - " + capability + "\n"); }
    }
    assert capabilities[..|capabilities|] == capabilities;
    PrintedInParts(capabilities);
    content := content + Unlines(Tail()) + "---\n" + WorkerBody();
  }

  lemma NothingPrinted()
    ensures Unlines(Items(Names([]))) == ""
  {
  }

  lemma OneLine(line: string)
    ensures Unlines([line]) == line + "\n"
  {
    assert Unlines([line][1..]) == "";
  }

  // Trimming

  predicate Tight(cut: char -> bool, s: string) {
    s != "" ==> !cut(s[0]) && !cut(s[|s| - 1])
  }

  lemma {:induction false} TrimLeftStops(cut: char -> bool, s: string)
    ensures TrimLeft(cut, s) != "" ==> !cut(TrimLeft(cut, s)[0])
  {
    if s != "" && cut(s[0]) { TrimLeftStops(cut, s[1..]); }
  }

  lemma {:induction false} TrimRightStops(cut: char -> bool, s: string)
    ensures TrimRight(cut, s) <= s
    ensures TrimRight(cut, s) != "" ==> !cut(TrimRight(cut, s)[|TrimRight(cut, s)| - 1])
  {
    if s != "" && cut(s[|s| - 1]) { TrimRightStops(cut, s[..|s| - 1]); }
  }

  /** A trimmed string has clean ends, and trimming it again changes nothing. */
  lemma TrimIsTight(cut: char -> bool, s: string)
    ensures Tight(cut, Trim(cut, s)) && Trim(cut, Trim(cut, s)) == Trim(cut, s)
  {
    TrimLeftStops(cut, s);
    TrimRightStops(cut, TrimLeft(cut, s));
  }

  lemma TightIsTrimmed(cut: char -> bool, s: string)
    requires Tight(cut, s)
    ensures Trim(cut, s) == s
  {
  }

  lemma {:induction false} TrimKeepsLeft(cut: char -> bool, s: string, c: char)
    requires c in s && !cut(c)
    ensures c in TrimLeft(cut, s)
  {
    if cut(s[0]) {
      assert s == [s[0]] + s[1..];
      TrimKeepsLeft(cut, s[1..], c);
    }
  }

  lemma {:induction false} TrimKeepsRight(cut: char -> bool, s: string, c: char)
    requires c in s && !cut(c)
    ensures c in TrimRight(cut, s)
  {
    if cut(s[|s| - 1]) {
      assert s == s[..|s| - 1] + [s[|s| - 1]];
      TrimKeepsRight(cut, s[..|s| - 1], c);
    }
  }

  // Finding

  lemma {:induction false} IndexOfChar(a: string, c: char, rest: string)
    requires c !in a
    ensures Index(a + [c] + rest, [c]) == Some(|a|)
  {
    var s := a + [c] + rest;
    if a == "" {
      assert [c] <= s;
    } else {
      assert s[1..] == a[1..] + [c] + rest && s[0] == a[0];
      IndexOfChar(a[1..], c, rest);
    }
  }

  lemma {:induction false} IndexOfNone(a: string, c: char)
    requires c !in a
    ensures Index(a, [c]) == None
  {
    if a != "" {
      assert a[0] in a;
      IndexOfNone(a[1..], c);
    } else {
      assert !([c] <= a);
    }
  }

  const RULER := "\n---"

  lemma IndexStep(s: string, mark: string)
    requires s != "" && !(mark <= s)
    ensures Index(s, mark) == match Index(s[1..], mark) case None => None case Some(k) => Some(k + 1)
  {
  }

  lemma RulerStarts(rest: string)
    ensures RULER <= "\n" + rest <==> "---" <= rest
  {
    var s := "\n" + rest;
    if RULER <= s { assert rest[..3] == s[1..4] == "---"; }
    if "---" <= rest { assert s[..4] == "\n" + rest[..3]; }
  }

  lemma RulerNeedsNewline(s: string)
    requires s != "" && s[0] != '\n'
    ensures !(RULER <= s)
  {
  }

  lemma {:induction false} RulerSkipsLine(line: string, rest: string)
    requires '\n' !in line
    ensures Index(line + "\n" + rest, RULER) ==
            if "---" <= rest then Some(|line|)
            else match Index(rest, RULER) case None => None case Some(k) => Some(|line| + 1 + k)
  {
    hide Index;
    var s := line + "\n" + rest;
    if line == "" {
      assert s == "\n" + rest && s[1..] == rest;
      RulerStarts(rest);
      if "---" <= rest { IndexAtOnce(s, RULER); } else { IndexStep(s, RULER); }
    } else {
      assert s[0] == line[0] && s[1..] == line[1..] + "\n" + rest;
      RulerNeedsNewline(s);
      IndexStep(s, RULER);
      RulerSkipsLine(line[1..], rest);
    }
  }

  lemma IndexAtOnce(s: string, mark: string)
    requires mark <= s
    ensures Index(s, mark) == Some(0)
  {
  }

  /**
   * A line that the printer writes: not blank, no newline inside, no carriage return at its end, no dash at its start.
   */
  predicate Plain(line: string) {
    line != "" && '\n' !in line && line[|line| - 1] != '\r' && line[0] != '-'
  }

  lemma NoRulerAhead(lines: seq<string>, rest: string)
    requires lines != [] && Plain(lines[0])
    ensures !("---" <= Unlines(lines) + rest)
  {
    assert (Unlines(lines) + rest)[0] == lines[0][0];
  }

  lemma UnlinesStep(lines: seq<string>, rest: string)
    requires lines != []
    ensures Unlines(lines) + rest == lines[0] + "\n" + (Unlines(lines[1..]) + rest)
  {
  }

  lemma {:induction false} RulerAfterLines(lines: seq<string>, rest: string)
    requires lines != [] && (forall i :: 0 <= i < |lines| ==> Plain(lines[i])) && "---" <= rest
    ensures Index(Unlines(lines) + rest, RULER) == Some(|Unlines(lines)| - 1)
  {
    hide Index, Plain;
    assert '\n' !in lines[0] by { PlainHasNoNewline(lines[0]); }
    var more := Unlines(lines[1..]) + rest;
    UnlinesStep(lines, rest);
    RulerSkipsLine(lines[0], more);
    if lines[1..] != [] {
      RulerAfterLines(lines[1..], rest);
      NoRulerAhead(lines[1..], rest);
    } else {
      assert more == rest;
    }
  }

  lemma PlainHasNoNewline(line: string)
    requires Plain(line)
    ensures '\n' !in line && line != "" && line[|line| - 1] != '\r'
  {
  }

  // Carriage returns

  lemma UnifyStep(s: string)
    requires s != "" && !(|s| >= 2 && s[0] == '\r' && s[1] == '\n')
    ensures Unify(s) == [s[0]] + Unify(s[1..])
  {
  }

  lemma {:induction false} UnifySkipsLine(line: string, rest: string)
    requires '\n' !in line && (line == "" || line[|line| - 1] != '\r')
    ensures Unify(line + "\n" + rest) == line + "\n" + Unify(rest)
  {
    hide Unify;
    var s := line + "\n" + rest;
    UnifyStep(s);
    if line == "" {
      assert s[1..] == rest;
    } else {
      assert s[0] == line[0] && s[1..] == line[1..] + "\n" + rest;
      UnifySkipsLine(line[1..], rest);
      assert [line[0]] + (line[1..] + "\n" + Unify(rest)) == line + "\n" + Unify(rest);
    }
  }

  lemma {:induction false} UnifySkipsLines(lines: seq<string>, rest: string)
    requires forall i :: 0 <= i < |lines| ==> Plain(lines[i])
    ensures Unify(Unlines(lines) + rest) == Unlines(lines) + Unify(rest)
  {
    hide Unify, Plain;
    if lines != [] {
      UnlinesStep(lines, rest);
      PlainHasNoNewline(lines[0]);
      UnifySkipsLine(lines[0], Unlines(lines[1..]) + rest);
      UnifySkipsLines(lines[1..], rest);
    } else {
      assert Unlines(lines) + rest == rest;
    }
  }

  lemma {:induction false} UnifyKeeps(s: string)
    requires '\r' !in s
    ensures Unify(s) == s
  {
    if |s| >= 2 { UnifyKeeps(s[1..]); }
  }

  // Scanning

  /** The lines before the first too long one. */
  function Readable(lines: seq<string>): (r: seq<string>)
    ensures r <= lines
  {
    if lines == [] || !Fits(lines[0]) then [] else [lines[0]] + Readable(lines[1..])
  }

  lemma LastLine(line: string)
    requires Plain(line)
    ensures Lines(line) == Readable([line])
  {
    IndexOfNone(line, '\n');
    hide Fits, Index;
    assert Readable([line][1..]) == [];
  }

  lemma FirstLine(line: string, more: string)
    requires Plain(line)
    ensures Lines(line + "\n" + more) == if Fits(line) then [line] + Lines(more) else []
  {
    var raw := line + "\n" + more;
    IndexOfChar(line, '\n', more);
    assert raw[..|line|] == line && raw[|line| + 1..] == more;
    hide Fits, Index;
  }

  lemma {:induction false} LinesOfUnlines(lines: seq<string>)
    requires lines != [] && forall i :: 0 <= i < |lines| ==> Plain(lines[i])
    ensures Lines(Unlines(lines)[..|Unlines(lines)| - 1]) == Readable(lines)
  {
    hide Lines, Fits;
    var line, tail := lines[0], lines[1..];
    var raw := Unlines(lines)[..|Unlines(lines)| - 1];
    if tail == [] {
      OneLine(line);
      assert lines == [line];
      assert raw == line;
      LastLine(line);
    } else {
      var more := Unlines(tail)[..|Unlines(tail)| - 1];
      assert raw == line + "\n" + more;
      FirstLine(line, more);
      LinesOfUnlines(tail);
    }
  }

  lemma {:induction false} ReadableAppend(a: seq<string>, b: seq<string>)
    ensures Readable(a + b) == if Readable(a) == a then a + Readable(b) else Readable(a)
  {
    if a == [] {
      assert a + b == b;
    } else {
      assert (a + b)[1..] == a[1..] + b;
      ReadableAppend(a[1..], b);
      assert a == [a[0]] + a[1..];
    }
  }

  lemma {:induction false} Utf8Bound(s: string)
    ensures Utf8Length(s) <= 4 * |s|
  {
    if s != "" { Utf8Bound(s[..|s| - 1]); }
  }

  lemma {:induction false} ShortLinesAreReadable(lines: seq<string>)
    requires forall i :: 0 <= i < |lines| ==> |lines[i]| < 16384
    ensures Readable(lines) == lines
  {
    if lines != [] {
      Utf8Bound(lines[0]);
      ShortLinesAreReadable(lines[1..]);
      assert lines == [lines[0]] + lines[1..];
    }
  }

  /** The names whose lines the scanner gets to see. */
  function ReadableNames(names: seq<string>): (r: seq<string>)
    ensures r <= names
  {
    if names == [] || !Fits(Item(names[0])) then [] else [names[0]] + ReadableNames(names[1..])
  }

  lemma ItemsStep(name: string, names: seq<string>)
    ensures Items([name] + names) == [Item(name)] + Items(names)
  {
    hide Item;
  }

  lemma {:induction false} ReadableItems(names: seq<string>)
    ensures Readable(Items(names)) == Items(ReadableNames(names))
  {
    if names == [] {
      assert Items(names) == [];
    } else {
      hide Fits, Item, Items;
      assert names == [names[0]] + names[1..];
      ItemsStep(names[0], names[1..]);
      var items := Items(names[1..]);
      assert ([Item(names[0])] + items)[1..] == items;
      ReadableItems(names[1..]);
      if Fits(Item(names[0])) {
        ItemsStep(names[0], ReadableNames(names[1..]));
      } else {
        NoItems();
      }
    }
  }

  lemma NoItems()
    ensures Items([]) == []
  {
  }

  // Reading

  lemma {:induction false} ReadLinesAppend(r: Reading, a: seq<string>, b: seq<string>)
    ensures ReadLines(r, a + b) == ReadLines(ReadLines(r, a), b)
  {
    if b == [] {
      assert a + b == a;
    } else {
      assert (a + b)[..|a + b| - 1] == a + b[..|b| - 1];
      ReadLinesAppend(r, a, b[..|b| - 1]);
    }
  }

  predicate GoodKey(key: string) {
    key != "" && ':' !in key && Tight(IsSpace, key) && key[0] != '#' && key[0] != '-'
  }

  predicate GoodValue(value: string) {
    value != "" && Tight(IsSpace, value) && Tight(IsQuote, value) && value[0] != '['
  }

  lemma {:induction false} TrimShortens(cut: char -> bool, s: string)
    ensures |TrimLeft(cut, s)| <= |s| && (|TrimLeft(cut, s)| == |s| ==> TrimLeft(cut, s) == s)
    ensures |TrimRight(cut, s)| <= |s| && (|TrimRight(cut, s)| == |s| ==> TrimRight(cut, s) == s)
  {
    if s != "" && cut(s[0]) { TrimShortens(cut, s[1..]); }
    if s != "" && cut(s[|s| - 1]) { TrimShortens(cut, s[..|s| - 1]); }
  }

  lemma TrimKeepsOrShortens(cut: char -> bool, s: string)
    ensures |Trim(cut, s)| <= |s| && (|Trim(cut, s)| == |s| ==> Trim(cut, s) == s && Tight(cut, s))
  {
    TrimShortens(cut, s);
    TrimShortens(cut, TrimLeft(cut, s));
    TrimIsTight(cut, s);
  }

  /** Exactly the values with no blank and no quote at either end come through unchanged. */
  lemma CleanIsKept(value: string)
    ensures CleanScalar(value) == value <==> Tight(IsSpace, value) && Tight(IsQuote, value)
  {
    if Tight(IsSpace, value) && Tight(IsQuote, value) {
      TightIsTrimmed(IsSpace, value);
      TightIsTrimmed(IsQuote, value);
    }
    hide Trim, Tight;
    TrimKeepsOrShortens(IsSpace, value);
    TrimKeepsOrShortens(IsQuote, TrimSpace(value));
    TrimKeepsOrShortens(IsSpace, Trim(IsQuote, TrimSpace(value)));
  }

  lemma CutAtColon(key: string, rest: string)
    requires ':' !in key
    ensures Cut(key + ":" + rest) == Some(Halves(key, rest))
  {
    IndexOfChar(key, ':', rest);
    var s := key + ":" + rest;
    assert s[..|key|] == key && s[|key| + 1..] == rest;
  }

  lemma SpaceThenValue(value: string)
    requires Tight(IsSpace, value)
    ensures TrimSpace(" " + value) == value
  {
    assert (" " + value)[1..] == value;
    assert TrimLeft(IsSpace, " " + value) == TrimLeft(IsSpace, value);
    TightIsTrimmed(IsSpace, value);
  }

  lemma OneValue(value: string)
    requires GoodValue(value)
    ensures ParseValueList(value) == [value]
  {
    CleanIsKept(value);
    hide CleanScalar;
  }

  lemma FieldIsCut(key: string, value: string)
    requires GoodKey(key) && GoodValue(value)
    ensures TrimSpace(Field(key, value)) == Field(key, value) && Cut(Field(key, value)) == Some(Halves(key, " " + value))
    ensures !HasPrefix(Field(key, value), "#") && !HasPrefix(Field(key, value), "- ") && Field(key, value) != ""
  {
    var line := Field(key, value);
    TightIsTrimmed(IsSpace, line);
    assert line == key + ":" + (" " + value);
    CutAtColon(key, " " + value);
    hide Trim, Cut, IsSpace;
    assert line[0] == key[0];
  }

  lemma FieldIsRead(r: Reading, key: string, value: string)
    requires GoodKey(key) && GoodValue(value)
    ensures ReadLine(r, Field(key, value)) == Reading(key, r.values[key := [value]])
  {
    FieldIsCut(key, value);
    TightIsTrimmed(IsSpace, key);
    SpaceThenValue(value);
    OneValue(value);
    hide Trim, Cut, ParseValueList, Field, Tight, IsSpace, IsQuote, HasPrefix;
  }

  lemma KeyIsRead(r: Reading, key: string)
    requires GoodKey(key)
    ensures ReadLine(r, key + ":") == Reading(key, r.values[key := []])
  {
    assert key + ":" == key + ":" + "";
    TightIsTrimmed(IsSpace, key + ":");
    CutAtColon(key, "");
    TightIsTrimmed(IsSpace, key);
  }

  predicate GoodName(name: string) {
    name != "" && Tight(IsSpace, name)
  }

  lemma ItemIsRead(r: Reading, name: string)
    requires r.key != "" && GoodName(name)
    ensures ReadLine(r, Item(name)) == r.(values := r.values[r.key := Get(r.values, r.key) + [CleanScalar(name)]])
  {
    var dashed := "- " + name;
    assert Item(name)[1..][1..] == dashed;
    assert TrimLeft(IsSpace, Item(name)) == TrimLeft(IsSpace, dashed);
    TightIsTrimmed(IsSpace, dashed);
    assert dashed[2..] == name;
  }

  function Cleaned(names: seq<string>): seq<string> {
    seq(|names|, i requires 0 <= i < |names| => CleanScalar(names[i]))
  }

  lemma {:induction false} ItemsAreRead(r: Reading, names: seq<string>)
    requires r.key != "" && r.key in r.values && forall i :: 0 <= i < |names| ==> GoodName(names[i])
    ensures ReadLines(r, Items(names)) == r.(values := r.values[r.key := r.values[r.key] + Cleaned(names)])
  {
    hide ReadLine, CleanScalar, Item, GoodName;
    if names == [] {
      assert r.values[r.key] + Cleaned(names) == r.values[r.key];
    } else {
      var init, last := names[..|names| - 1], names[|names| - 1];
      ItemsAreRead(r, init);
      assert Items(names)[..|names| - 1] == Items(init);
      ItemIsRead(ReadLines(r, Items(init)), last);
      assert r.values[r.key] + Cleaned(names) == r.values[r.key] + Cleaned(init) + [CleanScalar(last)];
      assert names == init + [last];
      assert Items(names)[|names| - 1] == Item(last);
    }
  }

  // The front matter of the printed file

  function HeadValues(): FrontMatter {
    map["skill_ref" := [WORKER_REF], "name" := [WORKER_NAME], "kind" := [EXECUTABLE],
        "description" := [WORKER_DESCRIPTION], "capabilities" := []]
  }

  lemma HeadFieldsAreGood()
    ensures GoodKey("skill_ref") && GoodKey("name") && GoodKey("kind") && GoodKey("description") && GoodKey("capabilities")
    ensures GoodValue(WORKER_REF) && GoodValue(WORKER_NAME) && GoodValue(EXECUTABLE) && GoodValue(WORKER_DESCRIPTION)
  {
    assert WORKER_DESCRIPTION[0] == 'E' && WORKER_DESCRIPTION[|WORKER_DESCRIPTION| - 1] == '.';
  }

  lemma TailFieldsAreGood()
    ensures GoodKey("executor_hint") && GoodKey("approval_required") && GoodValue(WORKER_HINT) && GoodValue("false")
  {
  }

  lemma ReadTwo(r: Reading, a: string, b: string)
    ensures ReadLines(r, [a, b]) == ReadLine(ReadLine(r, a), b)
  {
    hide ReadLine;
    assert [a][..0] == [];
    assert ReadLines(r, [a]) == ReadLine(r, a);
    assert [a, b][..|[a, b]| - 1] == [a];
  }

  lemma HeadIsRead()
    ensures ReadLines(Reading("", map[]), Head()) == Reading("capabilities", HeadValues())
  {
    HeadFieldsAreGood();
    hide ReadLine, Field, GoodKey, GoodValue;
    var r0 := Reading("", map[]);
    var r1 := Reading("skill_ref", map["skill_ref" := [WORKER_REF]]);
    var r2 := Reading("name", r1.values["name" := [WORKER_NAME]]);
    var r3 := Reading("kind", r2.values["kind" := [EXECUTABLE]]);
    var r4 := Reading("description", r3.values["description" := [WORKER_DESCRIPTION]]);
    FieldIsRead(r0, "skill_ref", WORKER_REF);
    FieldIsRead(r1, "name", WORKER_NAME);
    FieldIsRead(r2, "kind", EXECUTABLE);
    FieldIsRead(r3, "description", WORKER_DESCRIPTION);
    KeyIsRead(r4, "capabilities");
    var a, b, c, d, e := Head()[0], Head()[1], Head()[2], Head()[3], Head()[4];
    ReadTwo(r0, a, b);
    ReadTwo(r2, c, d);
    ReadLinesAppend(r0, [a, b], [c, d]);
    assert [a, b] + [c, d] == [a, b, c, d];
    ReadLinesAppend(r0, [a, b, c, d], [e]);
    assert [a, b, c, d] + [e] == Head();
    assert [e][..0] == [];
    assert ReadLines(r4, [e]) == ReadLine(r4, e);
  }

  lemma TitleIsPlain()
    ensures '\r' !in Title() && '#' in Title()
  {
    assert Title()[1] == '#';
  }

  lemma RoleIsPlain()
    ensures '\r' !in Role()
  {
  }

  lemma MarkersArePlain()
    ensures '\r' !in Markers()
  {
  }

  lemma PromptsArePlain()
    ensures '\r' !in Prompts()
  {
  }

  lemma BodyIsPlain()
    ensures '\r' !in WorkerBody() && '#' in WorkerBody()
  {
    hide Title, Role, Markers, Prompts;
    TitleIsPlain();
    RoleIsPlain();
    MarkersArePlain();
    PromptsArePlain();
  }

  /** Trimmed, the body is not blank. */
  lemma BodyIsNotBlank()
    ensures TrimSpace(WorkerBody()) != ""
  {
    hide WorkerBody;
    BodyIsPlain();
    TrimKeepsLeft(IsSpace, WorkerBody(), '#');
    TrimKeepsRight(IsSpace, TrimLeft(IsSpace, WorkerBody()), '#');
  }

  predicate AllPlain(lines: seq<string>) {
    forall i :: 0 <= i < |lines| ==> Plain(lines[i])
  }

  lemma FieldIsPlain(key: string, value: string)
    requires GoodKey(key) && GoodValue(value) && '\n' !in key && '\n' !in value
    ensures Plain(Field(key, value))
  {
  }

  lemma HeadIsPlain()
    ensures AllPlain(Head()) && Readable(Head()) == Head()
  {
    HeadFieldsAreGood();
    FieldIsPlain("skill_ref", WORKER_REF);
    FieldIsPlain("name", WORKER_NAME);
    FieldIsPlain("kind", EXECUTABLE);
    FieldIsPlain("description", WORKER_DESCRIPTION);
    assert Plain("capabilities" + ":");
    hide Plain, Readable;
    ShortLinesAreReadable(Head());
  }

  lemma TailIsPlain()
    ensures AllPlain(Tail()) && Readable(Tail()) == Tail()
  {
    TailFieldsAreGood();
    FieldIsPlain("executor_hint", WORKER_HINT);
    FieldIsPlain("approval_required", "false");
    hide Plain, Readable;
    ShortLinesAreReadable(Tail());
  }

  lemma {:induction false} NamesAreGood(capabilities: seq<string>)
    ensures forall i :: 0 <= i < |Names(capabilities)| ==> GoodName(Names(capabilities)[i])
  {
    if capabilities != [] {
      NamesAreGood(capabilities[..|capabilities| - 1]);
      TrimIsTight(IsSpace, capabilities[|capabilities| - 1]);
    }
  }

  ghost predicate OneLiners(names: seq<string>) {
    forall i :: 0 <= i < |names| ==> '\n' !in names[i]
  }

  lemma ItemsArePlain(names: seq<string>)
    requires OneLiners(names) && forall i :: 0 <= i < |names| ==> GoodName(names[i])
    ensures AllPlain(Items(names))
  {
    forall i | 0 <= i < |names| ensures Plain(Items(names)[i]) {
      var line := Item(names[i]);
      assert line[0] == ' ' && line[|line| - 1] == names[i][|names[i]| - 1];
    }
  }

  /** The lines between the rulers. */
  function FrontLines(capabilities: seq<string>): seq<string> {
    Head() + Items(Names(capabilities)) + Tail()
  }

  lemma FrontIsPlain(capabilities: seq<string>)
    requires OneLiners(Names(capabilities))
    ensures AllPlain(FrontLines(capabilities))
  {
    hide Head, Tail, Plain;
    HeadIsPlain();
    TailIsPlain();
    NamesAreGood(capabilities);
    ItemsArePlain(Names(capabilities));
  }

  lemma PrintedNeedsNoUnifying(capabilities: seq<string>)
    requires OneLiners(Names(capabilities))
    ensures Unify(Printed(capabilities)) == "---\n" + (Unlines(FrontLines(capabilities)) + ("---\n" + WorkerBody()))
  {
    hide Head, Tail, WorkerBody, Plain, Names, Unify, Items, Unlines;
    var lines := FrontLines(capabilities);
    var front, end := Unlines(lines), "---\n" + WorkerBody();
    FrontIsPlain(capabilities);
    assert Printed(capabilities) == "---" + "\n" + (front + end);
    UnifySkipsLine("---", front + end);
    UnifySkipsLines(lines, end);
    assert end == "---" + "\n" + WorkerBody();
    UnifySkipsLine("---", WorkerBody());
    BodyIsPlain();
    UnifyKeeps(WorkerBody());
  }

  lemma SplitsAtRuler(content: string, front: string, body: string)
    requires Unify(content) == "---\n" + (front + ("---\n" + body))
    requires front != "" && front[|front| - 1] == '\n' && Index(front + ("---\n" + body), RULER) == Some(|front| - 1)
    ensures SplitFrontMatter(content) == Parts(Some(front[..|front| - 1]), body)
  {
    hide Unify, Index;
    var k, rest := |front| - 1, front + ("---\n" + body);
    assert ("---\n" + rest)[4..] == rest;
    assert rest[..k] == front[..k];
    assert rest[k..] == RULER + ("\n" + body);
    assert TrimPrefix(rest[k..], RULER) == "\n" + body;
    assert TrimPrefix("\n" + body, "\n") == body;
  }

  /** Splitting finds the printed lines again, whatever the names are, as long as each is on one line. */
  lemma PrintedSplits(capabilities: seq<string>)
    requires OneLiners(Names(capabilities))
    ensures var front := Unlines(FrontLines(capabilities));
            front != "" && SplitFrontMatter(Printed(capabilities)) == Parts(Some(front[..|front| - 1]), WorkerBody())
  {
    hide WorkerBody, Plain, Names, Index, Unify, SplitFrontMatter, Unlines, Printed;
    var lines := FrontLines(capabilities);
    assert lines != [] by { HeadIsNotEmpty(); }
    hide Head, Tail, FrontLines;
    FrontIsPlain(capabilities);
    PrintedNeedsNoUnifying(capabilities);
    EndsInNewline(lines);
    RulerAfterLines(lines, "---\n" + WorkerBody());
    SplitsAtRuler(Printed(capabilities), Unlines(lines), WorkerBody());
  }

  lemma HeadIsNotEmpty()
    ensures Head() != []
  {
  }

  lemma {:induction false} EndsInNewline(lines: seq<string>)
    requires lines != []
    ensures Unlines(lines) != "" && Unlines(lines)[|Unlines(lines)| - 1] == '\n'
  {
    if |lines| > 1 { EndsInNewline(lines[1..]); }
  }

  /** The names that survive the scanner: all, or those before the first over-long line. */
  function Kept(capabilities: seq<string>): seq<string> {
    ReadableNames(Names(capabilities))
  }

  lemma ScannedLines(capabilities: seq<string>)
    ensures Readable(FrontLines(capabilities))
            == Head() + Items(Kept(capabilities)) + if Kept(capabilities) == Names(capabilities) then Tail() else []
  {
    hide Head, Tail, Names, Readable, ReadableNames;
    var names := Names(capabilities);
    HeadIsPlain();
    TailIsPlain();
    ReadableItems(names);
    ReadableAppend(Head(), Items(names));
    ReadableAppend(Head() + Items(names), Tail());
    if ReadableNames(names) != names { ItemsApart(ReadableNames(names), names); }
    assert Head() + Items(Kept(capabilities)) + [] == Head() + Items(Kept(capabilities));
  }

  lemma ItemsApart(short: seq<string>, names: seq<string>)
    requires short <= names && short != names
    ensures forall head: seq<string> :: head + Items(short) != head + Items(names)
  {
    forall head: seq<string> ensures head + Items(short) != head + Items(names) {
      assert |head + Items(short)| < |head + Items(names)|;
    }
  }

  function PrintedValues(capabilities: seq<string>): FrontMatter {
    var values := HeadValues()["capabilities" := Cleaned(Kept(capabilities))];
    if Kept(capabilities) == Names(capabilities) then
      values["executor_hint" := [WORKER_HINT]]["approval_required" := ["false"]]
    else values
  }

  lemma TailIsRead(r: Reading)
    ensures ReadLines(r, Tail()).values == r.values["executor_hint" := [WORKER_HINT]]["approval_required" := ["false"]]
  {
    TailFieldsAreGood();
    hide ReadLine, Field, GoodKey, GoodValue;
    FieldIsRead(r, "executor_hint", WORKER_HINT);
    FieldIsRead(Reading("executor_hint", r.values["executor_hint" := [WORKER_HINT]]), "approval_required", "false");
    ReadTwo(r, Tail()[0], Tail()[1]);
    assert Tail() == [Tail()[0], Tail()[1]];
  }

  lemma KeptAreGood(capabilities: seq<string>)
    ensures forall i :: 0 <= i < |Kept(capabilities)| ==> GoodName(Kept(capabilities)[i])
  {
    NamesAreGood(capabilities);
    hide GoodName;
    assert Kept(capabilities) <= Names(capabilities);
  }

  lemma ScannedLinesAreRead(capabilities: seq<string>)
    ensures ReadLines(Reading("", map[]), Readable(FrontLines(capabilities))).values == PrintedValues(capabilities)
  {
    var r0, kept := Reading("", map[]), Kept(capabilities);
    var items := Items(kept);
    HeadIsRead();
    KeptAreGood(capabilities);
    HeadKey();
    hide Head, Tail, Readable, FrontLines, HeadValues, Items, Names, ReadableNames, GoodName;
    ScannedLines(capabilities);
    ReadLinesAppend(r0, Head(), items);
    ItemsAreRead(Reading("capabilities", HeadValues()), kept);
    assert [] + Cleaned(kept) == Cleaned(kept);
    ReadLinesAppend(r0, Head() + items, Tail());
    TailIsRead(ReadLines(r0, Head() + items));
    assert Head() + items + [] == Head() + items;
  }

  lemma HeadKey()
    ensures "capabilities" in HeadValues() && HeadValues()["capabilities"] == []
  {
  }

  lemma PrintedMetadata(capabilities: seq<string>)
    requires OneLiners(Names(capabilities))
    ensures var parts := SplitFrontMatter(Printed(capabilities));
            parts.body == WorkerBody() && Metadata(parts.front) == PrintedValues(capabilities)
  {
    FrontIsPlain(capabilities);
    HeadIsNotEmpty();
    PrintedSplits(capabilities);
    ScannedLinesAreRead(capabilities);
    hide SplitFrontMatter, Printed, Head, Readable, Names, Lines, PrintedValues, WorkerBody;
    LinesOfUnlines(FrontLines(capabilities));
  }

  /** What the worker meant to declare. */
  function Declared(path: string, capabilities: seq<string>): Skill {
    Skill(WORKER_REF, WORKER_NAME, EXECUTABLE, WORKER_DESCRIPTION, Distinct(Cleaned(Kept(capabilities))), [],
          if Kept(capabilities) == Names(capabilities) then WORKER_HINT else "", false, TrimSpace(WorkerBody()), path)
  }

  lemma FixedFields(capabilities: seq<string>)
    ensures var values := PrintedValues(capabilities);
            && Scalar(values, "skill_ref") == WORKER_REF && Scalar(values, "name") == WORKER_NAME
            && Scalar(values, "kind") == EXECUTABLE && Scalar(values, "description") == WORKER_DESCRIPTION
            && Get(values, "capabilities") == Cleaned(Kept(capabilities)) && Get(values, "applies_to") == []
            && Scalar(values, "executor_hint") == (if Kept(capabilities) == Names(capabilities) then WORKER_HINT else "")
            && Scalar(values, "approval_required") == (if Kept(capabilities) == Names(capabilities) then "false" else "")
  {
    hide Kept, Names, Cleaned;
  }

  lemma FalseIsFalse()
    ensures !IsTrue("false") && !IsTrue("")
  {
    assert ToLower("false")[0] == 'f';
    assert ToLower("") == "";
  }

  /**
   * The round trip, for any capabilities whose names stay on one line: the loader reads the printed file back as
   * declared, and the validator accepts it as it is.
   */
  lemma RoundTrip(path: string, defaults: Defaults, capabilities: seq<string>)
    requires OneLiners(Names(capabilities))
    ensures Parsed(path, defaults, Printed(capabilities)) == Declared(path, capabilities)
    ensures Validate(Declared(path, capabilities)) == Accepted(Declared(path, capabilities))
  {
    PrintedMetadata(capabilities);
    FixedFields(capabilities);
    FalseIsFalse();
    assert Distinct([]) == [];
    hide SplitFrontMatter, Printed, Metadata, PrintedValues, IsTrue, Distinct, Scalar, Get, Kept, Names, WorkerBody,
      TrimSpace;
    DeclaredIsValid(path, capabilities);
  }

  /** What the validator asks for, and that it then changes nothing. */
  lemma ValidIff(skill: Skill)
    ensures Validate(skill) == Accepted(skill) <==>
            && TrimSpace(skill.skillRef) != "" && SKILL_PREFIX <= skill.skillRef
            && TrimSpace(skill.name) != "" && skill.kind in {GUIDANCE, EXECUTABLE}
            && skill.body != "" && TrimSpace(skill.body) == skill.body
  {
    hide TrimSpace;
  }

  lemma DeclaredIsValid(path: string, capabilities: seq<string>)
    ensures Validate(Declared(path, capabilities)) == Accepted(Declared(path, capabilities))
  {
    BodyIsNotBlank();
    TrimIsTight(IsSpace, WorkerBody());
    HeadFieldsAreGood();
    TightIsTrimmed(IsSpace, WORKER_REF);
    TightIsTrimmed(IsSpace, WORKER_NAME);
    assert SKILL_PREFIX <= WORKER_REF;
    hide WorkerBody, Trim, Distinct, Kept, Names, IsSpace, Cleaned, Tight, Validate, GoodKey, GoodValue;
    ValidIff(Declared(path, capabilities));
  }

  // The capabilities themselves

  /** A name that the printer and the loader agree on: trimmed, not quoted at either end, its line below the limit. */
  predicate Faithful(name: string) {
    GoodName(name) && Tight(IsQuote, name) && Fits(Item(name))
  }

  lemma {:induction false} FaithfulNamesArePrinted(names: seq<string>)
    requires forall i :: 0 <= i < |names| ==> Faithful(names[i])
    ensures Names(names) == names
  {
    if names != [] {
      var init, last := names[..|names| - 1], names[|names| - 1];
      TightIsTrimmed(IsSpace, last);
      hide Faithful, Trim;
      FaithfulNamesArePrinted(init);
      assert names == init + [last];
    }
  }

  lemma FaithfulNamesAreClean(names: seq<string>)
    requires forall i :: 0 <= i < |names| ==> Faithful(names[i])
    ensures Cleaned(names) == names
  {
    forall i | 0 <= i < |names| ensures Cleaned(names)[i] == names[i] { CleanIsKept(names[i]); }
  }

  lemma FaithfulNamesAreKept(names: seq<string>)
    requires forall i :: 0 <= i < |names| ==> Faithful(names[i])
    ensures Names(names) == names && ReadableNames(names) == names && Cleaned(names) == names
  {
    FaithfulNamesArePrinted(names);
    FaithfulNamesAreRead(names);
    FaithfulNamesAreClean(names);
  }

  lemma {:induction false} FaithfulNamesAreRead(names: seq<string>)
    requires forall i :: 0 <= i < |names| ==> Faithful(names[i])
    ensures ReadableNames(names) == names
  {
    hide Fits, GoodName, Tight;
    if names != [] {
      FaithfulNamesAreRead(names[1..]);
      assert names == [names[0]] + names[1..];
    }
  }

  /** The kept capabilities are the given ones, each once, in the order of their first mention. */
  lemma {:induction false} DistinctKeepsEach(values: seq<string>, x: string)
    requires forall i :: 0 <= i < |values| ==> GoodName(values[i])
    ensures x in Distinct(values) <==> x in values
    ensures forall i, j :: 0 <= i < j < |Distinct(values)| ==> Distinct(values)[i] != Distinct(values)[j]
  {
    if values != [] {
      var init, last := values[..|values| - 1], values[|values| - 1];
      DistinctKeepsEach(init, x);
      DistinctKeepsEach(init, last);
      TightIsTrimmed(IsSpace, last);
      assert values == init + [last];
    }
  }

  lemma {:induction false} DistinctKeepsOrder(values: seq<string>, n: nat)
    requires n <= |values|
    ensures Distinct(values[..n]) <= Distinct(values)
  {
    if n < |values| {
      assert values[..|values| - 1][..n] == values[..n];
      DistinctKeepsOrder(values[..|values| - 1], n);
    } else {
      assert values[..n] == values;
    }
  }

  /** For names that both sides agree on, the file says exactly what the worker can do. */
  lemma CapabilitiesRoundTrip(path: string, defaults: Defaults, capabilities: seq<string>, x: string)
    requires forall i :: 0 <= i < |capabilities| ==> Faithful(capabilities[i]) && '\n' !in capabilities[i]
    ensures var skill := Parsed(path, defaults, Printed(capabilities));
            && skill.capabilities == Distinct(capabilities) && skill.executorHint == WORKER_HINT
            && (x in skill.capabilities <==> x in capabilities)
            && Validate(skill) == Accepted(skill)
  {
    FaithfulNamesAreKept(capabilities);
    hide Parsed, Printed, Names, ReadableNames, Cleaned, Distinct, Validate;
    RoundTrip(path, defaults, capabilities);
    DistinctKeepsEach(capabilities, x);
  }
}
