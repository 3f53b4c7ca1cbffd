/**
 * The frontmatter parser for skill files (`parseSkillMarkdown`,
 * packages/skills/src/index.ts), and when printing a skill and parsing it
 * gives the skill back. JavaScript's `Number` is a parameter.
 */
module SkillFrontmatter {
  import opened Text
  import opened Splitting

  datatype Frontmatter = Frontmatter(
    skillId: string,
    version: int,
    compatibleAgents: seq<string>,
    requiredMemory: seq<string>,
    outputSchemas: seq<string>)

  datatype Skill = Skill(frontmatter: Frontmatter, body: string)

  datatype Error = MissingBlock | SchemaViolation

  datatype Result<+T> = Ok(value: T) | Err(error: Error)

  /** A value of the record being filled; None is any number that is not an integer. */
  datatype Value = Words(text: string) | Num(number: Option<int>) | List(items: seq<string>)

  /** `Number(text)`, None when the result is not an integer. */
  type Reader = string -> Option<int>

  datatype Field = SkillId | Version | CompatibleAgents | RequiredMemory | OutputSchemas

  function Name(f: Field): string {
    match f
    case SkillId => "skill_id"
    case Version => "version"
    case CompatibleAgents => "compatible_agents"
    case RequiredMemory => "required_memory"
    case OutputSchemas => "output_schemas"
  }

  lemma NamesDiffer(f: Field, g: Field)
    requires Name(f) == Name(g)
    ensures f == g
  {
    assert Name(f)[0] == Name(g)[0];
  }

  // ── Parsing ──────────────────────────────────────────────────────────────

  /** The record and the key of the list being filled. */
  datatype Scan = Scan(parsed: map<string, Value>, current: Option<string>)

  function ItemsOf(parsed: map<string, Value>, key: string): seq<string> {
    if key in parsed && parsed[key].List? then parsed[key].items else []
  }

  function Scalar(key: string, value: string, number: Reader): Value {
    if key == Name(Version) then Num(number(value)) else Words(value)
  }

  /** One trimmed line. */
  function Step(st: Scan, line: string, number: Reader): Scan {
    if line == "" then st
    else if StartsWith(line, ['-', ' ']) && st.current.Some? then
      var key := st.current.value;
      st.(parsed := st.parsed[key := List(ItemsOf(st.parsed, key) + [Trim(line[2..])])])
    else
      var parts := Split(line, [':']);
      var key := Trim(parts[0]);
      if key == "" || |parts| < 2 then st
      else
        var value := Trim(parts[1]);
        if value == "" then Scan(st.parsed[key := List([])], Some(key))
        else Scan(st.parsed[key := Scalar(key, value, number)], None)
  }

  function Fold(st: Scan, lines: seq<string>, number: Reader): Scan
    decreases |lines|
  {
    if lines == [] then st else Fold(Step(st, Trim(lines[0]), number), lines[1..], number)
  }

  predicate NonEmptyAll(items: seq<string>) {
    forall k | 0 <= k < |items| :: items[k] != ""
  }

  predicate HasList(parsed: map<string, Value>, f: Field) {
    Name(f) in parsed && parsed[Name(f)].List? && NonEmptyAll(parsed[Name(f)].items)
  }

  predicate HasId(parsed: map<string, Value>) {
    Name(SkillId) in parsed && parsed[Name(SkillId)].Words? && parsed[Name(SkillId)].text != ""
  }

  predicate HasVersion(parsed: map<string, Value>) {
    && Name(Version) in parsed && parsed[Name(Version)].Num?
    && parsed[Name(Version)].number.Some? && parsed[Name(Version)].number.value > 0
  }

  /** `skillFrontmatterSchema.parse` */
  function Check(parsed: map<string, Value>): Result<Frontmatter> {
    if HasId(parsed) && HasVersion(parsed) && HasList(parsed, CompatibleAgents)
       && HasList(parsed, RequiredMemory) && HasList(parsed, OutputSchemas)
    then Ok(Frontmatter(parsed[Name(SkillId)].text, parsed[Name(Version)].number.value,
                        parsed[Name(CompatibleAgents)].items, parsed[Name(RequiredMemory)].items,
                        parsed[Name(OutputSchemas)].items))
    else Err(SchemaViolation)
  }

  const SEPARATOR := ['-', '-', '-']

  function Parse(content: string, number: Reader): Result<Skill> {
    var chunks := Split(content, SEPARATOR);
    if |chunks| < 3 then Err(MissingBlock)
    else
      var lines := Split(Trim(chunks[1]), ['\n']);
      match Check(Fold(Scan(map[], None), lines, number).parsed)
      case Ok(f) => Ok(Skill(f, Trim(Join(chunks[2..], SEPARATOR))))
      case Err(e) => Err(e)
  }

  /** The parser as the source writes it: one loop over the lines. */
  method ParseSkillMarkdown(content: string, number: Reader) returns (r: Result<Skill>)
    ensures r == Parse(content, number)
  {
    var chunks := Split(content, SEPARATOR);
    if |chunks| < 3 {
      return Err(MissingBlock);
    }
    var lines := Split(Trim(chunks[1]), ['\n']);
    var body := Trim(Join(chunks[2..], SEPARATOR));
    var parsed: map<string, Value>, currentListKey: Option<string> := map[], None;
    var i := 0;
    while i < |lines|
      invariant i <= |lines|
      invariant currentListKey.Some? ==> currentListKey.value in parsed && parsed[currentListKey.value].List?
      invariant Fold(Scan(parsed, currentListKey), lines[i..], number) == Fold(Scan(map[], None), lines, number)
    {
      var line := Trim(lines[i]);
      assert lines[i..][1..] == lines[i + 1..];
      i := i + 1;
      if line == "" {
        continue;
      }
      if StartsWith(line, ['-', ' ']) && currentListKey.Some? {
        var previous := parsed[currentListKey.value].items;
        parsed := parsed[currentListKey.value := List(previous + [Trim(line[2..])])];
        continue;
      }
      var parts := Split(line, [':']);
      var key := Trim(parts[0]);
      if key == "" || |parts| < 2 {
        continue;
      }
      var value := Trim(parts[1]);
      if value == "" {
        parsed := parsed[key := List([])];
        currentListKey := Some(key);
        continue;
      }
      currentListKey := None;
      parsed := parsed[key := if key == Name(Version) then Num(number(value)) else Words(value)];
    }
    var checked := Check(parsed);
    if checked.Err? {
      return Err(checked.error);
    }
    return Ok(Skill(checked.value, body));
  }

  // ── Printing ─────────────────────────────────────────────────────────────

  function ScalarLine(f: Field, value: string): string {
    Name(f) + [':'] + ([' '] + value)
  }

  function ItemLines(items: seq<string>): (lines: seq<string>)
    ensures |lines| == |items| && forall k | 0 <= k < |lines| :: lines[k] == ['-', ' '] + items[k]
  {
    if items == [] then [] else [['-', ' '] + items[0]] + ItemLines(items[1..])
  }

  function ListLines(f: Field, items: seq<string>): seq<string> {
    [Name(f) + [':'] + []] + ItemLines(items)
  }

  function Lists(f: Frontmatter): seq<string> {
    ListLines(CompatibleAgents, f.compatibleAgents)
    + (ListLines(RequiredMemory, f.requiredMemory) + ListLines(OutputSchemas, f.outputSchemas))
  }

  function Lines(f: Frontmatter): seq<string>
    requires f.version >= 0
  {
    [ScalarLine(SkillId, f.skillId)] + ([ScalarLine(Version, Decimal(f.version))] + Lists(f))
  }

  function Block(f: Frontmatter): string
    requires f.version >= 0
  {
    ['\n'] + Join(Lines(f), ['\n']) + ['\n']
  }

  function Print(s: Skill): string
    requires s.frontmatter.version >= 0
  {
    [] + SEPARATOR + (Block(s.frontmatter) + SEPARATOR + (['\n'] + s.body))
  }

  // ── What can be printed ──────────────────────────────────────────────────

  predicate DashesAt(s: string, i: nat) {
    i + 3 <= |s| && s[i] == '-' && s[i + 1] == '-' && s[i + 2] == '-'
  }

  ghost predicate NoDashes(s: string) {
    forall i: nat :: !DashesAt(s, i)
  }

  /** Not empty, trimmed, on one line and without `---`. */
  ghost predicate PlainText(s: string) {
    s != "" && Trimmed(s) && '\n' !in s && NoDashes(s)
  }

  ghost predicate PlainTexts(items: seq<string>) {
    forall k | 0 <= k < |items| :: PlainText(items[k])
  }

  /** Colons are allowed everywhere, and `---` in the body. */
  ghost predicate Printable(s: Skill, number: Reader) {
    match s
    case Skill(f, body) =>
      && PlainText(f.skillId) && f.version > 0 && number(Decimal(f.version)) == Some(f.version)
      && PlainTexts(f.compatibleAgents) && PlainTexts(f.requiredMemory) && PlainTexts(f.outputSchemas)
      && Trimmed(body)
  }

  // ── Reading lines back ───────────────────────────────────────────────────

  predicate IsNameChar(c: char) {
    'a' <= c <= 'z' || c == '_'
  }

  lemma NameChars(f: Field)
    ensures forall i | 0 <= i < |Name(f)| :: IsNameChar(Name(f)[i])
  {
  }

  lemma NameIsPlain(f: Field)
    ensures Name(f) != "" && Trimmed(Name(f)) && ':' !in Name(f) && '\n' !in Name(f) && '-' !in Name(f)
  {
    NameChars(f);
    CharsArePlain(Name(f));
  }

  lemma CharsArePlain(s: string)
    requires forall i | 0 <= i < |s| :: IsNameChar(s[i])
    ensures Trimmed(s) && ':' !in s && '\n' !in s && '-' !in s
  {
  }

  lemma NotAnItem(f: Field, rest: string)
    ensures !StartsWith(Name(f) + [':'] + rest, ['-', ' '])
  {
    NameIsPlain(f);
    var line := Name(f) + [':'] + rest;
    assert line[0] == Name(f)[0] && Name(f)[0] in Name(f);
    assert line[0..2][0] == line[0];
  }

  function Keyed(st: Scan, f: Field, value: string, number: Reader): Scan {
    if value == "" then Scan(st.parsed[Name(f) := List([])], Some(Name(f)))
    else Scan(st.parsed[Name(f) := Scalar(Name(f), value, number)], None)
  }

  /** A printed line splits at its own first colon. */
  lemma KeyedStep(st: Scan, f: Field, rest: string, number: Reader)
    ensures Step(st, Name(f) + [':'] + rest, number) == Keyed(st, f, Trim(Split(rest, [':'])[0]), number)
  {
    NameIsPlain(f);
    NotAnItem(f, rest);
    FirstPart(Name(f), ':', rest);
    TrimmedStays(Name(f));
  }

  lemma ScalarStep(st: Scan, f: Field, value: string, number: Reader)
    requires value != "" && Trimmed(value) && ':' !in value
    ensures Step(st, ScalarLine(f, value), number) == Scan(st.parsed[Name(f) := Scalar(Name(f), value, number)], None)
  {
    KeyedStep(st, f, [' '] + value, number);
    NoneOf([' '] + value, ':');
    TrimPadded([' '], value, []);
    assert [' '] + value + [] == [' '] + value;
  }

  lemma {:induction false} TrimStartShortens(s: string)
    ensures |TrimStart(s)| <= |s|
  {
    if |s| > 0 && IsSpace(s[0]) {
      TrimStartShortens(s[1..]);
    }
  }

  lemma {:induction false} TrimEndShortens(s: string)
    ensures |TrimEnd(s)| <= |s|
  {
    if |s| > 0 && IsSpace(s[|s| - 1]) {
      TrimEndShortens(s[..|s| - 1]);
    }
  }

  /** With a colon in it, the value is cut at the colon: something shorter is read, or a list is begun. */
  lemma ColonCutsScalar(st: Scan, value: string, number: Reader)
    requires value != "" && ':' in value
    ensures Name(SkillId) in Step(st, ScalarLine(SkillId, value), number).parsed
    ensures Step(st, ScalarLine(SkillId, value), number).parsed[Name(SkillId)] != Words(value)
  {
    var i := First(value, ':');
    assert i < |value| by {
      assert value[..|value|] == value;
    }
    var front, rest := [' '] + value[..i], value[i + 1..];
    assert [' '] + value == front + [':'] + rest;
    KeyedStep(st, SkillId, [' '] + value, number);
    FirstPart(front, ':', rest);
    TrimFront(value[..i]);
    if Name(SkillId) == Name(Version) {
      NamesDiffer(SkillId, Version);
    }
  }

  lemma TrimFront(s: string)
    ensures |Trim([' '] + s)| <= |s|
  {
    assert ([' '] + s)[1..] == s;
    TrimStartShortens(s);
    TrimEndShortens(TrimStart(s));
  }

  lemma ItemStep(st: Scan, key: string, item: string, number: Reader)
    requires st.current == Some(key) && Trimmed(item)
    ensures Step(st, ['-', ' '] + item, number)
            == st.(parsed := st.parsed[key := List(ItemsOf(st.parsed, key) + [item])])
  {
    var line := ['-', ' '] + item;
    assert line[0..2] == ['-', ' '] && line[2..] == item;
    TrimmedStays(item);
  }

  lemma FoldCons(st: Scan, line: string, rest: seq<string>, number: Reader)
    requires Trimmed(line)
    ensures Fold(st, [line] + rest, number) == Fold(Step(st, line, number), rest, number)
  {
    TrimmedStays(line);
    assert ([line] + rest)[1..] == rest;
  }

  /** The list under the key so far. */
  function Filling(parsed: map<string, Value>, key: string, items: seq<string>): Scan {
    Scan(parsed[key := List(items)], Some(key))
  }

  lemma {:induction false} ItemsFold(parsed: map<string, Value>, key: string, xs: seq<string>, items: seq<string>,
                                     rest: seq<string>, number: Reader)
    requires PlainTexts(items)
    ensures Fold(Filling(parsed, key, xs), ItemLines(items) + rest, number)
         == Fold(Filling(parsed, key, xs + items), rest, number)
    decreases |items|
  {
    if items == [] {
      assert ItemLines(items) + rest == rest && xs + items == xs;
    } else {
      var line, more := ['-', ' '] + items[0], ItemLines(items[1..]) + rest;
      ItemIsGood(items[0]);
      ItemGrows(parsed, key, xs, items[0], number);
      FoldCons(Filling(parsed, key, xs), line, more, number);
      ItemLinesCons(items, rest);
      ItemsFold(parsed, key, xs + [items[0]], items[1..], rest, number);
      Regroup(xs, items);
    }
  }

  lemma ItemLinesCons(items: seq<string>, rest: seq<string>)
    requires items != []
    ensures ItemLines(items) + rest == [['-', ' '] + items[0]] + (ItemLines(items[1..]) + rest)
  {
  }

  lemma Regroup(xs: seq<string>, items: seq<string>)
    requires items != []
    ensures xs + [items[0]] + items[1..] == xs + items
  {
  }

  lemma ItemGrows(parsed: map<string, Value>, key: string, xs: seq<string>, item: string, number: Reader)
    requires PlainText(item)
    ensures Step(Filling(parsed, key, xs), ['-', ' '] + item, number) == Filling(parsed, key, xs + [item])
  {
    ItemStep(Filling(parsed, key, xs), key, item, number);
  }

  lemma ListFold(st: Scan, f: Field, items: seq<string>, rest: seq<string>, number: Reader)
    requires PlainTexts(items)
    ensures Fold(st, ListLines(f, items) + rest, number) == Fold(Filling(st.parsed, Name(f), items), rest, number)
  {
    var head, more := Name(f) + [':'] + [], ItemLines(items) + rest;
    HeadIsGood(f);
    HeadStep(st, f, number);
    FoldCons(st, head, more, number);
    ListLinesCons(f, items, rest);
    ItemsFold(st.parsed, Name(f), [], items, rest, number);
    assert [] + items == items;
  }

  lemma ListLinesCons(f: Field, items: seq<string>, rest: seq<string>)
    ensures ListLines(f, items) + rest == [Name(f) + [':'] + []] + (ItemLines(items) + rest)
  {
  }

  lemma HeadStep(st: Scan, f: Field, number: Reader)
    ensures Step(st, Name(f) + [':'] + [], number) == Filling(st.parsed, Name(f), [])
  {
    KeyedStep(st, f, [], number);
    NoneOf([], ':');
    TrimmedStays([]);
  }

  // ── Printed lines survive splitting and trimming ─────────────────────────

  lemma NoDashesJoin(a: string, b: string)
    requires NoDashes(a) && NoDashes(b) && (a != "" ==> a[|a| - 1] != '-')
    ensures NoDashes(a + b)
  {
    forall i: nat
      ensures !DashesAt(a + b, i)
    {
      assert !DashesAt(a, i);
      assert i >= |a| ==> !DashesAt(b, i - |a|);
    }
  }

  lemma DashFree(s: string)
    requires '-' !in s
    ensures NoDashes(s)
  {
  }

  lemma ScalarIsGood(f: Field, value: string)
    requires PlainText(value)
    ensures PlainText(ScalarLine(f, value))
  {
    NameIsPlain(f);
    var front := Name(f) + [':'] + [' '];
    DashFree(front);
    NoDashesJoin(front, value);
    assert front + value == ScalarLine(f, value);
  }

  lemma HeadIsGood(f: Field)
    ensures PlainText(Name(f) + [':'] + [])
  {
    NameIsPlain(f);
    DashFree(Name(f) + [':'] + []);
  }

  lemma ItemIsGood(item: string)
    requires PlainText(item)
    ensures PlainText(['-', ' '] + item)
  {
    NoDashesJoin(['-', ' '], item);
  }

  lemma DecimalIsPlain(n: nat)
    ensures PlainText(Decimal(n)) && ':' !in Decimal(n)
  {
    var s := Decimal(n);
    assert forall i | 0 <= i < |s| :: IsDigit(s[i]);
    assert forall c: char :: c in s ==> IsDigit(c);
    DashFree(s);
  }

  lemma ListIsGood(f: Field, items: seq<string>)
    requires PlainTexts(items)
    ensures PlainTexts(ListLines(f, items))
  {
    HeadIsGood(f);
    forall k | 0 <= k < |items|
      ensures PlainText(ItemLines(items)[k])
    {
      ItemIsGood(items[k]);
    }
  }

  lemma PlainConcat(a: seq<string>, b: seq<string>)
    requires PlainTexts(a) && PlainTexts(b)
    ensures PlainTexts(a + b)
  {
  }

  lemma LinesAreGood(s: Skill, number: Reader)
    requires Printable(s, number)
    ensures PlainTexts(Lines(s.frontmatter))
  {
    var f := s.frontmatter;
    ScalarIsGood(SkillId, f.skillId);
    DecimalIsPlain(f.version);
    ScalarIsGood(Version, Decimal(f.version));
    ListIsGood(CompatibleAgents, f.compatibleAgents);
    ListIsGood(RequiredMemory, f.requiredMemory);
    ListIsGood(OutputSchemas, f.outputSchemas);
    PlainConcat(ListLines(RequiredMemory, f.requiredMemory), ListLines(OutputSchemas, f.outputSchemas));
    PlainConcat(ListLines(CompatibleAgents, f.compatibleAgents),
                ListLines(RequiredMemory, f.requiredMemory) + ListLines(OutputSchemas, f.outputSchemas));
    PlainConcat([ScalarLine(Version, Decimal(f.version))], Lists(f));
    PlainConcat([ScalarLine(SkillId, f.skillId)], [ScalarLine(Version, Decimal(f.version))] + Lists(f));
  }

  lemma {:induction false} JoinedLines(lines: seq<string>)
    requires lines != [] && PlainTexts(lines)
    ensures var text := Join(lines, ['\n']); text != "" && Trimmed(text) && NoDashes(text)
  {
    if |lines| > 1 {
      var rest := Join(lines[1..], ['\n']);
      JoinedLines(lines[1..]);
      DashFree(['\n']);
      EndsAt(lines[0], '\n');
      NoDashesJoin(lines[0] + ['\n'], rest);
    }
  }

  /** A text followed by a character that is no dash has no new `---`. */
  lemma EndsAt(s: string, c: char)
    requires NoDashes(s) && c != '-'
    ensures NoDashes(s + [c])
  {
    forall i: nat
      ensures !DashesAt(s + [c], i)
    {
      assert !DashesAt(s, i);
    }
  }

  lemma OccursIsDashes(s: string, i: nat)
    ensures OccursAt(s, SEPARATOR, i) <==> DashesAt(s, i)
  {
    if i + 3 <= |s| {
      assert s[i..i + 3] == [s[i], s[i + 1], s[i + 2]];
    }
  }

  /** The block ends exactly at the separator printed after it. */
  lemma BlockIsOneChunk(f: Frontmatter, after: string)
    requires f.version >= 0 && PlainTexts(Lines(f))
    ensures Split(Block(f) + SEPARATOR + after, SEPARATOR) == [Block(f)] + Split(after, SEPARATOR)
  {
    var text := Join(Lines(f), ['\n']);
    JoinedLines(Lines(f));
    DashFree(['\n']);
    NoDashesJoin(['\n'], text);
    EndsAt(['\n'] + text, '\n');
    var b := Block(f);
    forall j: nat | j < |b|
      ensures !OccursAt(b + SEPARATOR, SEPARATOR, j)
    {
      assert !DashesAt(b, j);
      OccursIsDashes(b + SEPARATOR, j);
    }
    FindAt(b, SEPARATOR, after);
  }

  /** The chunks of a printed skill are nothing, the block, and the pieces of the body. */
  lemma PrintedChunks(s: Skill, number: Reader)
    requires Printable(s, number)
    ensures Split(Print(s), SEPARATOR) == [[]] + ([Block(s.frontmatter)] + Split(['\n'] + s.body, SEPARATOR))
    ensures Trim(Join(Split(['\n'] + s.body, SEPARATOR), SEPARATOR)) == s.body
  {
    LinesAreGood(s, number);
    FindAt([], SEPARATOR, Block(s.frontmatter) + SEPARATOR + (['\n'] + s.body));
    BlockIsOneChunk(s.frontmatter, ['\n'] + s.body);
    SplitThenJoin(['\n'] + s.body, SEPARATOR);
    TrimLineBreak(s.body);
  }

  lemma TrimLineBreak(body: string)
    requires Trimmed(body)
    ensures Trim(['\n'] + body) == body
  {
    assert (['\n'] + body)[1..] == body;
    assert TrimStart(['\n'] + body) == TrimStart(body);
  }

  lemma PrintedLines(s: Skill, number: Reader)
    requires Printable(s, number)
    ensures Split(Trim(Block(s.frontmatter)), ['\n']) == Lines(s.frontmatter)
  {
    var lines := Lines(s.frontmatter);
    LinesAreGood(s, number);
    JoinedLines(lines);
    TrimPadded(['\n'], Join(lines, ['\n']), ['\n']);
    JoinThenSplit(lines, '\n');
  }

  // ── Round trip ───────────────────────────────────────────────────────────

  function WithLists(parsed: map<string, Value>, f: Frontmatter): map<string, Value> {
    parsed[Name(CompatibleAgents) := List(f.compatibleAgents)]
          [Name(RequiredMemory) := List(f.requiredMemory)]
          [Name(OutputSchemas) := List(f.outputSchemas)]
  }

  lemma ListsFold(st: Scan, f: Frontmatter, number: Reader)
    requires PlainTexts(f.compatibleAgents) && PlainTexts(f.requiredMemory) && PlainTexts(f.outputSchemas)
    ensures Fold(st, Lists(f), number).parsed == WithLists(st.parsed, f)
  {
    var a := ListLines(CompatibleAgents, f.compatibleAgents);
    var b := ListLines(RequiredMemory, f.requiredMemory);
    var c := ListLines(OutputSchemas, f.outputSchemas);
    var st1 := Scan(st.parsed[Name(CompatibleAgents) := List(f.compatibleAgents)], Some(Name(CompatibleAgents)));
    var st2 := Scan(st1.parsed[Name(RequiredMemory) := List(f.requiredMemory)], Some(Name(RequiredMemory)));
    ListFold(st, CompatibleAgents, f.compatibleAgents, b + c, number);
    ListFold(st1, RequiredMemory, f.requiredMemory, c, number);
    ListFold(st2, OutputSchemas, f.outputSchemas, [], number);
    assert c + [] == c;
  }

  /** The record after the first printed line. */
  function AfterId(skillId: string, number: Reader): map<string, Value> {
    Step(Scan(map[], None), ScalarLine(SkillId, skillId), number).parsed
  }

  /** Whatever the first line left behind, the others fill in the other four fields. */
  lemma LinesFold(s: Skill, number: Reader)
    requires Printable(s, number)
    ensures var f := s.frontmatter;
            && Fold(Scan(map[], None), Lines(f), number).parsed
               == WithLists(AfterId(f.skillId, number)[Name(Version) := Num(Some(f.version))], f)
  {
    var f := s.frontmatter;
    var line1, line2 := ScalarLine(SkillId, f.skillId), ScalarLine(Version, Decimal(f.version));
    ScalarIsGood(SkillId, f.skillId);
    DecimalIsPlain(f.version);
    ScalarIsGood(Version, Decimal(f.version));
    TrimmedStays(line1);
    TrimmedStays(line2);
    var st1 := Step(Scan(map[], None), line1, number);
    ScalarStep(st1, Version, Decimal(f.version), number);
    var st2 := Step(st1, line2, number);
    assert Lines(f)[1..] == [line2] + Lists(f) && ([line2] + Lists(f))[1..] == Lists(f);
    ListsFold(st2, f, number);
  }

  /** The record left by the lines has every field in its place. */
  lemma CheckOfLists(parsed: map<string, Value>, f: Frontmatter)
    requires Name(SkillId) in parsed && f.version > 0 && f.skillId != ""
    requires NonEmptyAll(f.compatibleAgents) && NonEmptyAll(f.requiredMemory) && NonEmptyAll(f.outputSchemas)
    ensures Check(WithLists(parsed[Name(Version) := Num(Some(f.version))], f)) == Ok(f)
       <==> parsed[Name(SkillId)] == Words(f.skillId)
  {
    var all := WithLists(parsed[Name(Version) := Num(Some(f.version))], f);
    AllNamesDiffer();
    assert all[Name(SkillId)] == parsed[Name(SkillId)];
    assert HasVersion(all) && HasList(all, CompatibleAgents);
    assert HasList(all, RequiredMemory) && HasList(all, OutputSchemas);
  }

  lemma AllNamesDiffer()
    ensures forall f, g :: f != g ==> Name(f) != Name(g)
  {
    forall f, g | Name(f) == Name(g)
      ensures f == g
    {
      NamesDiffer(f, g);
    }
  }

  lemma ParseChunks(content: string, front: string, block: string, pieces: seq<string>, number: Reader)
    requires Split(content, SEPARATOR) == [front] + ([block] + pieces) && pieces != []
    ensures var checked := Check(Fold(Scan(map[], None), Split(Trim(block), ['\n']), number).parsed);
            Parse(content, number) ==
            if checked.Ok? then Ok(Skill(checked.value, Trim(Join(pieces, SEPARATOR)))) else Err(checked.error)
  {
    assert Split(content, SEPARATOR)[2..] == pieces;
  }

  lemma ParsePrinted(s: Skill, number: Reader)
    requires Printable(s, number)
    ensures var f := s.frontmatter;
            var checked := Check(WithLists(AfterId(f.skillId, number)[Name(Version) := Num(Some(f.version))], f));
            Parse(Print(s), number) == if checked.Ok? then Ok(Skill(checked.value, s.body)) else Err(checked.error)
  {
    PrintedChunks(s, number);
    PrintedLines(s, number);
    LinesFold(s, number);
    ParseChunks(Print(s), [], Block(s.frontmatter), Split(['\n'] + s.body, SEPARATOR), number);
  }

  lemma IdIsReadIfColonFree(skillId: string, number: Reader)
    requires PlainText(skillId)
    ensures Name(SkillId) in AfterId(skillId, number)
    ensures AfterId(skillId, number)[Name(SkillId)] == Words(skillId) <==> ':' !in skillId
  {
    if ':' in skillId {
      ColonCutsScalar(Scan(map[], None), skillId, number);
    } else {
      ScalarStep(Scan(map[], None), SkillId, skillId, number);
      AllNamesDiffer();
    }
  }

  /**
   * Printing a skill and parsing the text gives back the same frontmatter and
   * body exactly when the skill id holds no colon. The body may hold `---`, and
   * list items may hold colons.
   */
  lemma RoundTripsIfColonFree(s: Skill, number: Reader)
    requires Printable(s, number)
    ensures Parse(Print(s), number) == Ok(s) <==> ':' !in s.frontmatter.skillId
  {
    var f := s.frontmatter;
    ParsePrinted(s, number);
    IdIsReadIfColonFree(f.skillId, number);
    CheckOfLists(AfterId(f.skillId, number), f);
  }
}
