/**
 * The canonical serializer behind replay detection (`stableJson` and
 * `externalActionRequestDigest`, packages/db/src/external-actions-repository.ts).
 *
 * A JavaScript string is a sequence of UTF-16 code units, lone surrogates
 * included. A number is represented by the text JavaScript prints for it.
 * An object keeps its fields in insertion order, so that "equal up to the
 * order of keys" is a statement and not a convention.
 */
module StableJson {

  type CodeUnit = c: nat | c < 0x1_0000
  type JsString = seq<CodeUnit>

  const QUOTE: CodeUnit := 0x22
  const COMMA: CodeUnit := 0x2C
  const COLON: CodeUnit := 0x3A
  const LBRACKET: CodeUnit := 0x5B
  const BACKSLASH: CodeUnit := 0x5C
  const RBRACKET: CodeUnit := 0x5D
  const LOWER_U: CodeUnit := 0x75
  const LBRACE: CodeUnit := 0x7B
  const RBRACE: CodeUnit := 0x7D

  /** Digits, minus, plus, point, e. */
  predicate IsNumberUnit(c: CodeUnit) {
    0x30 <= c <= 0x39 || c in {0x2B, 0x2D, 0x2E, 0x65}
  }

  predicate IsNumberText(t: JsString) {
    && |t| > 0
    && (t[0] == 0x2D || 0x30 <= t[0] <= 0x39)
    && forall i | 0 <= i < |t| :: IsNumberUnit(t[i])
  }

  type NumberText = t: JsString | IsNumberText(t) witness [0x30]

  datatype Json =
    | Null
    | Bool(b: bool)
    | Number(text: NumberText)
    | Str(s: JsString)
    | Arr(items: seq<Json>)
    | Obj(fields: seq<Field>)

  datatype Field = Field(name: JsString, value: Json)

  /** A JavaScript object has no two fields of one name, at any depth. */
  predicate WellFormed(v: Json) {
    match v
    case Arr(items) => forall i | 0 <= i < |items| :: WellFormed(items[i])
    case Obj(fields) =>
      && (forall i, j | 0 <= i < j < |fields| :: fields[i].name != fields[j].name)
      && (forall i | 0 <= i < |fields| :: WellFormed(fields[i].value))
    case _ => true
  }

  function Names(fields: seq<Field>): (names: seq<JsString>)
    ensures |names| == |fields| && forall i | 0 <= i < |fields| :: names[i] == fields[i].name
  {
    seq(|fields|, i requires 0 <= i < |fields| => fields[i].name)
  }

  predicate SameNames(f: seq<Field>, g: seq<Field>) {
    && (forall i | 0 <= i < |f| :: f[i].name in Names(g))
    && (forall j | 0 <= j < |g| :: g[j].name in Names(f))
  }

  /** Equality up to the order of object keys, at every depth. */
  predicate Equivalent(v: Json, w: Json) {
    match v
    case Arr(xs) =>
      w.Arr? && |xs| == |w.items| && forall i | 0 <= i < |xs| :: Equivalent(xs[i], w.items[i])
    case Obj(f) =>
      && w.Obj? && SameNames(f, w.fields)
      && forall i, j | 0 <= i < |f| && 0 <= j < |w.fields| && f[i].name == w.fields[j].name ::
           Equivalent(f[i].value, w.fields[j].value)
    case _ => v == w
  }

  // ── JSON.stringify on strings ────────────────────────────────────────────

  function HexUnit(d: nat): CodeUnit
    requires d < 16
  {
    if d < 10 then 0x30 + d else 0x57 + d
  }

  function UnicodeEscape(c: CodeUnit): (r: JsString)
    ensures |r| == 6
  {
    [BACKSLASH, LOWER_U, HexUnit(c / 16 / 16 / 16), HexUnit(c / 16 / 16 % 16), HexUnit(c / 16 % 16), HexUnit(c % 16)]
  }

  predicate IsHigh(c: CodeUnit) {
    0xD800 <= c <= 0xDBFF
  }

  predicate IsLow(c: CodeUnit) {
    0xDC00 <= c <= 0xDFFF
  }

  predicate StartsWithPair(s: JsString) {
    |s| >= 2 && IsHigh(s[0]) && IsLow(s[1])
  }

  /** The short escape's letter, or 0 when the unit has none. */
  function ShortEscape(c: CodeUnit): CodeUnit {
    if c == QUOTE then QUOTE
    else if c == BACKSLASH then BACKSLASH
    else if c == 0x08 then 0x62
    else if c == 0x09 then 0x74
    else if c == 0x0A then 0x6E
    else if c == 0x0C then 0x66
    else if c == 0x0D then 0x72
    else 0
  }

  /** How one unit outside a surrogate pair is printed. */
  function EscapeUnit(c: CodeUnit): JsString {
    if ShortEscape(c) != 0 then [BACKSLASH, ShortEscape(c)]
    else if c < 0x20 || IsHigh(c) || IsLow(c) then UnicodeEscape(c)
    else [c]
  }

  /** Number of units the first printed chunk stands for. */
  function ChunkSize(s: JsString): nat
    requires s != []
  {
    if StartsWithPair(s) then 2 else 1
  }

  function Chunk(s: JsString): (r: JsString)
    requires s != []
    ensures |r| > 0
  {
    if StartsWithPair(s) then s[..2] else EscapeUnit(s[0])
  }

  function QuoteBody(s: JsString): JsString {
    if s == [] then [] else Chunk(s) + QuoteBody(s[ChunkSize(s)..])
  }

  function Quote(s: JsString): JsString {
    [QUOTE] + QuoteBody(s) + [QUOTE]
  }

  // ── Sorting and joining ──────────────────────────────────────────────────

  /** Lexicographic order on code units: what `sort()` uses. */
  predicate Less(a: JsString, b: JsString) {
    b != [] && (a == [] || a[0] < b[0] || (a[0] == b[0] && Less(a[1..], b[1..])))
  }

  function Insert(k: JsString, ks: seq<JsString>): seq<JsString> {
    if ks == [] || !Less(ks[0], k) then [k] + ks else [ks[0]] + Insert(k, ks[1..])
  }

  function Sort(ks: seq<JsString>): seq<JsString> {
    if ks == [] then [] else Insert(ks[0], Sort(ks[1..]))
  }

  function Join(parts: seq<JsString>): JsString {
    if parts == [] then []
    else parts[0] + (if |parts| == 1 then [] else [COMMA] + Join(parts[1..]))
  }

  function IndexOf(fields: seq<Field>, k: JsString): (i: nat)
    requires k in Names(fields)
    ensures i < |fields| && fields[i].name == k
  {
    assert fields != [];
    if fields[0].name == k then 0
    else
      assert Names(fields) == [fields[0].name] + Names(fields[1..]);
      IndexOf(fields[1..], k) + 1
  }

  // ── The serializer ───────────────────────────────────────────────────────

  function StableJson(v: Json): JsString
    decreases v, 0
  {
    match v
    case Null => [0x6E, 0x75, 0x6C, 0x6C]
    case Bool(b) => if b then [0x74, 0x72, 0x75, 0x65] else [0x66, 0x61, 0x6C, 0x73, 0x65]
    case Number(t) => t
    case Str(s) => Quote(s)
    case Arr(items) => [LBRACKET] + Join(Elements(items)) + [RBRACKET]
    case Obj(fields) =>
      SortKeepsMembers(Names(fields));
      [LBRACE] + Join(Members(fields, Sort(Names(fields)))) + [RBRACE]
  }

  /** `value.map(stableJson)` */
  function Elements(items: seq<Json>): (r: seq<JsString>)
    ensures |r| == |items|
    decreases items, 0
  {
    if items == [] then [] else [StableJson(items[0])] + Elements(items[1..])
  }

  /** One `"key":value` part per key. */
  function Members(fields: seq<Field>, ks: seq<JsString>): (r: seq<JsString>)
    requires forall i | 0 <= i < |ks| :: ks[i] in Names(fields)
    ensures |r| == |ks|
    decreases fields, |ks|
  {
    if ks == [] then []
    else
      [Quote(ks[0]) + [COLON] + StableJson(fields[IndexOf(fields, ks[0])].value)] + Members(fields, ks[1..])
  }

  // ── The order is a strict total order, and sorting is canonical ──────────

  lemma {:induction false} LessIsStrict(a: JsString, b: JsString)
    ensures !(Less(a, b) && Less(b, a))
    ensures a == b || Less(a, b) || Less(b, a)
    ensures !Less(a, a)
  {
    if a != [] {
      LessIsStrict(a[1..], if b == [] then [] else b[1..]);
      if b != [] && a[0] == b[0] && a[1..] == b[1..] {
        assert a == [a[0]] + a[1..] && b == [b[0]] + b[1..];
      }
    }
  }

  lemma {:induction false} LessTransitive(a: JsString, b: JsString, c: JsString)
    requires Less(a, b) && Less(b, c)
    ensures Less(a, c)
  {
    if a != [] && a[0] == b[0] == c[0] {
      LessTransitive(a[1..], b[1..], c[1..]);
    }
  }

  predicate Sorted(ks: seq<JsString>) {
    forall i, j | 0 <= i < j < |ks| :: Less(ks[i], ks[j])
  }

  predicate Distinct(ks: seq<JsString>) {
    forall i, j | 0 <= i < j < |ks| :: ks[i] != ks[j]
  }

  lemma {:induction false} InsertMembers(k: JsString, ks: seq<JsString>)
    ensures multiset(Insert(k, ks)) == multiset(ks) + multiset{k}
  {
    if !(ks == [] || !Less(ks[0], k)) {
      InsertMembers(k, ks[1..]);
      assert ks == [ks[0]] + ks[1..];
    }
  }

  lemma {:induction false} SortIsPermutation(ks: seq<JsString>)
    ensures multiset(Sort(ks)) == multiset(ks)
  {
    if ks != [] {
      SortIsPermutation(ks[1..]);
      InsertMembers(ks[0], Sort(ks[1..]));
      assert ks == [ks[0]] + ks[1..];
    }
  }

  lemma SortKeepsMembers(ks: seq<JsString>)
    ensures forall k :: k in Sort(ks) <==> k in ks
    ensures forall i | 0 <= i < |Sort(ks)| :: Sort(ks)[i] in ks
  {
    SortIsPermutation(ks);
    assert forall k :: k in multiset(Sort(ks)) <==> k in multiset(ks);
    assert forall i | 0 <= i < |Sort(ks)| :: Sort(ks)[i] in multiset(Sort(ks));
  }

  lemma {:induction false} InsertSorted(k: JsString, ks: seq<JsString>)
    requires Sorted(ks) && k !in ks
    ensures Sorted(Insert(k, ks))
  {
    if ks == [] {
    } else {
      LessIsStrict(ks[0], k);
      assert ks[0] in ks;
      if Less(ks[0], k) {
        InsertSorted(k, ks[1..]);
        InsertMembers(k, ks[1..]);
        var rest := Insert(k, ks[1..]);
        forall i | 0 <= i < |rest|
          ensures Less(ks[0], rest[i])
        {
          assert rest[i] in multiset(rest);
        }
      } else {
        forall i | 0 <= i < |ks|
          ensures Less(k, ks[i])
        {
          if i > 0 {
            LessTransitive(k, ks[0], ks[i]);
          }
        }
      }
    }
  }

  lemma {:induction false} SortSorts(ks: seq<JsString>)
    requires Distinct(ks)
    ensures Sorted(Sort(ks))
  {
    if ks != [] {
      SortSorts(ks[1..]);
      SortKeepsMembers(ks[1..]);
      InsertSorted(ks[0], Sort(ks[1..]));
    }
  }

  lemma SharedMember(ks: seq<JsString>, ls: seq<JsString>)
    requires ks != [] && forall k :: k in ks <==> k in ls
    ensures ls != [] && ks[0] in ls
  {
    assert ks[0] in ks;
  }

  /** A set of names has one sorted listing. */
  lemma {:induction false} SortedListingIsUnique(ks: seq<JsString>, ls: seq<JsString>)
    requires Sorted(ks) && Sorted(ls)
    requires forall k :: k in ks <==> k in ls
    ensures ks == ls
  {
    if ks == [] {
      if ls != [] {
        SharedMember(ls, ks);
      }
    } else {
      SharedMember(ks, ls);
      SharedMember(ls, ks);
      LessIsStrict(ks[0], ls[0]);
      assert ks[0] == ls[0];
      LessIsStrict(ks[0], ks[0]);
      assert ks[0] !in ks[1..] && ls[0] !in ls[1..];
      assert forall k :: k in ks <==> k == ks[0] || k in ks[1..];
      assert forall k :: k in ls <==> k == ls[0] || k in ls[1..];
      SortedListingIsUnique(ks[1..], ls[1..]);
    }
  }

  // ── Unique decoding of strings ───────────────────────────────────────────

  lemma HexDigitsDetermine(c: CodeUnit, d: CodeUnit)
    requires UnicodeEscape(c) == UnicodeEscape(d)
    ensures c == d
  {
    var s, t := UnicodeEscape(c), UnicodeEscape(d);
    assert s[2] == t[2] && s[3] == t[3] && s[4] == t[4] && s[5] == t[5];
    HexUnitInjective(c / 16 / 16 / 16, d / 16 / 16 / 16);
    HexUnitInjective(c / 16 / 16 % 16, d / 16 / 16 % 16);
    HexUnitInjective(c / 16 % 16, d / 16 % 16);
    HexUnitInjective(c % 16, d % 16);
  }

  lemma HexUnitInjective(d: nat, e: nat)
    requires d < 16 && e < 16 && HexUnit(d) == HexUnit(e)
    ensures d == e
  {
  }

  /** Length of a printed chunk, read off its first two units. */
  function ChunkLength(t: JsString): nat
    requires t != []
  {
    if t[0] == BACKSLASH then (if |t| > 1 && t[1] == LOWER_U then 6 else 2)
    else if IsHigh(t[0]) then 2
    else 1
  }

  lemma ChunkIsSelfDelimiting(s: JsString, rest: JsString)
    requires s != []
    ensures ChunkLength(Chunk(s) + rest) == |Chunk(s)|
    ensures Chunk(s)[0] != QUOTE
  {
  }

  lemma ChunkDeterminesUnits(s: JsString, t: JsString)
    requires s != [] && t != [] && Chunk(s) == Chunk(t)
    ensures ChunkSize(s) == ChunkSize(t) && s[..ChunkSize(s)] == t[..ChunkSize(t)]
  {
    if StartsWithPair(s) || StartsWithPair(t) {
      assert IsHigh(Chunk(s)[0]) && IsHigh(Chunk(t)[0]);
    } else {
      assert Chunk(s) == EscapeUnit(s[0]) && Chunk(t) == EscapeUnit(t[0]);
      if |Chunk(s)| == 6 {
        HexDigitsDetermine(s[0], t[0]);
      }
    }
  }

  lemma QuoteStep(s: JsString, r: JsString)
    requires s != []
    ensures var u := QuoteBody(s) + [QUOTE] + r;
            var n := |Chunk(s)|;
            && u[0] != QUOTE && ChunkLength(u) == n && n <= |u| && u[..n] == Chunk(s)
            && u[n..] == QuoteBody(s[ChunkSize(s)..]) + [QUOTE] + r
  {
    ChunkIsSelfDelimiting(s, QuoteBody(s[ChunkSize(s)..]) + [QUOTE] + r);
    assert QuoteBody(s) + [QUOTE] + r == Chunk(s) + (QuoteBody(s[ChunkSize(s)..]) + [QUOTE] + r);
  }

  lemma {:induction false} QuoteBodyUnique(s: JsString, t: JsString, r: JsString, q: JsString)
    requires QuoteBody(s) + [QUOTE] + r == QuoteBody(t) + [QUOTE] + q
    ensures s == t && r == q
    decreases |s|
  {
    var u := QuoteBody(s) + [QUOTE] + r;
    if s != [] {
      QuoteStep(s, r);
    }
    if t != [] {
      QuoteStep(t, q);
    }
    assert s == [] <==> t == [];
    if s == [] {
      assert u[1..] == r && u[1..] == q;
    } else {
      ChunkDeterminesUnits(s, t);
      QuoteBodyUnique(s[ChunkSize(s)..], t[ChunkSize(t)..], r, q);
      assert s == s[..ChunkSize(s)] + s[ChunkSize(s)..];
      assert t == t[..ChunkSize(t)] + t[ChunkSize(t)..];
    }
  }

  lemma QuoteUnique(s: JsString, t: JsString, r: JsString, q: JsString)
    requires Quote(s) + r == Quote(t) + q
    ensures s == t && r == q
  {
    assert (Quote(s) + r)[1..] == QuoteBody(s) + [QUOTE] + r;
    assert (Quote(t) + q)[1..] == QuoteBody(t) + [QUOTE] + q;
    QuoteBodyUnique(s, t, r, q);
  }

  // ── Unique decoding of values ────────────────────────────────────────────

  datatype Kind = KNull | KTrue | KFalse | KNumber | KStr | KArr | KObj | KNone

  function KindOf(v: Json): Kind {
    match v
    case Null => KNull
    case Bool(b) => if b then KTrue else KFalse
    case Number(_) => KNumber
    case Str(_) => KStr
    case Arr(_) => KArr
    case Obj(_) => KObj
  }

  /** What the first unit of a value's text says about the value. */
  function KindOfLead(c: CodeUnit): Kind {
    if c == 0x6E then KNull
    else if c == 0x74 then KTrue
    else if c == 0x66 then KFalse
    else if c == 0x2D || 0x30 <= c <= 0x39 then KNumber
    else if c == QUOTE then KStr
    else if c == LBRACKET then KArr
    else if c == LBRACE then KObj
    else KNone
  }

  lemma LeadDeterminesKind(v: Json, r: JsString)
    ensures var u := StableJson(v) + r; u != [] && KindOfLead(u[0]) == KindOf(v)
  {
  }

  /** Text that may follow a value. */
  predicate Ends(r: JsString) {
    r == [] || r[0] in {COMMA, RBRACKET, RBRACE}
  }

  function NumberPrefix(s: JsString): nat {
    if s == [] || !IsNumberUnit(s[0]) then 0 else NumberPrefix(s[1..]) + 1
  }

  lemma {:induction false} NumberPrefixStops(t: JsString, r: JsString)
    requires Ends(r) && forall i | 0 <= i < |t| :: IsNumberUnit(t[i])
    ensures NumberPrefix(t + r) == |t|
  {
    if t != [] {
      assert (t + r)[1..] == t[1..] + r;
      NumberPrefixStops(t[1..], r);
    } else {
      assert t + r == r;
    }
  }

  /** What follows the first part of a joined list closed by c. */
  function AfterFirst(parts: seq<JsString>, c: CodeUnit, r: JsString): JsString
    requires parts != []
  {
    (if |parts| == 1 then [] else [COMMA] + Join(parts[1..])) + [c] + r
  }

  lemma Reassociate(a: JsString, b: JsString, c: JsString, d: JsString)
    ensures a + b + c + d == a + (b + c + d)
  {
  }

  /** Equal texts whose first parts have equal lengths agree part by part. */
  lemma SplitEqual(a: JsString, r: JsString, b: JsString, q: JsString)
    requires a + r == b + q && |a| == |b|
    ensures a == b && r == q
  {
    assert a == (a + r)[..|a|] && b == (b + q)[..|a|];
    assert r == (a + r)[|a|..] && q == (b + q)[|a|..];
  }

  lemma JoinStep(parts: seq<JsString>, c: CodeUnit, r: JsString)
    requires parts != []
    ensures Join(parts) + [c] + r == parts[0] + AfterFirst(parts, c, r)
  {
    Reassociate(parts[0], if |parts| == 1 then [] else [COMMA] + Join(parts[1..]), [c], r);
  }

  lemma AfterFirstShows(parts: seq<JsString>, c: CodeUnit, r: JsString)
    requires parts != []
    ensures var t := AfterFirst(parts, c, r);
            if |parts| == 1 then t == [c] + r
            else t == [COMMA] + (Join(parts[1..]) + [c] + r)
  {
    if |parts| > 1 {
      Reassociate([COMMA], Join(parts[1..]), [c], r);
    }
  }

  /** Past equal first parts, two closed lists either both end or both go on with equal text. */
  lemma TailsAgree(ps: seq<JsString>, qs: seq<JsString>, c: CodeUnit, r: JsString, q: JsString)
    requires ps != [] && qs != [] && c != COMMA && AfterFirst(ps, c, r) == AfterFirst(qs, c, q)
    ensures |ps| == 1 <==> |qs| == 1
    ensures if |ps| == 1 then r == q else Join(ps[1..]) + [c] + r == Join(qs[1..]) + [c] + q
  {
    AfterFirstShows(ps, c, r);
    AfterFirstShows(qs, c, q);
    var t := AfterFirst(ps, c, r);
    assert t[0] == (if |ps| == 1 then c else COMMA) && t[0] == (if |qs| == 1 then c else COMMA);
    if |ps| == 1 {
      SplitEqual([c], r, [c], q);
    } else {
      SplitEqual([COMMA], Join(ps[1..]) + [c] + r, [COMMA], Join(qs[1..]) + [c] + q);
    }
  }

  lemma EmptyJoin(c: CodeUnit, r: JsString)
    ensures Join([]) + [c] + r == [c] + r
  {
  }

  lemma AfterFirstEnds(parts: seq<JsString>, c: CodeUnit, r: JsString)
    requires parts != [] && c in {RBRACKET, RBRACE}
    ensures Ends(AfterFirst(parts, c, r))
  {
    AfterFirstShows(parts, c, r);
  }

  lemma ElementsStep(items: seq<Json>)
    requires items != []
    ensures Elements(items)[0] == StableJson(items[0])
    ensures Elements(items)[1..] == Elements(items[1..])
  {
  }

  lemma NumberUnique(t: NumberText, t': NumberText, r: JsString, q: JsString)
    requires t + r == t' + q && Ends(r) && Ends(q)
    ensures t == t' && r == q
  {
    NumberPrefixStops(t, r);
    NumberPrefixStops(t', q);
    SplitEqual(t, r, t', q);
  }

  /** Dropping an equal opening bracket. */
  lemma Unwrap(open: CodeUnit, a: JsString, close: CodeUnit, r: JsString)
    ensures [open] + a + [close] + r == [open] + (a + [close] + r)
  {
    Reassociate([open], a, [close], r);
  }

  /** The text of a value, wherever it stands, is the text of one value only. */
  lemma {:induction false} ValueUnique(v: Json, w: Json, r: JsString, q: JsString)
    requires WellFormed(v) && WellFormed(w)
    requires StableJson(v) + r == StableJson(w) + q && Ends(r) && Ends(q)
    ensures Equivalent(v, w) && r == q
    decreases v, 0
  {
    LeadDeterminesKind(v, r);
    LeadDeterminesKind(w, q);
    if v.Arr? {
      Unwrap(LBRACKET, Join(Elements(v.items)), RBRACKET, r);
      Unwrap(LBRACKET, Join(Elements(w.items)), RBRACKET, q);
      SplitEqual([LBRACKET], Join(Elements(v.items)) + [RBRACKET] + r,
                 [LBRACKET], Join(Elements(w.items)) + [RBRACKET] + q);
      ElementsUnique(v.items, w.items, r, q);
    } else if v.Obj? {
      ObjectUnique(v.fields, w.fields, r, q);
    } else if v.Str? {
      QuoteUnique(v.s, w.s, r, q);
    } else if v.Number? {
      NumberUnique(v.text, w.text, r, q);
    } else {
      SplitEqual(StableJson(v), r, StableJson(w), q);
    }
  }

  lemma {:induction false} ElementsUnique(xs: seq<Json>, ys: seq<Json>, r: JsString, q: JsString)
    requires forall i | 0 <= i < |xs| :: WellFormed(xs[i])
    requires forall i | 0 <= i < |ys| :: WellFormed(ys[i])
    requires Join(Elements(xs)) + [RBRACKET] + r == Join(Elements(ys)) + [RBRACKET] + q
    ensures |xs| == |ys| && r == q && forall i | 0 <= i < |xs| :: Equivalent(xs[i], ys[i])
    decreases xs, 0
  {
    ListHeadShows(xs, r);
    ListHeadShows(ys, q);
    if xs == [] {
      EmptyJoin(RBRACKET, r);
      EmptyJoin(RBRACKET, q);
      SplitEqual([RBRACKET], r, [RBRACKET], q);
    } else {
      var ps, qs := Elements(xs), Elements(ys);
      JoinStep(ps, RBRACKET, r);
      JoinStep(qs, RBRACKET, q);
      ElementsStep(xs);
      ElementsStep(ys);
      AfterFirstEnds(ps, RBRACKET, r);
      AfterFirstEnds(qs, RBRACKET, q);
      ValueUnique(xs[0], ys[0], AfterFirst(ps, RBRACKET, r), AfterFirst(qs, RBRACKET, q));
      TailsAgree(ps, qs, RBRACKET, r, q);
      if |xs| > 1 {
        ElementsUnique(xs[1..], ys[1..], r, q);
        forall i | 1 <= i < |xs|
          ensures Equivalent(xs[i], ys[i])
        {
          assert Equivalent(xs[1..][i - 1], ys[1..][i - 1]);
        }
      }
    }
  }

  /** The list is empty exactly when its text starts with the closing bracket. */
  lemma ListHeadShows(xs: seq<Json>, r: JsString)
    ensures var u := Join(Elements(xs)) + [RBRACKET] + r; (u[0] == RBRACKET) == (xs == [])
  {
    if xs != [] {
      JoinStep(Elements(xs), RBRACKET, r);
      LeadDeterminesKind(xs[0], AfterFirst(Elements(xs), RBRACKET, r));
    }
  }

  lemma MembersStep(f: seq<Field>, ks: seq<JsString>)
    requires ks != [] && forall i | 0 <= i < |ks| :: ks[i] in Names(f)
    ensures Members(f, ks)[0] == Quote(ks[0]) + [COLON] + StableJson(f[IndexOf(f, ks[0])].value)
    ensures Members(f, ks)[1..] == Members(f, ks[1..])
  {
  }

  lemma MembersHeadShows(f: seq<Field>, ks: seq<JsString>, r: JsString)
    requires forall i | 0 <= i < |ks| :: ks[i] in Names(f)
    ensures var u := Join(Members(f, ks)) + [RBRACE] + r; (u[0] == RBRACE) == (ks == [])
  {
    if ks != [] {
      JoinStep(Members(f, ks), RBRACE, r);
      MembersStep(f, ks);
    }
  }

  function Get(f: seq<Field>, k: JsString): Json
    requires k in Names(f)
  {
    f[IndexOf(f, k)].value
  }

  /** The text of one member fixes its key and leaves the same value text. */
  lemma MemberUnique(k: JsString, a: JsString, tf: JsString, l: JsString, b: JsString, tg: JsString)
    requires Quote(k) + [COLON] + a + tf == Quote(l) + [COLON] + b + tg
    ensures k == l && a + tf == b + tg
  {
    Reassociate(Quote(k), [COLON], a, tf);
    Reassociate(Quote(l), [COLON], b, tg);
    QuoteUnique(k, l, [COLON] + a + tf, [COLON] + b + tg);
    assert [COLON] + a + tf == [COLON] + (a + tf) && [COLON] + b + tg == [COLON] + (b + tg);
    SplitEqual([COLON], a + tf, [COLON], b + tg);
  }

  ghost predicate ValuesAgree(f: seq<Field>, g: seq<Field>, ks: seq<JsString>) {
    forall k | k in ks :: k in Names(f) && k in Names(g) && Equivalent(Get(f, k), Get(g, k))
  }

  predicate AllIn(ks: seq<JsString>, f: seq<Field>) {
    forall i | 0 <= i < |ks| :: ks[i] in Names(f)
  }

  lemma MembersHeadUnique(f: seq<Field>, ks: seq<JsString>, g: seq<Field>, ls: seq<JsString>,
                          r: JsString, q: JsString)
    requires ks != [] && ls != [] && AllIn(ks, f) && AllIn(ls, g)
    requires Join(Members(f, ks)) + [RBRACE] + r == Join(Members(g, ls)) + [RBRACE] + q
    ensures ks[0] == ls[0]
    ensures StableJson(Get(f, ks[0])) + AfterFirst(Members(f, ks), RBRACE, r)
         == StableJson(Get(g, ls[0])) + AfterFirst(Members(g, ls), RBRACE, q)
  {
    var ps, qs := Members(f, ks), Members(g, ls);
    JoinStep(ps, RBRACE, r);
    JoinStep(qs, RBRACE, q);
    MembersStep(f, ks);
    MembersStep(g, ls);
    MemberUnique(ks[0], StableJson(Get(f, ks[0])), AfterFirst(ps, RBRACE, r),
                 ls[0], StableJson(Get(g, ls[0])), AfterFirst(qs, RBRACE, q));
  }

  lemma {:induction false} MembersUnique(f: seq<Field>, ks: seq<JsString>, g: seq<Field>, ls: seq<JsString>,
                                         r: JsString, q: JsString)
    requires forall i | 0 <= i < |f| :: WellFormed(f[i].value)
    requires forall i | 0 <= i < |g| :: WellFormed(g[i].value)
    requires AllIn(ks, f) && AllIn(ls, g)
    requires Join(Members(f, ks)) + [RBRACE] + r == Join(Members(g, ls)) + [RBRACE] + q
    ensures ks == ls && r == q && ValuesAgree(f, g, ks)
    decreases f, |ks|, 1
  {
    MembersHeadShows(f, ks, r);
    MembersHeadShows(g, ls, q);
    if ks == [] {
      EmptyJoin(RBRACE, r);
      EmptyJoin(RBRACE, q);
      SplitEqual([RBRACE], r, [RBRACE], q);
    } else {
      var tf, tg := AfterFirst(Members(f, ks), RBRACE, r), AfterFirst(Members(g, ls), RBRACE, q);
      MembersHeadUnique(f, ks, g, ls, r, q);
      AfterFirstEnds(Members(f, ks), RBRACE, r);
      AfterFirstEnds(Members(g, ls), RBRACE, q);
      ValueUnique(f[IndexOf(f, ks[0])].value, Get(g, ls[0]), tf, tg);
      MembersRestUnique(f, ks, g, ls, r, q);
    }
  }

  lemma {:induction false} MembersRestUnique(f: seq<Field>, ks: seq<JsString>, g: seq<Field>, ls: seq<JsString>,
                                             r: JsString, q: JsString)
    requires forall i | 0 <= i < |f| :: WellFormed(f[i].value)
    requires forall i | 0 <= i < |g| :: WellFormed(g[i].value)
    requires AllIn(ks, f) && AllIn(ls, g) && ks != [] && ls != [] && ks[0] == ls[0]
    requires Equivalent(Get(f, ks[0]), Get(g, ks[0]))
    requires AfterFirst(Members(f, ks), RBRACE, r) == AfterFirst(Members(g, ls), RBRACE, q)
    ensures ks == ls && r == q && ValuesAgree(f, g, ks)
    decreases f, |ks|, 0
  {
    TailsAgree(Members(f, ks), Members(g, ls), RBRACE, r, q);
    if |ks| > 1 {
      MembersStep(f, ks);
      MembersStep(g, ls);
      MembersUnique(f, ks[1..], g, ls[1..], r, q);
      assert ks == [ks[0]] + ks[1..] && ls == [ls[0]] + ls[1..];
    }
    ValuesAgreeCons(f, g, ks);
  }

  lemma ValuesAgreeCons(f: seq<Field>, g: seq<Field>, ks: seq<JsString>)
    requires ks != [] && ks[0] in Names(f) && ks[0] in Names(g) && Equivalent(Get(f, ks[0]), Get(g, ks[0]))
    requires ValuesAgree(f, g, ks[1..])
    ensures ValuesAgree(f, g, ks)
  {
    assert forall k | k in ks :: k == ks[0] || k in ks[1..];
  }

  lemma IndexOfOwnName(f: seq<Field>, i: nat)
    requires i < |f| && forall i, j | 0 <= i < j < |f| :: f[i].name != f[j].name
    ensures f[i].name in Names(f) && IndexOf(f, f[i].name) == i
  {
    assert Names(f)[i] == f[i].name;
  }

  lemma ValuesAgreeIsEquivalence(f: seq<Field>, g: seq<Field>, ks: seq<JsString>)
    requires WellFormed(Obj(f)) && WellFormed(Obj(g))
    requires forall k :: k in ks <==> k in Names(f)
    requires forall k :: k in ks <==> k in Names(g)
    ensures ValuesAgree(f, g, ks) <==> Equivalent(Obj(f), Obj(g))
  {
    forall i | 0 <= i < |f|
      ensures f[i].name in ks && f[i].name in Names(g) && Get(f, f[i].name) == f[i].value
    {
      IndexOfOwnName(f, i);
    }
    forall j | 0 <= j < |g|
      ensures g[j].name in ks && g[j].name in Names(f) && Get(g, g[j].name) == g[j].value
    {
      IndexOfOwnName(g, j);
    }
    if Equivalent(Obj(f), Obj(g)) {
      forall k | k in ks
        ensures Equivalent(Get(f, k), Get(g, k))
      {
        assert f[IndexOf(f, k)].name == g[IndexOf(g, k)].name;
      }
    }
  }

  lemma {:induction false} ObjectUnique(f: seq<Field>, g: seq<Field>, r: JsString, q: JsString)
    requires WellFormed(Obj(f)) && WellFormed(Obj(g))
    requires StableJson(Obj(f)) + r == StableJson(Obj(g)) + q
    ensures Equivalent(Obj(f), Obj(g)) && r == q
    decreases f, |f| + 1
  {
    var ks, ls := Sort(Names(f)), Sort(Names(g));
    SortKeepsMembers(Names(f));
    SortKeepsMembers(Names(g));
    SortKeepsLength(Names(f));
    Unwrap(LBRACE, Join(Members(f, ks)), RBRACE, r);
    Unwrap(LBRACE, Join(Members(g, ls)), RBRACE, q);
    SplitEqual([LBRACE], Join(Members(f, ks)) + [RBRACE] + r, [LBRACE], Join(Members(g, ls)) + [RBRACE] + q);
    MembersUnique(f, ks, g, ls, r, q);
    ValuesAgreeIsEquivalence(f, g, ks);
  }

  lemma SortKeepsLength(ks: seq<JsString>)
    ensures |Sort(ks)| == |ks|
  {
    SortIsPermutation(ks);
    assert |multiset(Sort(ks))| == |Sort(ks)| && |multiset(ks)| == |ks|;
  }

  // ── Equal values print alike ─────────────────────────────────────────────

  lemma {:induction false} EquivalentSameText(v: Json, w: Json)
    requires WellFormed(v) && WellFormed(w) && Equivalent(v, w)
    ensures StableJson(v) == StableJson(w)
    decreases v, 0
  {
    if v.Arr? {
      ElementsSameText(v.items, w.items);
    } else if v.Obj? {
      ObjectsSameText(v.fields, w.fields);
    }
  }

  lemma {:induction false} ElementsSameText(xs: seq<Json>, ys: seq<Json>)
    requires |xs| == |ys|
    requires forall i | 0 <= i < |xs| :: WellFormed(xs[i]) && WellFormed(ys[i]) && Equivalent(xs[i], ys[i])
    ensures Elements(xs) == Elements(ys)
    decreases xs, 0
  {
    if xs != [] {
      EquivalentSameText(xs[0], ys[0]);
      ElementsSameText(xs[1..], ys[1..]);
    }
  }

  lemma {:induction false} MembersSameText(f: seq<Field>, g: seq<Field>, ks: seq<JsString>)
    requires forall i | 0 <= i < |f| :: WellFormed(f[i].value)
    requires forall i | 0 <= i < |g| :: WellFormed(g[i].value)
    requires AllIn(ks, f) && AllIn(ks, g) && ValuesAgree(f, g, ks)
    ensures Members(f, ks) == Members(g, ks)
    decreases f, |ks|
  {
    if ks != [] {
      assert ks[0] in ks && forall k | k in ks[1..] :: k in ks;
      EquivalentSameText(f[IndexOf(f, ks[0])].value, Get(g, ks[0]));
      MembersSameText(f, g, ks[1..]);
    }
  }

  lemma {:induction false} ObjectsSameText(f: seq<Field>, g: seq<Field>)
    requires WellFormed(Obj(f)) && WellFormed(Obj(g)) && Equivalent(Obj(f), Obj(g))
    ensures StableJson(Obj(f)) == StableJson(Obj(g))
    decreases f, |f| + 1
  {
    var ks := Sort(Names(f));
    SortKeepsMembers(Names(f));
    SortKeepsMembers(Names(g));
    SortSorts(Names(f));
    SortSorts(Names(g));
    forall k
      ensures k in Names(f) <==> k in Names(g)
    {
      if k in Names(f) {
        assert f[IndexOf(f, k)].name in Names(g);
      }
      if k in Names(g) {
        assert g[IndexOf(g, k)].name in Names(f);
      }
    }
    SortedListingIsUnique(ks, Sort(Names(g)));
    ValuesAgreeIsEquivalence(f, g, ks);
    SortKeepsLength(Names(f));
    MembersSameText(f, g, ks);
  }

  /**
   * The serializer is canonical and injective: two JSON values have the same
   * text exactly when they are equal up to the order of keys at every depth.
   */
  lemma StableJsonIsCanonical(v: Json, w: Json)
    requires WellFormed(v) && WellFormed(w)
    ensures StableJson(v) == StableJson(w) <==> Equivalent(v, w)
  {
    if StableJson(v) == StableJson(w) {
      assert StableJson(v) + [] == StableJson(w) + [];
      ValueUnique(v, w, [], []);
    }
    if Equivalent(v, w) {
      EquivalentSameText(v, w);
    }
  }

  // ── Request digests ──────────────────────────────────────────────────────

  /** The UTF-16 form of a string. */
  function Utf16(s: string): JsString {
    if s == [] then []
    else
      var c := s[0] as int;
      (if c < 0x1_0000 then [c] else [0xD800 + (c - 0x1_0000) / 0x400, 0xDC00 + (c - 0x1_0000) % 0x400])
      + Utf16(s[1..])
  }

  lemma {:induction false} Utf16Injective(s: string, t: string)
    requires Utf16(s) == Utf16(t)
    ensures s == t
  {
    if s != [] && t != [] {
      var u, w := Utf16(s), Utf16(t);
      assert IsHigh(u[0]) <==> s[0] as int >= 0x1_0000;
      assert IsHigh(w[0]) <==> t[0] as int >= 0x1_0000;
      var n := if IsHigh(u[0]) then 2 else 1;
      assert Utf16(s[1..]) == u[n..] && Utf16(t[1..]) == w[n..];
      assert s[0] as int == t[0] as int by {
        if n == 2 {
          assert u[0] == w[0] && u[1] == w[1];
        }
      }
      Utf16Injective(s[1..], t[1..]);
      assert s == [s[0]] + s[1..] && t == [t[0]] + t[1..];
    }
  }

  datatype Request = Request(
    tenantId: string,
    actionId: string,
    actionType: string,
    approvedBy: string,
    idempotencyKey: string,
    requestPayload: Json)

  const DIGEST_FIELDS: seq<string> := ["actionId", "actionType", "approvedBy", "idempotencyKey", "payload"]

  function DigestInput(r: Request): Json {
    var values := [Str(Utf16(r.actionId)), Str(Utf16(r.actionType)), Str(Utf16(r.approvedBy)),
                   Str(Utf16(r.idempotencyKey)), r.requestPayload];
    Obj(seq(5, i requires 0 <= i < 5 => Field(Utf16(DIGEST_FIELDS[i]), values[i])))
  }

  /** The text that is hashed; SHA-256 itself is not part of this model. */
  function DigestText(r: Request): JsString {
    StableJson(DigestInput(r))
  }

  /** Requests that mean the same action; the tenant is not part of the digest. */
  predicate SameRequest(r: Request, q: Request) {
    && r.actionId == q.actionId && r.actionType == q.actionType
    && r.approvedBy == q.approvedBy && r.idempotencyKey == q.idempotencyKey
    && Equivalent(r.requestPayload, q.requestPayload)
  }

  lemma Utf16KeepsDistinct(names: seq<string>)
    requires forall i, j | 0 <= i < j < |names| :: names[i] != names[j]
    ensures forall i, j | 0 <= i < j < |names| :: Utf16(names[i]) != Utf16(names[j])
  {
    forall i, j | 0 <= i < j < |names|
      ensures Utf16(names[i]) == Utf16(names[j]) ==> names[i] == names[j]
    {
      if Utf16(names[i]) == Utf16(names[j]) {
        Utf16Injective(names[i], names[j]);
      }
    }
  }

  /** Objects that list the same names in the same order compare field by field. */
  lemma AlignedObjects(f: seq<Field>, g: seq<Field>)
    requires |f| == |g| && forall i | 0 <= i < |f| :: f[i].name == g[i].name
    requires forall i, j | 0 <= i < j < |f| :: f[i].name != f[j].name
    ensures Equivalent(Obj(f), Obj(g)) <==> forall i | 0 <= i < |f| :: Equivalent(f[i].value, g[i].value)
  {
    assert Names(f) == Names(g);
    assert forall i | 0 <= i < |f| :: Names(f)[i] == f[i].name;
  }

  lemma DigestNamesDiffer()
    ensures |DIGEST_FIELDS| == 5
    ensures forall i, j | 0 <= i < j < 5 :: Utf16(DIGEST_FIELDS[i]) != Utf16(DIGEST_FIELDS[j])
  {
    var names := DIGEST_FIELDS;
    assert |names[0]| == 8 && |names[1]| == 10 && |names[2]| == 10 && |names[3]| == 14 && |names[4]| == 7;
    assert names[1][1] == 'c' && names[2][1] == 'p';
    Utf16KeepsDistinct(names);
  }

  lemma DigestInputWellFormed(r: Request)
    requires WellFormed(r.requestPayload)
    ensures WellFormed(DigestInput(r))
  {
    DigestNamesDiffer();
    var f := DigestInput(r).fields;
    forall i | 0 <= i < 5
      ensures WellFormed(f[i].value)
    {
      assert i == 4 || f[i].value.Str?;
    }
  }

  /** The digest text tells two requests apart exactly when they differ. */
  lemma DigestDetectsDifferentRequests(r: Request, q: Request)
    requires WellFormed(r.requestPayload) && WellFormed(q.requestPayload)
    ensures DigestText(r) == DigestText(q) <==> SameRequest(r, q)
  {
    DigestInputWellFormed(r);
    DigestInputWellFormed(q);
    StableJsonIsCanonical(DigestInput(r), DigestInput(q));
    DigestNamesDiffer();
    AlignedObjects(DigestInput(r).fields, DigestInput(q).fields);
    DigestFields(DigestInput(r).fields, r, DigestInput(q).fields, q);
  }

  lemma DigestFields(f: seq<Field>, r: Request, g: seq<Field>, q: Request)
    requires |f| == 5 && |g| == 5
    requires f[0].value == Str(Utf16(r.actionId)) && g[0].value == Str(Utf16(q.actionId))
    requires f[1].value == Str(Utf16(r.actionType)) && g[1].value == Str(Utf16(q.actionType))
    requires f[2].value == Str(Utf16(r.approvedBy)) && g[2].value == Str(Utf16(q.approvedBy))
    requires f[3].value == Str(Utf16(r.idempotencyKey)) && g[3].value == Str(Utf16(q.idempotencyKey))
    requires f[4].value == r.requestPayload && g[4].value == q.requestPayload
    ensures SameRequest(r, q) <==> forall i | 0 <= i < 5 :: Equivalent(f[i].value, g[i].value)
  {
    if forall i | 0 <= i < 5 :: Equivalent(f[i].value, g[i].value) {
      Utf16Injective(r.actionId, q.actionId);
      Utf16Injective(r.actionType, q.actionType);
      Utf16Injective(r.approvedBy, q.approvedBy);
      Utf16Injective(r.idempotencyKey, q.idempotencyKey);
    }
  }
}
