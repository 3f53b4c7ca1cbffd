/** Strings as the workers build them: decimal ids, colon-joined keys, trimming. */
module Text {

  datatype Option<+T> = None | Some(value: T)

  predicate IsDigit(c: char) {
    '0' <= c <= '9'
  }

  predicate AllDigits(s: string) {
    forall i | 0 <= i < |s| :: IsDigit(s[i])
  }

  function Digit(d: nat): char
    requires d < 10
  {
    ['0', '1', '2', '3', '4', '5', '6', '7', '8', '9'][d]
  }

  /** `String(n)` for a non-negative integer. */
  function Decimal(n: nat): (s: string)
    ensures |s| > 0 && AllDigits(s)
  {
    if n < 10 then [Digit(n)] else Decimal(n / 10) + [Digit(n % 10)]
  }

  /** Two ids with the same text are the same id. */
  lemma {:induction false} DecimalInjective(m: nat, n: nat)
    requires Decimal(m) == Decimal(n)
    ensures m == n
  {
    var s, t := Decimal(m), Decimal(n);
    assert s[|s| - 1] == Digit(m % 10) && t[|t| - 1] == Digit(n % 10);
    assert m >= 10 ==> |s| == |Decimal(m / 10)| + 1;
    assert n >= 10 ==> |t| == |Decimal(n / 10)| + 1;
    if m >= 10 {
      assert Decimal(m / 10) == s[..|s| - 1] && Decimal(n / 10) == t[..|t| - 1];
      DecimalInjective(m / 10, n / 10);
    }
  }

  /** Position of the first occurrence of c; |s| when there is none. */
  function First(s: string, c: char): (i: nat)
    ensures i <= |s|
    ensures i < |s| ==> s[i] == c
    ensures c !in s[..i]
  {
    if s == [] || s[0] == c then 0
    else
      assert s[..First(s[1..], c) + 1] == [s[0]] + s[1..][..First(s[1..], c)];
      First(s[1..], c) + 1
  }

  lemma {:induction false} FirstOfJoin(sep: char, a: string, b: string)
    requires sep !in a
    ensures First(a + [sep] + b, sep) == |a|
  {
    if a != [] {
      assert (a + [sep] + b)[1..] == a[1..] + [sep] + b;
      FirstOfJoin(sep, a[1..], b);
    }
  }

  /** Joining with a separator that the left part cannot contain loses nothing. */
  lemma JoinInjective(sep: char, a: string, b: string, a': string, b': string)
    requires sep !in a && sep !in a'
    requires a + [sep] + b == a' + [sep] + b'
    ensures a == a' && b == b'
  {
    var s := a + [sep] + b;
    var s' := a' + [sep] + b';
    FirstOfJoin(sep, a, b);
    FirstOfJoin(sep, a', b');
    assert a == s[..|a|] && a' == s'[..|a'|];
    assert b == s[|a| + 1..] && b' == s'[|a'| + 1..];
  }

  /** What JavaScript's `trim` strips: white space and line terminators. */
  predicate IsSpace(c: char) {
    c in {'\t', '\n', '\U{000B}', '\U{000C}', '\r', ' ', '\U{00A0}', '\U{1680}',
          '\U{2028}', '\U{2029}', '\U{202F}', '\U{205F}', '\U{3000}', '\U{FEFF}'}
    || '\U{2000}' <= c <= '\U{200A}'
  }

  function TrimStart(s: string): string {
    if |s| > 0 && IsSpace(s[0]) then TrimStart(s[1..]) else s
  }

  function TrimEnd(s: string): string {
    if |s| > 0 && IsSpace(s[|s| - 1]) then TrimEnd(s[..|s| - 1]) else s
  }

  /** `s.trim()` */
  function Trim(s: string): string {
    TrimEnd(TrimStart(s))
  }

  /** A string that trimming leaves alone. */
  predicate Trimmed(s: string) {
    |s| > 0 ==> !IsSpace(s[0]) && !IsSpace(s[|s| - 1])
  }

  /** A trimmed, non-empty text, as `z.string().trim().min(1)` leaves it. */
  predicate NonEmptyText(s: string) {
    s != "" && Trimmed(s)
  }

  lemma {:induction false} TrimStartTrims(s: string)
    ensures TrimStart(s) != "" ==> !IsSpace(TrimStart(s)[0])
  {
    if |s| > 0 && IsSpace(s[0]) {
      TrimStartTrims(s[1..]);
    }
  }

  lemma {:induction false} TrimEndTrims(s: string)
    ensures TrimEnd(s) <= s
    ensures TrimEnd(s) != "" ==> !IsSpace(TrimEnd(s)[|TrimEnd(s)| - 1])
  {
    if |s| > 0 && IsSpace(s[|s| - 1]) {
      TrimEndTrims(s[..|s| - 1]);
    }
  }

  lemma TrimTrims(s: string)
    ensures Trimmed(Trim(s))
  {
    TrimStartTrims(s);
    TrimEndTrims(TrimStart(s));
  }

  // ── Two parts joined by a colon ──────────────────────────────────────────

  function Joined(a: string, b: string): string {
    a + [':'] + b
  }

  /** The text can be cut at this colon into two non-empty texts. */
  predicate CutsAt(text: string, j: nat) {
    0 < j && j + 1 < |text| && text[j] == ':' && NonEmptyText(text[..j]) && NonEmptyText(text[j + 1..])
  }

  /** Another pair of non-empty texts joins to the same text. */
  ghost predicate JoinIsShared(a: string, b: string) {
    exists c, d :: NonEmptyText(c) && NonEmptyText(d) && (c, d) != (a, b) && Joined(c, d) == Joined(a, b)
  }

  /**
   * Exactly when a pair of non-empty texts shares its joined text: when that
   * text can be cut at another colon, one that stands inside either part.
   */
  lemma JoinIsSharedIff(a: string, b: string)
    requires NonEmptyText(a) && NonEmptyText(b)
    ensures JoinIsShared(a, b) <==> exists j: nat :: j != |a| && CutsAt(Joined(a, b), j)
    ensures JoinIsShared(a, b) ==> ':' in a || ':' in b
  {
    if JoinIsShared(a, b) {
      var c, d :| NonEmptyText(c) && NonEmptyText(d) && (c, d) != (a, b) && Joined(c, d) == Joined(a, b);
      OtherCut(a, b, c, d);
    }
    if j: nat :| j != |a| && CutsAt(Joined(a, b), j) {
      CutGives(Joined(a, b), j);
    }
  }

  lemma CutGives(text: string, j: nat)
    requires CutsAt(text, j)
    ensures NonEmptyText(text[..j]) && NonEmptyText(text[j + 1..]) && |text[..j]| == j
    ensures Joined(text[..j], text[j + 1..]) == text
  {
  }

  lemma PartsOf(a: string, b: string)
    ensures var text := Joined(a, b);
            |text| == |a| + 1 + |b| && text[..|a|] == a && text[|a|] == ':' && text[|a| + 1..] == b
  {
  }

  lemma OtherCut(a: string, b: string, c: string, d: string)
    requires NonEmptyText(c) && NonEmptyText(d) && (c, d) != (a, b) && Joined(c, d) == Joined(a, b)
    ensures CutsAt(Joined(a, b), |c|) && |c| != |a| && (':' in a || ':' in b)
  {
    PartsOf(a, b);
    PartsOf(c, d);
    var text := Joined(a, b);
    if |c| < |a| {
      assert a[|c|] == text[|c|];
    } else if |c| > |a| {
      assert b[|c| - |a| - 1] == text[|c|];
    }
  }

  lemma PrefixIsInjective(prefix: string, a: string, b: string)
    requires prefix + a == prefix + b
    ensures a == b
  {
    assert a == (prefix + a)[|prefix|..] && b == (prefix + b)[|prefix|..];
  }

  lemma PrefixOfJoin(prefix: string, a: string, b: string, c: string, d: string)
    requires prefix + a + [':'] + b == prefix + c + [':'] + d
    ensures Joined(a, b) == Joined(c, d)
  {
    assert prefix + a + [':'] + b == prefix + Joined(a, b) && prefix + c + [':'] + d == prefix + Joined(c, d);
    PrefixIsInjective(prefix, Joined(a, b), Joined(c, d));
  }
}
