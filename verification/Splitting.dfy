/** `split`, `join` and `startsWith` of JavaScript strings, and when they undo each other. */
module Splitting {
  import opened Text

  predicate OccursAt(s: string, sep: string, i: nat) {
    i + |sep| <= |s| && s[i..i + |sep|] == sep
  }

  predicate StartsWith(s: string, prefix: string) {
    OccursAt(s, prefix, 0)
  }

  /** Position of the first occurrence; |s| + 1 when there is none. */
  function Find(s: string, sep: string): (i: nat)
    requires sep != ""
    ensures i <= |s| ==> OccursAt(s, sep, i)
    ensures i > |s| ==> i == |s| + 1
    ensures forall j: nat | j < i :: !OccursAt(s, sep, j)
  {
    FindFrom(s, sep, 0)
  }

  function FindFrom(s: string, sep: string, k: nat): (i: nat)
    requires sep != "" && k <= |s| && forall j: nat | j < k :: !OccursAt(s, sep, j)
    ensures i <= |s| ==> OccursAt(s, sep, i)
    ensures i > |s| ==> i == |s| + 1
    ensures forall j: nat | j < i :: !OccursAt(s, sep, j)
    decreases |s| - k
  {
    if OccursAt(s, sep, k) then k else if k == |s| then |s| + 1 else FindFrom(s, sep, k + 1)
  }

  predicate Has(s: string, sep: string)
    requires sep != ""
  {
    Find(s, sep) <= |s|
  }

  /** `s.split(sep)` */
  function Split(s: string, sep: string): (parts: seq<string>)
    requires sep != ""
    ensures |parts| > 0
    ensures |parts| == 1 <==> !Has(s, sep)
    decreases |s|
  {
    var i := Find(s, sep);
    if i > |s| then [s] else [s[..i]] + Split(s[i + |sep|..], sep)
  }

  /** `parts.join(sep)` */
  function Join(parts: seq<string>, sep: string): string {
    if parts == [] then ""
    else if |parts| == 1 then parts[0]
    else parts[0] + sep + Join(parts[1..], sep)
  }

  /** Splitting loses nothing: joining gives the text back, whatever it is. */
  lemma {:induction false} SplitThenJoin(s: string, sep: string)
    requires sep != ""
    ensures Join(Split(s, sep), sep) == s
    decreases |s|
  {
    var i := Find(s, sep);
    if i <= |s| {
      var rest := s[i + |sep|..];
      SplitThenJoin(rest, sep);
      Cut(s, sep, i);
      JoinCons(s[..i], Split(rest, sep), sep);
    }
  }

  lemma Cut(s: string, sep: string, i: nat)
    requires OccursAt(s, sep, i)
    ensures s == s[..i] + sep + s[i + |sep|..]
  {
  }

  lemma JoinCons(first: string, rest: seq<string>, sep: string)
    requires rest != []
    ensures Join([first] + rest, sep) == first + sep + Join(rest, sep)
  {
    assert ([first] + rest)[1..] == rest;
  }

  lemma OccursInFront(a: string, sep: string, b: string, j: nat)
    requires j <= |a|
    ensures OccursAt(a + sep + b, sep, j) <==> OccursAt(a + sep, sep, j)
  {
    assert (a + sep + b)[j..j + |sep|] == (a + sep)[j..j + |sep|];
  }

  lemma OccursMeansIn(s: string, c: char, j: nat)
    ensures OccursAt(s, [c], j) <==> j < |s| && s[j] == c
  {
    if j < |s| {
      assert s[j..j + 1] == [s[j]];
    }
  }

  /** The first separator is where a part without one ends, provided none straddles the boundary. */
  lemma FindAt(a: string, sep: string, b: string)
    requires sep != "" && forall j: nat | j < |a| :: !OccursAt(a + sep, sep, j)
    ensures Find(a + sep + b, sep) == |a|
    ensures Split(a + sep + b, sep) == [a] + Split(b, sep)
  {
    var s := a + sep + b;
    assert OccursAt(s, sep, |a|);
    forall j: nat | j < |a|
      ensures !OccursAt(s, sep, j)
    {
      OccursInFront(a, sep, b, j);
    }
    assert s[..|a|] == a && s[|a| + |sep|..] == b;
  }

  /** Joining parts without the separator character and splitting them again gives the parts. */
  lemma {:induction false} JoinThenSplit(parts: seq<string>, c: char)
    requires parts != [] && forall k | 0 <= k < |parts| :: c !in parts[k]
    ensures Split(Join(parts, [c]), [c]) == parts
  {
    if |parts| == 1 {
      NoneOf(parts[0], c);
    } else {
      JoinThenSplit(parts[1..], c);
      FirstPart(parts[0], c, Join(parts[1..], [c]));
    }
  }

  lemma NoneOf(s: string, c: char)
    requires c !in s
    ensures Split(s, [c]) == [s]
  {
    OccursMeansIn(s, c, Find(s, [c]));
  }

  lemma FirstPart(a: string, c: char, b: string)
    requires c !in a
    ensures Split(a + [c] + b, [c]) == [a] + Split(b, [c])
  {
    forall j: nat | j < |a|
      ensures !OccursAt(a + [c], [c], j)
    {
      OccursMeansIn(a + [c], c, j);
    }
    FindAt(a, [c], b);
  }

  // ── Trimming ─────────────────────────────────────────────────────────────

  lemma TrimmedStays(s: string)
    requires Trimmed(s)
    ensures Trim(s) == s
  {
  }

  lemma {:induction false} TrimStartSkips(pad: string, s: string)
    requires Trimmed(s) && forall i | 0 <= i < |pad| :: IsSpace(pad[i])
    ensures TrimStart(pad + s) == s
  {
    if pad != [] {
      assert (pad + s)[1..] == pad[1..] + s;
      TrimStartSkips(pad[1..], s);
    } else {
      assert pad + s == s;
    }
  }

  lemma {:induction false} TrimEndSkips(s: string, pad: string)
    requires Trimmed(s) && forall i | 0 <= i < |pad| :: IsSpace(pad[i])
    ensures TrimEnd(s + pad) == s
  {
    if pad != [] {
      assert (s + pad)[..|s + pad| - 1] == s + pad[..|pad| - 1];
      TrimEndSkips(s, pad[..|pad| - 1]);
    } else {
      assert s + pad == s;
    }
  }

  /** Trimming removes what surrounds a trimmed text. */
  lemma TrimPadded(before: string, s: string, after: string)
    requires Trimmed(s) && s != ""
    requires forall i | 0 <= i < |before| :: IsSpace(before[i])
    requires forall i | 0 <= i < |after| :: IsSpace(after[i])
    ensures Trim(before + s + after) == s
  {
    TrimStartPad(before, s + after);
    TrimEndSkips(s, after);
    assert before + s + after == before + (s + after);
  }

  lemma {:induction false} TrimStartPad(pad: string, s: string)
    requires s != "" && !IsSpace(s[0]) && forall i | 0 <= i < |pad| :: IsSpace(pad[i])
    ensures TrimStart(pad + s) == s
  {
    if pad != [] {
      assert (pad + s)[1..] == pad[1..] + s;
      TrimStartPad(pad[1..], s);
    } else {
      assert pad + s == s;
    }
  }
}
