/**
 * `filter(...).sort(...).slice(0, limit)`: the way every repository here lists
 * its records. On records kept in key order the result is the ordered prefix
 * of the records asked for.
 */
module Listing {

  function Filter<T>(s: seq<T>, keep: T -> bool): seq<T> {
    if s == [] then [] else (if keep(s[0]) then [s[0]] else []) + Filter(s[1..], keep)
  }

  function Insert<T>(x: T, s: seq<T>, key: T -> int): seq<T> {
    if s == [] || key(x) <= key(s[0]) then [x] + s else [s[0]] + Insert(x, s[1..], key)
  }

  /** A stable sort by ascending key. */
  function SortBy<T>(s: seq<T>, key: T -> int): seq<T> {
    if s == [] then [] else Insert(s[0], SortBy(s[1..], key), key)
  }

  /** `slice(0, n)` for a limit that is not negative. */
  function Take<T>(s: seq<T>, n: nat): seq<T> {
    if n < |s| then s[..n] else s
  }

  function List<T>(s: seq<T>, keep: T -> bool, key: T -> int, limit: nat): seq<T> {
    Take(SortBy(Filter(s, keep), key), limit)
  }

  predicate Ascending<T>(s: seq<T>, key: T -> int) {
    forall i, j | 0 <= i < j < |s| :: key(s[i]) < key(s[j])
  }

  lemma {:induction false} FilterMembers<T>(s: seq<T>, keep: T -> bool, x: T)
    ensures x in Filter(s, keep) <==> x in s && keep(x)
  {
    if s != [] {
      FilterMembers(s[1..], keep, x);
      assert s == [s[0]] + s[1..];
    }
  }

  lemma {:induction false} FilterIsShorter<T>(s: seq<T>, keep: T -> bool)
    ensures |Filter(s, keep)| <= |s|
  {
    if s != [] {
      FilterIsShorter(s[1..], keep);
    }
  }

  lemma {:induction false} FilterKeepsOrder<T>(s: seq<T>, keep: T -> bool, key: T -> int)
    requires Ascending(s, key)
    ensures Ascending(Filter(s, keep), key)
  {
    if s != [] {
      FilterKeepsOrder(s[1..], keep, key);
      var rest := Filter(s[1..], keep);
      forall k | 0 <= k < |rest|
        ensures key(s[0]) < key(rest[k])
      {
        FilterMembers(s[1..], keep, rest[k]);
        var l :| 0 <= l < |s[1..]| && s[1..][l] == rest[k];
        assert s[l + 1] == rest[k];
      }
    }
  }

  lemma {:induction false} SortOfAscending<T>(s: seq<T>, key: T -> int)
    requires Ascending(s, key)
    ensures SortBy(s, key) == s
  {
    if s != [] {
      SortOfAscending(s[1..], key);
    }
  }

  lemma {:induction false} InsertLargest<T>(x: T, s: seq<T>, key: T -> int)
    requires forall k | 0 <= k < |s| :: key(s[k]) < key(x)
    ensures Insert(x, s, key) == s + [x]
  {
    if s != [] {
      InsertLargest(x, s[1..], key);
    }
  }

  /** Sorting by the opposite key turns an ascending sequence round. */
  lemma {:induction false} SortReverses<T>(s: seq<T>, key: T -> int, opposite: T -> int)
    requires Ascending(s, key) && forall x :: opposite(x) == -key(x)
    ensures |SortBy(s, opposite)| == |s|
    ensures forall k | 0 <= k < |s| :: SortBy(s, opposite)[k] == s[|s| - 1 - k]
  {
    if s != [] {
      SortReverses(s[1..], key, opposite);
      InsertLargest(s[0], SortBy(s[1..], opposite), opposite);
    }
  }

  lemma TakeCutsTheTail<T>(s: seq<T>, key: T -> int, limit: nat, x: T)
    requires Ascending(s, key) && x in s
    ensures var list := Take(s, limit);
            x in list || (|list| == limit && forall k | 0 <= k < limit :: key(list[k]) < key(x))
  {
    var list := Take(s, limit);
    var k :| 0 <= k < |s| && s[k] == x;
    if k < |list| {
      assert list[k] == x;
    }
  }

  /**
   * The listing is strictly ascending, holds only records asked for, is cut
   * only by the limit, and leaves out no record that precedes one it lists.
   */
  lemma ListIsOrderedPrefix<T>(s: seq<T>, keep: T -> bool, key: T -> int, limit: nat, x: T)
    requires Ascending(s, key)
    ensures var list := List(s, keep, key, limit);
            && Ascending(list, key) && |list| <= limit
            && (x in list ==> x in s && keep(x))
            && (x in s && keep(x) && x !in list ==>
                  |list| == limit && forall k | 0 <= k < limit :: key(list[k]) < key(x))
  {
    var all := Filter(s, keep);
    FilterKeepsOrder(s, keep, key);
    SortOfAscending(all, key);
    FilterMembers(s, keep, x);
    if x in s && keep(x) {
      TakeCutsTheTail(all, key, limit, x);
    }
  }
}
