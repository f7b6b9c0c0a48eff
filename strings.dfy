/** String helpers shared by the model: ASCII case folding (standing for the
    culture-sensitive `ToLower`/`ToUpper`), the ordinal order on strings that
    stands for the comparer of `Array.BinarySearch` and `List.Sort`, the
    binary search of `Array.BinarySearch`, the sort of `List.Sort` and the
    `string.Join` of a list. */
module Strings {

  // ---------------------------------------------------------------------
  // Case folding
  // ---------------------------------------------------------------------

  function LowerChar(c: char): char
  {
    if 'A' <= c <= 'Z' then (c as int + 32) as char else c
  }

  function UpperChar(c: char): char
  {
    if 'a' <= c <= 'z' then (c as int - 32) as char else c
  }

  /** `ToLower`: every character folded to lower case, the length kept. */
  function Lower(s: string): (r: string)
    ensures |r| == |s|
    ensures forall i :: 0 <= i < |s| ==> r[i] == LowerChar(s[i])
  {
    if s == [] then [] else [LowerChar(s[0])] + Lower(s[1..])
  }

  /** `ToUpper`: every character folded to upper case, the length kept. */
  function Upper(s: string): (r: string)
    ensures |r| == |s|
    ensures forall i :: 0 <= i < |s| ==> r[i] == UpperChar(s[i])
  {
    if s == [] then [] else [UpperChar(s[0])] + Upper(s[1..])
  }

  /** Folding to lower case twice is folding once. */
  lemma LowerIdempotent(s: string)
    ensures Lower(Lower(s)) == Lower(s)
  {
    assert forall i :: 0 <= i < |s| ==> LowerChar(LowerChar(s[i])) == LowerChar(s[i]);
  }

  /** Folding to upper case twice is folding once. */
  lemma UpperIdempotent(s: string)
    ensures Upper(Upper(s)) == Upper(s)
  {
    assert forall i :: 0 <= i < |s| ==> UpperChar(UpperChar(s[i])) == UpperChar(s[i]);
  }

  // ---------------------------------------------------------------------
  // The ordinal order on strings
  // ---------------------------------------------------------------------

  /** `a` sorts strictly before `b` when the two agree below index `k`:
      decided at the first index from `k` on where they differ, a proper
      prefix sorting first. */
  predicate BelowFrom(a: string, b: string, k: nat)
    requires k <= |a| && k <= |b|
    decreases |a| - k
  {
    if k == |a| then k < |b|
    else if k == |b| then false
    else if a[k] != b[k] then a[k] < b[k]
    else BelowFrom(a, b, k + 1)
  }

  /** Strict ordinal (lexicographic by character code) order. */
  predicate Below(a: string, b: string)
  {
    BelowFrom(a, b, 0)
  }

  predicate AtMost(a: string, b: string)
  {
    a == b || Below(a, b)
  }

  lemma {:induction false} BelowFromIrreflexive(a: string, k: nat)
    requires k <= |a|
    ensures !BelowFrom(a, a, k)
    decreases |a| - k
  {
    if k < |a| {
      BelowFromIrreflexive(a, k + 1);
    }
  }

  lemma BelowIrreflexive(a: string)
    ensures !Below(a, a)
  {
    BelowFromIrreflexive(a, 0);
  }

  lemma {:induction false} BelowFromTransitive(a: string, b: string, c: string, k: nat)
    requires k <= |a| && k <= |b| && k <= |c|
    requires BelowFrom(a, b, k) && BelowFrom(b, c, k)
    ensures BelowFrom(a, c, k)
    decreases |a| - k
  {
    if k < |a| && k < |b| && k < |c| && a[k] == b[k] && b[k] == c[k] {
      BelowFromTransitive(a, b, c, k + 1);
    }
  }

  lemma BelowTransitive(a: string, b: string, c: string)
    requires Below(a, b) && Below(b, c)
    ensures Below(a, c)
  {
    BelowFromTransitive(a, b, c, 0);
  }

  lemma {:induction false} BelowFromTotal(a: string, b: string, k: nat)
    requires k <= |a| && k <= |b| && a[..k] == b[..k]
    ensures a == b || BelowFrom(a, b, k) || BelowFrom(b, a, k)
    decreases |a| - k
  {
    if k == |a| && k == |b| {
      assert a == a[..k] && b == b[..k];
    } else if k < |a| && k < |b| && a[k] == b[k] {
      assert a[..k + 1] == a[..k] + [a[k]] && b[..k + 1] == b[..k] + [b[k]];
      BelowFromTotal(a, b, k + 1);
    }
  }

  /** The ordinal order is total: two different strings are ordered one way. */
  lemma BelowTotal(a: string, b: string)
    ensures a == b || Below(a, b) || Below(b, a)
  {
    BelowFromTotal(a, b, 0);
  }

  lemma BelowAsymmetric(a: string, b: string)
    requires Below(a, b)
    ensures !Below(b, a)
  {
    if Below(b, a) {
      BelowTransitive(a, b, a);
      BelowIrreflexive(a);
    }
  }

  // ---------------------------------------------------------------------
  // Sortedness
  // ---------------------------------------------------------------------

  /** Every element sorts strictly before every later one. */
  ghost predicate StrictlySorted(s: seq<string>)
  {
    forall i, j :: 0 <= i < j < |s| ==> Below(s[i], s[j])
  }

  /** Every element sorts strictly before its successor. */
  predicate Ascending(s: seq<string>)
  {
    forall i | 0 <= i < |s| - 1 :: Below(s[i], s[i + 1])
  }

  /** Every element sorts no later than every later one. */
  ghost predicate Sorted(s: seq<string>)
  {
    forall i, j :: 0 <= i < j < |s| ==> AtMost(s[i], s[j])
  }

  lemma AscendingConcat(a: seq<string>, b: seq<string>)
    requires Ascending(a) && Ascending(b)
    requires a != [] && b != [] ==> Below(a[|a| - 1], b[0])
    ensures Ascending(a + b)
  {
    var s := a + b;
    forall i | 0 <= i < |s| - 1
      ensures Below(s[i], s[i + 1])
    {
      if i < |a| - 1 {
        assert s[i] == a[i] && s[i + 1] == a[i + 1];
      } else if i == |a| - 1 {
        assert s[i] == a[|a| - 1] && s[i + 1] == b[0];
      } else {
        assert s[i] == b[i - |a|] && s[i + 1] == b[i - |a| + 1];
      }
    }
  }

  /** Adjacent ascent gives ascent between any two positions. */
  lemma {:induction false} AscendingIsStrictlySorted(s: seq<string>)
    requires Ascending(s)
    ensures StrictlySorted(s)
  {
    forall i, j | 0 <= i < j < |s|
      ensures Below(s[i], s[j])
    {
      AscendingUpTo(s, i, j);
    }
  }

  lemma {:induction false} AscendingUpTo(s: seq<string>, i: nat, j: nat)
    requires Ascending(s) && i < j < |s|
    ensures Below(s[i], s[j])
    decreases j - i
  {
    if i + 1 < j {
      AscendingUpTo(s, i + 1, j);
      BelowTransitive(s[i], s[i + 1], s[j]);
    }
  }

  // ---------------------------------------------------------------------
  // Binary search, as `Array.BinarySearch` performs it
  // ---------------------------------------------------------------------

  /** The search of the closed index range [lo, hi]: the midpoint
      `lo + (hi - lo) / 2` is probed; equal returns it, a smaller probe
      continues above it, a larger one below it; an empty range returns the
      complement `~lo` of the insertion point. */
  function SearchRange(a: seq<string>, key: string, lo: int, hi: int): (r: int)
    requires 0 <= lo <= hi + 1 <= |a|
    ensures r >= 0 ==> lo <= r <= hi && a[r] == key
    ensures r < 0 ==> lo <= -r - 1 <= hi + 1
    decreases hi - lo
  {
    if lo > hi then -lo - 1
    else
      var i := lo + (hi - lo) / 2;
      if a[i] == key then i
      else if Below(a[i], key) then SearchRange(a, key, i + 1, hi)
      else SearchRange(a, key, lo, i - 1)
  }

  /** One probe of the search that finds a larger string and moves below it. */
  lemma SearchStepDown(a: seq<string>, key: string, lo: int, hi: int)
    requires 0 <= lo <= hi < |a|
    requires Below(key, a[lo + (hi - lo) / 2])
    ensures SearchRange(a, key, lo, hi) == SearchRange(a, key, lo, lo + (hi - lo) / 2 - 1)
  {
    BelowIrreflexive(key);
    if Below(a[lo + (hi - lo) / 2], key) {
      BelowAsymmetric(key, a[lo + (hi - lo) / 2]);
    }
  }

  /** One probe of the search that finds a smaller string and moves above it. */
  lemma SearchStepUp(a: seq<string>, key: string, lo: int, hi: int)
    requires 0 <= lo <= hi < |a|
    requires Below(a[lo + (hi - lo) / 2], key)
    ensures SearchRange(a, key, lo, hi) == SearchRange(a, key, lo + (hi - lo) / 2 + 1, hi)
  {
    BelowIrreflexive(key);
  }

  /** `Array.BinarySearch(a, key)`: an index holding `key`, or a negative
      number. */
  function BinarySearch(a: seq<string>, key: string): (r: int)
    ensures r >= 0 ==> r < |a| && a[r] == key
  {
    SearchRange(a, key, 0, |a| - 1)
  }

  /** Nothing at or before a position holding a smaller string equals `key`. */
  lemma NotAtOrBefore(a: seq<string>, i: int, key: string)
    requires StrictlySorted(a) && 0 <= i < |a| && Below(a[i], key)
    ensures forall j :: 0 <= j <= i ==> a[j] != key
  {
    forall j | 0 <= j <= i ensures a[j] != key {
      if j < i {
        BelowTransitive(a[j], a[i], key);
      }
      if a[j] == key { BelowIrreflexive(key); }
    }
  }

  /** Nothing at or after a position holding a larger string equals `key`. */
  lemma NotAtOrAfter(a: seq<string>, i: int, key: string)
    requires StrictlySorted(a) && 0 <= i < |a| && Below(key, a[i])
    ensures forall j :: i <= j < |a| ==> a[j] != key
  {
    forall j | i <= j < |a| ensures a[j] != key {
      if i < j {
        BelowTransitive(key, a[i], a[j]);
      }
      if a[j] == key { BelowIrreflexive(key); }
    }
  }

  /** `key` occurs at an index of the closed range [lo, hi]. */
  ghost predicate OccursIn(a: seq<string>, key: string, lo: int, hi: int)
  {
    exists j :: lo <= j <= hi && 0 <= j < |a| && a[j] == key
  }

  lemma {:induction false} SearchRangeComplete(a: seq<string>, key: string, lo: int, hi: int)
    requires StrictlySorted(a)
    requires 0 <= lo <= hi + 1 <= |a|
    ensures SearchRange(a, key, lo, hi) >= 0 <==> OccursIn(a, key, lo, hi)
    decreases hi - lo
  {
    if lo <= hi {
      var i := lo + (hi - lo) / 2;
      if a[i] == key {
      } else if Below(a[i], key) {
        SearchRangeComplete(a, key, i + 1, hi);
        NotAtOrBefore(a, i, key);
      } else {
        SearchRangeComplete(a, key, lo, i - 1);
        BelowTotal(a[i], key);
        NotAtOrAfter(a, i, key);
      }
    }
  }

  /** On a strictly sorted array the search finds exactly the members. */
  lemma BinarySearchIsMembership(a: seq<string>, key: string)
    requires StrictlySorted(a)
    ensures BinarySearch(a, key) >= 0 <==> key in a
  {
    SearchRangeComplete(a, key, 0, |a| - 1);
    if key in a {
      var j :| 0 <= j < |a| && a[j] == key;
      assert OccursIn(a, key, 0, |a| - 1);
    }
  }

  // ---------------------------------------------------------------------
  // Sorting, as `List.Sort` orders a list of strings
  // ---------------------------------------------------------------------

  /** `x` put in front of the first element of `s` it does not follow. */
  function Insert(x: string, s: seq<string>): seq<string>
  {
    if s == [] then [x]
    else if AtMost(x, s[0]) then [x] + s
    else [s[0]] + Insert(x, s[1..])
  }

  /** Insertion sort of a list. */
  function Sort(s: seq<string>): seq<string>
  {
    if s == [] then [] else Insert(s[0], Sort(s[1..]))
  }

  lemma {:induction false} InsertPermutes(x: string, s: seq<string>)
    ensures multiset(Insert(x, s)) == multiset(s) + multiset{x}
  {
    if s != [] && !AtMost(x, s[0]) {
      InsertPermutes(x, s[1..]);
      assert s == [s[0]] + s[1..];
    }
  }

  lemma {:induction false} InsertSorted(x: string, s: seq<string>)
    requires Sorted(s)
    ensures Sorted(Insert(x, s))
  {
    if s != [] && AtMost(x, s[0]) {
      var r := [x] + s;
      forall i, j | 0 <= i < j < |r| ensures AtMost(r[i], r[j]) {
        if i == 0 && j > 1 {
          assert AtMost(s[0], s[j - 1]);
          if x != s[0] && s[0] != s[j - 1] {
            BelowTransitive(x, s[0], s[j - 1]);
          }
        } else if i > 0 {
          assert r[i] == s[i - 1] && r[j] == s[j - 1];
        }
      }
    } else if s != [] {
      var t := s[1..];
      assert Sorted(t) by {
        forall i, j | 0 <= i < j < |t| ensures AtMost(t[i], t[j]) {
          assert t[i] == s[i + 1] && t[j] == s[j + 1];
        }
      }
      InsertSorted(x, t);
      InsertPermutes(x, t);
      BelowTotal(x, s[0]);
      var r := Insert(x, s);
      var u := Insert(x, t);
      assert r == [s[0]] + u;
      forall i, j | 0 <= i < j < |r| ensures AtMost(r[i], r[j]) {
        if i == 0 {
          assert r[j] == u[j - 1];
          assert r[j] in multiset(u);
          if r[j] != x {
            assert r[j] in multiset(t);
            var k :| 0 <= k < |t| && t[k] == r[j];
            assert s[k + 1] == r[j];
          }
        } else {
          assert r[i] == u[i - 1] && r[j] == u[j - 1];
        }
      }
    }
  }

  /** `Sort` returns an ordered rearrangement of its input. */
  lemma {:induction false} SortSortsAndPermutes(s: seq<string>)
    ensures Sorted(Sort(s))
    ensures multiset(Sort(s)) == multiset(s)
  {
    if s != [] {
      SortSortsAndPermutes(s[1..]);
      InsertSorted(s[0], Sort(s[1..]));
      InsertPermutes(s[0], Sort(s[1..]));
      assert s == [s[0]] + s[1..];
    }
  }

  // ---------------------------------------------------------------------
  // Joining
  // ---------------------------------------------------------------------

  /** `string.Join(sep, xs)`. */
  function Join(sep: string, xs: seq<string>): string
  {
    if xs == [] then ""
    else if |xs| == 1 then xs[0]
    else xs[0] + sep + Join(sep, xs[1..])
  }

  /** Joining the list with one more element appends the separator and the
      element. */
  lemma {:induction false} JoinSnoc(sep: string, xs: seq<string>, x: string)
    ensures Join(sep, xs + [x]) == if xs == [] then x else Join(sep, xs) + sep + x
  {
    if |xs| >= 2 {
      assert (xs + [x])[1..] == xs[1..] + [x];
      JoinSnoc(sep, xs[1..], x);
    } else if |xs| == 1 {
      assert (xs + [x])[1..] == [x];
    }
  }
}
