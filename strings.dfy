/**
 * Alphabetical order on tag strings and the "sorted, deduplicated" normal
 * form used for effective tags, plus the space join used for qualified names.
 *
 * Dafny's own `<` on strings is the proper-prefix relation, so the order is
 * defined here: characters are compared one by one from the left, and a
 * proper prefix comes before any longer string that extends it.
 */
module Strings {

  /** Strict lexicographic ("alphabetical") order. */
  predicate Less(a: string, b: string)
  {
    if |a| == 0 then |b| > 0
    else if |b| == 0 then false
    else a[0] < b[0] || (a[0] == b[0] && Less(a[1..], b[1..]))
  }

  lemma {:induction false} LessIrreflexive(a: string)
    ensures !Less(a, a)
  {
    if |a| > 0 {
      LessIrreflexive(a[1..]);
    }
  }

  lemma {:induction false} LessTransitive(a: string, b: string, c: string)
    requires Less(a, b) && Less(b, c)
    ensures Less(a, c)
  {
    if |a| > 0 && a[0] == b[0] && b[0] == c[0] {
      LessTransitive(a[1..], b[1..], c[1..]);
    }
  }

  lemma {:induction false} LessTotal(a: string, b: string)
    ensures a == b || Less(a, b) || Less(b, a)
  {
    if |a| > 0 && |b| > 0 && a[0] == b[0] {
      LessTotal(a[1..], b[1..]);
      if a[1..] == b[1..] {
        assert a == [a[0]] + a[1..] && b == [b[0]] + b[1..];
      }
    }
  }

  lemma {:induction false} LessAsymmetric(a: string, b: string)
    requires Less(a, b)
    ensures !Less(b, a)
  {
    if Less(b, a) {
      LessTransitive(a, b, a);
      LessIrreflexive(a);
    }
  }

  /** The elements of a list, as a set. */
  function Elems(s: seq<string>): set<string>
  {
    set x | x in s
  }

  /** Every element is alphabetically before every later one: sorted and free of duplicates. */
  predicate StrictlySorted(s: seq<string>)
  {
    forall i, j :: 0 <= i < j < |s| ==> Less(s[i], s[j])
  }

  lemma {:induction false} StrictlySortedDistinct(s: seq<string>, i: int, j: int)
    requires StrictlySorted(s) && 0 <= i < j < |s|
    ensures s[i] != s[j]
  {
    LessIrreflexive(s[i]);
  }

  /** No element occurs twice. */
  predicate Distinct(s: seq<string>)
  {
    forall i, j :: 0 <= i < j < |s| ==> s[i] != s[j]
  }

  lemma {:induction false} StrictlySortedIsDistinct(s: seq<string>)
    requires StrictlySorted(s)
    ensures Distinct(s)
  {
    forall i, j | 0 <= i < j < |s| ensures s[i] != s[j] {
      StrictlySortedDistinct(s, i, j);
    }
  }

  /** Inserts `x` into a strictly sorted list, leaving it unchanged when `x` is already there. */
  function Insert(x: string, s: seq<string>): (r: seq<string>)
    requires StrictlySorted(s)
    ensures StrictlySorted(r)
    ensures forall y :: y in r <==> y == x || y in s
  {
    if s == [] then [x]
    else if x == s[0] then s
    else if Less(x, s[0]) then
      assert forall k :: 0 < k < |s| ==> Less(x, s[k]) by {
        forall k | 0 < k < |s| ensures Less(x, s[k]) {
          LessTransitive(x, s[0], s[k]);
        }
      }
      [x] + s
    else
      LessTotal(x, s[0]);
      var tail := Insert(x, s[1..]);
      assert forall y :: y in tail ==> Less(s[0], y) by {
        forall y | y in tail ensures Less(s[0], y) {
          if y != x {
            var k :| 1 <= k < |s| && s[k] == y;
          }
        }
      }
      [s[0]] + tail
  }

  /** The alphabetically sorted list of the distinct elements of `s`. */
  function SortUnique(s: seq<string>): (r: seq<string>)
    ensures StrictlySorted(r)
    ensures Elems(r) == Elems(s)
  {
    if s == [] then []
    else
      var rest := SortUnique(s[1..]);
      var r := Insert(s[0], rest);
      assert Elems(s) == {s[0]} + Elems(s[1..]) by {
        assert s == [s[0]] + s[1..];
      }
      r
  }

  /** A strictly sorted list is determined by its set of elements. */
  lemma {:induction false} SortedUnique(a: seq<string>, b: seq<string>)
    requires StrictlySorted(a) && StrictlySorted(b)
    requires Elems(a) == Elems(b)
    ensures a == b
  {
    assert a != [] ==> a[0] in Elems(a);
    assert b != [] ==> b[0] in Elems(b);
    if a != [] && b != [] {
      if a[0] != b[0] {
        var i :| 0 <= i < |a| && a[i] == b[0];
        var j :| 0 <= j < |b| && b[j] == a[0];
        LessAsymmetric(a[0], a[i]);
        assert false;
      }
      forall y | y in a[1..] ensures y in b[1..] {
        assert y in Elems(b);
        var i :| 1 <= i < |a| && a[i] == y;
        if y == b[0] { StrictlySortedDistinct(a, 0, i); }
      }
      forall y | y in b[1..] ensures y in a[1..] {
        assert y in Elems(a);
        var i :| 1 <= i < |b| && b[i] == y;
        if y == a[0] { StrictlySortedDistinct(b, 0, i); }
      }
      assert Elems(a[1..]) == Elems(b[1..]);
      SortedUnique(a[1..], b[1..]);
      assert a == [a[0]] + a[1..] && b == [b[0]] + b[1..];
    }
  }

  /** Sorting and deduplicating depends only on which strings occur, not on order or repetition. */
  lemma {:induction false} SortUniqueCanonical(a: seq<string>, b: seq<string>)
    requires Elems(a) == Elems(b)
    ensures SortUnique(a) == SortUnique(b)
  {
    SortedUnique(SortUnique(a), SortUnique(b));
  }

  /** An already sorted, duplicate-free list is its own normal form. */
  lemma {:induction false} SortUniqueOfSorted(s: seq<string>)
    requires StrictlySorted(s)
    ensures SortUnique(s) == s
  {
    SortedUnique(SortUnique(s), s);
  }

  /** The words joined with single spaces. */
  function JoinWords(words: seq<string>): string
  {
    if words == [] then ""
    else if |words| == 1 then words[0]
    else words[0] + " " + JoinWords(words[1..])
  }
}
