/** Order-preserving filtering of sequences, shared by item extraction and grouping. */
module Seqs {

  /** The elements of s that satisfy keep, in their original order. */
  function Filter<T>(s: seq<T>, keep: T -> bool): (r: seq<T>)
    ensures |r| <= |s|
    ensures forall x :: x in r ==> x in s && keep(x)
  {
    if s == [] then []
    else Filter(s[..|s| - 1], keep) + (if keep(s[|s| - 1]) then [s[|s| - 1]] else [])
  }

  lemma FilterAppend<T>(s: seq<T>, x: T, keep: T -> bool)
    ensures Filter(s + [x], keep) == Filter(s, keep) + (if keep(x) then [x] else [])
  {
    assert (s + [x])[..|s|] == s;
  }

  lemma {:induction false} FilterConcat<T>(a: seq<T>, b: seq<T>, keep: T -> bool)
    ensures Filter(a + b, keep) == Filter(a, keep) + Filter(b, keep)
    decreases |b|
  {
    if b == [] {
      assert a + b == a;
    } else {
      var init, last := b[..|b| - 1], b[|b| - 1];
      assert a + b == (a + init) + [last];
      FilterAppend(a + init, last, keep);
      FilterConcat(a, init, keep);
    }
  }

  lemma {:induction false} FilterNone<T>(s: seq<T>, keep: T -> bool)
    requires forall x :: x in s ==> !keep(x)
    ensures Filter(s, keep) == []
    decreases |s|
  {
    if s != [] {
      assert s[|s| - 1] in s;
      FilterNone(s[..|s| - 1], keep);
    }
  }

  /** Filtering a prefix gives a prefix of the filtered sequence. */
  lemma {:induction false} FilterPrefix<T>(s: seq<T>, i: nat, keep: T -> bool)
    requires i <= |s|
    ensures Filter(s[..i], keep) <= Filter(s, keep)
    decreases |s|
  {
    if i < |s| {
      assert s[..|s| - 1][..i] == s[..i];
      FilterPrefix(s[..|s| - 1], i, keep);
    } else {
      assert s[..i] == s;
    }
  }

  /** A kept element lands at the position given by the number of kept elements before it. */
  lemma {:induction false} FilterAt<T>(s: seq<T>, i: nat, keep: T -> bool)
    requires i < |s| && keep(s[i])
    ensures |Filter(s[..i], keep)| < |Filter(s, keep)|
    ensures Filter(s, keep)[|Filter(s[..i], keep)|] == s[i]
  {
    FilterAppend(s[..i], s[i], keep);
    assert s[..i + 1] == s[..i] + [s[i]];
    FilterPrefix(s, i + 1, keep);
  }

  /** Every position of the filtered sequence holds a kept element of s, placed as FilterAt says. */
  lemma {:induction false} FilterSource<T>(s: seq<T>, k: nat, keep: T -> bool) returns (i: nat)
    requires k < |Filter(s, keep)|
    ensures i < |s| && keep(s[i])
    ensures k == |Filter(s[..i], keep)| && Filter(s, keep)[k] == s[i]
    decreases |s|
  {
    var init := s[..|s| - 1];
    if k < |Filter(init, keep)| {
      i := FilterSource(init, k, keep);
      assert init[..i] == s[..i];
    } else {
      i := |s| - 1;
      assert s[..i] == init;
    }
  }

  /** The position of the first element that satisfies p, or |s| when none does: a linear search. */
  function FirstIndex<T>(s: seq<T>, p: T -> bool): (n: nat)
    ensures n <= |s|
    ensures n < |s| ==> p(s[n])
    ensures forall j :: 0 <= j < n ==> !p(s[j])
  {
    if s == [] then 0
    else if p(s[0]) then 0
    else 1 + FirstIndex(s[1..], p)
  }

  /** No value occurs twice. */
  predicate NoDuplicates<T(==)>(s: seq<T>)
  {
    forall i, j :: 0 <= i < j < |s| ==> s[i] != s[j]
  }

  /** A sequence without duplicates has as many distinct values as elements. */
  lemma {:induction false} DistinctCount<T>(s: seq<T>)
    requires NoDuplicates(s)
    ensures |set x | x in s| == |s|
    decreases |s|
  {
    if s != [] {
      var init, last := s[..|s| - 1], s[|s| - 1];
      DistinctCount(init);
      assert s == init + [last];
      assert last !in init;
      assert (set x | x in s) == (set x | x in init) + {last};
    }
  }
}
