/** Sequence and string helpers shared by the other modules. */
module Seqs {

  /** No element occurs twice (the keys of a Python dict, the members of a set listing). */
  ghost predicate NoDup<T>(s: seq<T>)
  {
    forall i, j :: 0 <= i < j < |s| ==> s[i] != s[j]
  }

  /** The elements of `s` as a set. */
  function Elems<T>(s: seq<T>): set<T>
  {
    set x | x in s
  }

  /** `r` can be obtained from `s` by deleting elements: `r` keeps the relative order of `s`. */
  ghost predicate Subsequence<T>(r: seq<T>, s: seq<T>)
    decreases |s|
  {
    if |r| == 0 then true
    else if |s| == 0 then false
    else (r[0] == s[0] && Subsequence(r[1..], s[1..])) || Subsequence(r, s[1..])
  }

  /** The elements of `s` that satisfy `p`, in the order of `s` (a Python list comprehension with an `if`). */
  function Filter<T>(s: seq<T>, p: T -> bool): (r: seq<T>)
    ensures |r| <= |s|
    ensures forall i :: 0 <= i < |r| ==> r[i] in s && p(r[i])
    ensures forall i :: 0 <= i < |s| && p(s[i]) ==> s[i] in r
    decreases |s|
  {
    if |s| == 0 then []
    else
      var rest := Filter(s[1..], p);
      if p(s[0]) then [s[0]] + rest else rest
  }

  /** Filtering deletes elements but never reorders them. */
  lemma {:induction false} FilterIsSubsequence<T>(s: seq<T>, p: T -> bool)
    ensures Subsequence(Filter(s, p), s)
    decreases |s|
  {
    if |s| > 0 {
      FilterIsSubsequence(s[1..], p);
      var r := Filter(s, p);
      if p(s[0]) {
        assert r[1..] == Filter(s[1..], p);
      }
      SubsequenceOfTail(r, s);
    }
  }

  lemma {:induction false} SubsequenceOfTail<T>(r: seq<T>, s: seq<T>)
    requires |s| > 0
    requires (|r| > 0 && r[0] == s[0] && Subsequence(r[1..], s[1..])) || Subsequence(r, s[1..])
    ensures Subsequence(r, s)
  {
  }

  /** Filtering a list without repeats gives a list without repeats. */
  lemma {:induction false} FilterNoDup<T>(s: seq<T>, p: T -> bool)
    requires NoDup(s)
    ensures NoDup(Filter(s, p))
    decreases |s|
  {
    if |s| > 0 {
      assert NoDup(s[1..]);
      FilterNoDup(s[1..], p);
      if p(s[0]) {
        var r := Filter(s, p);
        assert r[1..] == Filter(s[1..], p);
        assert s[0] !in s[1..];
      }
    }
  }

  /** `Filter` one step at a time from the front. */
  lemma FilterCons<T>(s: seq<T>, p: T -> bool)
    requires |s| > 0
    ensures Filter(s, p) == (if p(s[0]) then [s[0]] else []) + Filter(s[1..], p)
  {
  }

  /** Python's `sep.join(parts)`. */
  function Join(sep: string, parts: seq<string>): string
    decreases |parts|
  {
    if |parts| == 0 then ""
    else if |parts| == 1 then parts[0]
    else parts[0] + sep + Join(sep, parts[1..])
  }

  /** `needle` occurs in `hay` starting at position `i`. */
  ghost predicate OccursAt(hay: string, needle: string, i: int)
  {
    0 <= i <= |hay| - |needle| && hay[i..i + |needle|] == needle
  }

  /** `needle` occurs as a contiguous piece of `hay` (Python's `needle in hay`). */
  ghost predicate Contains(hay: string, needle: string)
  {
    exists i :: OccursAt(hay, needle, i)
  }

  lemma ContainsPrefix(a: string, b: string)
    ensures Contains(a + b, a)
  {
    assert (a + b)[0..|a|] == a;
    assert OccursAt(a + b, a, 0);
  }

  lemma ContainsShift(a: string, b: string, needle: string)
    requires Contains(b, needle)
    ensures Contains(a + b, needle)
  {
    var i :| OccursAt(b, needle, i);
    assert (a + b)[|a| + i..|a| + i + |needle|] == b[i..i + |needle|];
    assert OccursAt(a + b, needle, |a| + i);
  }

  /** Every part of a joined string occurs in it: no part is lost by `join`. */
  lemma {:induction false} JoinContainsPart(sep: string, parts: seq<string>, k: nat)
    requires k < |parts|
    ensures Contains(Join(sep, parts), parts[k])
    decreases |parts|
  {
    if |parts| == 1 {
      assert Join(sep, parts) == parts[0];
      assert Join(sep, parts)[0..|parts[0]|] == parts[0];
      assert OccursAt(Join(sep, parts), parts[0], 0);
    } else if k == 0 {
      assert Join(sep, parts) == parts[0] + (sep + Join(sep, parts[1..]));
      ContainsPrefix(parts[0], sep + Join(sep, parts[1..]));
    } else {
      JoinContainsPart(sep, parts[1..], k - 1);
      assert parts[1..][k - 1] == parts[k];
      assert Join(sep, parts) == (parts[0] + sep) + Join(sep, parts[1..]);
      ContainsShift(parts[0] + sep, Join(sep, parts[1..]), parts[k]);
    }
  }

  /** Position of the first occurrence of `x` in `s`. */
  function IndexOf<T(==)>(s: seq<T>, x: T): (i: nat)
    requires x in s
    ensures i < |s| && s[i] == x
    ensures forall j :: 0 <= j < i ==> s[j] != x
  {
    if s[0] == x then 0 else 1 + IndexOf(s[1..], x)
  }

  /** An element of a prefix is first found in the whole list where it is first found in the prefix. */
  lemma IndexOfPrefix<T>(s: seq<T>, k: nat, x: T)
    requires k <= |s| && x in s[..k]
    ensures x in s && IndexOf(s, x) == IndexOf(s[..k], x)
  {
    var i := IndexOf(s[..k], x);
    assert s[i] == x;
    assert forall j :: 0 <= j < i ==> s[j] == s[..k][j] != x;
  }

  /** An element missing from all but the last entry is first found at the last entry. */
  lemma IndexOfLast<T>(s: seq<T>, x: T)
    requires |s| > 0 && s[|s| - 1] == x && x !in s[..|s| - 1]
    ensures IndexOf(s, x) == |s| - 1
  {
    assert forall j :: 0 <= j < |s| - 1 ==> s[j] == s[..|s| - 1][j] != x;
  }

  /** A list without repeats has as many distinct elements as entries. */
  lemma {:induction false} NoDupCardinality<T>(s: seq<T>)
    requires NoDup(s)
    ensures |Elems(s)| == |s|
    decreases |s|
  {
    if |s| > 0 {
      var init := s[..|s| - 1];
      assert NoDup(init);
      NoDupCardinality(init);
      assert Elems(s) == Elems(init) + {s[|s| - 1]};
      assert s[|s| - 1] !in Elems(init);
    }
  }

  /** Two lists without repeats and without common elements concatenate to a list without repeats. */
  lemma NoDupConcat<T>(a: seq<T>, b: seq<T>)
    requires NoDup(a) && NoDup(b)
    requires forall i :: 0 <= i < |a| ==> a[i] !in b
    ensures NoDup(a + b)
  {
    forall i, j | 0 <= i < j < |a + b|
      ensures (a + b)[i] != (a + b)[j]
    {
      if i < |a| && j >= |a| {
        assert (a + b)[j] == b[j - |a|];
      }
    }
  }
}
