/**
 * Sequence operations behind the store's list handling: the order-preserving
 * filter a Python list comprehension with an `if` performs, the
 * "is an order-preserving subsequence of" relation, duplicate-freedom, and
 * Python's `list.remove`, which deletes the first occurrence of a value.
 */
module Lists {

  /* ---------------------------------------------------------------------- */
  /* Filtering                                                              */
  /* ---------------------------------------------------------------------- */

  /** `[x for x in s if p(x)]`. Defined from the back, the way a loop appends. */
  function Filter<T>(s: seq<T>, p: T -> bool): seq<T> {
    if s == [] then []
    else Filter(s[..|s| - 1], p) + (if p(s[|s| - 1]) then [s[|s| - 1]] else [])
  }

  /** An element the predicate rejects adds nothing to the filter. */
  lemma FilterSkipsLast<T>(s: seq<T>, p: T -> bool)
    requires s != [] && !p(s[|s| - 1])
    ensures Filter(s, p) == Filter(s[..|s| - 1], p)
  {
  }

  /** Extending the prefix by one element extends the filter by that element when it is kept. */
  lemma FilterPrefixStep<T>(s: seq<T>, p: T -> bool, k: nat)
    requires k < |s|
    ensures Filter(s[..k + 1], p) == Filter(s[..k], p) + (if p(s[k]) then [s[k]] else [])
  {
    assert s[..k + 1][..k] == s[..k];
  }

  /** The conjunction of two selection predicates. */
  function Both<T>(p: T -> bool, q: T -> bool): T -> bool {
    x => p(x) && q(x)
  }

  /** The filter keeps exactly the elements that satisfy the predicate. */
  lemma {:induction false} FilterMembers<T>(s: seq<T>, p: T -> bool)
    ensures forall x :: x in Filter(s, p) <==> x in s && p(x)
  {
    if s != [] {
      FilterMembers(s[..|s| - 1], p);
      assert s == s[..|s| - 1] + [s[|s| - 1]];
    }
  }

  /** A predicate that holds throughout keeps the whole sequence. */
  lemma {:induction false} FilterKeepsAll<T>(s: seq<T>, p: T -> bool)
    requires forall k :: 0 <= k < |s| ==> p(s[k])
    ensures Filter(s, p) == s
  {
    if s != [] {
      FilterKeepsAll(s[..|s| - 1], p);
      assert s == s[..|s| - 1] + [s[|s| - 1]];
    }
  }

  /** A predicate that holds nowhere keeps nothing. */
  lemma {:induction false} FilterKeepsNone<T>(s: seq<T>, p: T -> bool)
    requires forall k :: 0 <= k < |s| ==> !p(s[k])
    ensures Filter(s, p) == []
  {
    if s != [] {
      FilterKeepsNone(s[..|s| - 1], p);
      FilterSkipsLast(s, p);
    }
  }

  /** An element the predicate accepts makes the filter non-empty. */
  lemma {:induction false} FilterKeepsOne<T>(s: seq<T>, p: T -> bool, k: nat)
    requires k < |s| && p(s[k])
    ensures Filter(s, p) != []
  {
    if k < |s| - 1 {
      FilterKeepsOne(s[..|s| - 1], p, k);
    }
  }

  /** Filtering by `p` and then by `q` is filtering by both at once. */
  lemma {:induction false} FilterFilter<T>(s: seq<T>, p: T -> bool, q: T -> bool)
    ensures Filter(Filter(s, p), q) == Filter(s, Both(p, q))
  {
    if s != [] {
      var init, last := s[..|s| - 1], s[|s| - 1];
      FilterFilter(init, p, q);
      assert Both(p, q)(last) == (p(last) && q(last));
      if p(last) {
        var f := Filter(init, p) + [last];
        assert f[..|f| - 1] == Filter(init, p) && f[|f| - 1] == last;
      } else {
        FilterSkipsLast(s, p);
        FilterSkipsLast(s, Both(p, q));
      }
    }
  }

  /* ---------------------------------------------------------------------- */
  /* Subsequences                                                           */
  /* ---------------------------------------------------------------------- */

  /** `a` is obtained from `b` by deleting elements, keeping the order of the rest. */
  predicate IsSubsequence<T(==)>(a: seq<T>, b: seq<T>)
    decreases |b|
  {
    a == [] ||
    (b != [] &&
      ((a[|a| - 1] == b[|b| - 1] && IsSubsequence(a[..|a| - 1], b[..|b| - 1]))
       || IsSubsequence(a, b[..|b| - 1])))
  }

  /** A subsequence is no longer than the sequence it comes from. */
  lemma {:induction false} SubsequenceLength<T>(a: seq<T>, b: seq<T>)
    requires IsSubsequence(a, b)
    ensures |a| <= |b|
    decreases |b|
  {
    if a != [] {
      if a[|a| - 1] == b[|b| - 1] && IsSubsequence(a[..|a| - 1], b[..|b| - 1]) {
        SubsequenceLength(a[..|a| - 1], b[..|b| - 1]);
      } else {
        SubsequenceLength(a, b[..|b| - 1]);
      }
    }
  }

  lemma {:induction false} SubsequenceRefl<T>(a: seq<T>)
    ensures IsSubsequence(a, a)
    decreases |a|
  {
    if a != [] {
      SubsequenceRefl(a[..|a| - 1]);
    }
  }

  /** A filter keeps the order of what it keeps. */
  lemma {:induction false} FilterSubsequence<T>(s: seq<T>, p: T -> bool)
    ensures IsSubsequence(Filter(s, p), s)
    ensures |Filter(s, p)| <= |s|
  {
    if s != [] {
      var init, last := s[..|s| - 1], s[|s| - 1];
      FilterSubsequence(init, p);
      if p(last) {
        var f := Filter(init, p) + [last];
        assert f[..|f| - 1] == Filter(init, p) && f[|f| - 1] == last;
        assert IsSubsequence(f, s);
      } else {
        FilterSkipsLast(s, p);
        assert IsSubsequence(Filter(init, p), s);
      }
    }
    SubsequenceLength(Filter(s, p), s);
  }

  /* ---------------------------------------------------------------------- */
  /* Duplicates and removal of the first occurrence                         */
  /* ---------------------------------------------------------------------- */

  predicate NoDuplicates<T(==)>(s: seq<T>) {
    forall i, j :: 0 <= i < j < |s| ==> s[i] != s[j]
  }

  /** Where `x` first occurs in `s`. */
  function FirstIndex<T(==)>(s: seq<T>, x: T): (k: nat)
    requires x in s
    ensures k < |s| && s[k] == x && x !in s[..k]
  {
    if s[0] == x then 0
    else
      var k := 1 + FirstIndex(s[1..], x);
      assert s[..k] == [s[0]] + s[1..][..k - 1];
      k
  }

  /** Python's `s.remove(x)` on a list that holds `x`. */
  function RemoveFirst<T(==)>(s: seq<T>, x: T): (r: seq<T>)
    requires x in s
    ensures r == s[..FirstIndex(s, x)] + s[FirstIndex(s, x) + 1..]
  {
    if s[0] == x then s[1..]
    else
      var r := [s[0]] + RemoveFirst(s[1..], x);
      assert s[1..][..FirstIndex(s, x) - 1] == s[1..FirstIndex(s, x)];
      r
  }

  /** Removing deletes exactly one copy of `x` and nothing else. */
  lemma RemoveFirstMultiset<T>(s: seq<T>, x: T)
    requires x in s
    ensures multiset(RemoveFirst(s, x)) == multiset(s) - multiset{x}
  {
    var k := FirstIndex(s, x);
    assert s == s[..k] + [x] + s[k + 1..];
  }

  /** What is left after removal keeps its order. */
  lemma RemoveFirstSubsequence<T>(s: seq<T>, x: T)
    requires x in s
    ensures IsSubsequence(RemoveFirst(s, x), s)
  {
    var k := FirstIndex(s, x);
    RemoveFirstSubsequenceFrom(s, k);
  }

  lemma {:induction false} RemoveFirstSubsequenceFrom<T>(s: seq<T>, k: nat)
    requires k < |s|
    ensures IsSubsequence(s[..k] + s[k + 1..], s)
    decreases |s|
  {
    var r := s[..k] + s[k + 1..];
    if k == |s| - 1 {
      assert r == s[..|s| - 1];
      SubsequenceRefl(r);
    } else {
      var s' := s[..|s| - 1];
      RemoveFirstSubsequenceFrom(s', k);
      assert r[..|r| - 1] == s'[..k] + s'[k + 1..];
      assert r[|r| - 1] == s[|s| - 1];
    }
  }

  /** On a duplicate-free list removal takes `x` out entirely and keeps the list duplicate-free. */
  lemma RemoveFirstNoDuplicates<T>(s: seq<T>, x: T)
    requires x in s && NoDuplicates(s)
    ensures x !in RemoveFirst(s, x)
    ensures NoDuplicates(RemoveFirst(s, x))
  {
    var k := FirstIndex(s, x);
    var r := RemoveFirst(s, x);
    forall i | 0 <= i < |r| ensures r[i] != x {
      if i < k { assert r[i] == s[i]; } else { assert r[i] == s[i + 1]; }
    }
    forall i, j | 0 <= i < j < |r| ensures r[i] != r[j] {
      var i' := if i < k then i else i + 1;
      var j' := if j < k then j else j + 1;
      assert r[i] == s[i'] && r[j] == s[j'];
    }
  }
}
