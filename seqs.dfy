/**
 * `Array.prototype.filter` over immutable sequences, with the laws that every
 * search, delete and linking step of the front end relies on.
 */
module Seqs {
  import opened Wrappers

  /** The elements of `s` that satisfy `p`, in their original order. */
  function Filter<T>(s: seq<T>, p: T -> bool): (r: seq<T>)
    ensures |r| <= |s|
    ensures forall x :: x in r ==> x in s && p(x)
  {
    if s == [] then []
    else if p(s[0]) then [s[0]] + Filter(s[1..], p)
    else Filter(s[1..], p)
  }

  /**
   * `a` is obtained from `b` by deleting elements; greedy matching of the
   * front elements decides this exactly.
   */
  predicate IsSubsequence<T(==)>(a: seq<T>, b: seq<T>)
    decreases |a| + |b|
  {
    if a == [] then true
    else if b == [] then false
    else if a[0] == b[0] then IsSubsequence(a[1..], b[1..])
    else IsSubsequence(a, b[1..])
  }

  lemma {:induction false} SubsequenceLength<T>(a: seq<T>, b: seq<T>)
    requires IsSubsequence(a, b)
    ensures |a| <= |b|
    decreases |a| + |b|
  {
    if a != [] && b != [] {
      if a[0] == b[0] {
        SubsequenceLength(a[1..], b[1..]);
      } else {
        SubsequenceLength(a, b[1..]);
      }
    }
  }

  lemma {:induction false} SubsequenceMembers<T>(a: seq<T>, b: seq<T>)
    requires IsSubsequence(a, b)
    ensures forall x :: x in a ==> x in b
    decreases |a| + |b|
  {
    if a != [] && b != [] {
      if a[0] == b[0] {
        SubsequenceMembers(a[1..], b[1..]);
        assert forall x :: x in a ==> x == a[0] || x in a[1..];
      } else {
        SubsequenceMembers(a, b[1..]);
      }
    }
  }

  /** Putting an element in front of the larger sequence keeps a subsequence. */
  lemma {:induction false} SubsequenceCons<T>(a: seq<T>, x: T, b: seq<T>)
    requires IsSubsequence(a, b)
    ensures IsSubsequence(a, [x] + b)
    decreases |a| + |b|, 1
  {
    assert ([x] + b)[1..] == b;
    if a != [] && a[0] == x {
      SubsequenceDrop(a, b);
    }
  }

  /** If `a` is a subsequence of `b`, so is `a` without its first element. */
  lemma {:induction false} SubsequenceDrop<T>(a: seq<T>, b: seq<T>)
    requires a != [] && IsSubsequence(a, b)
    ensures IsSubsequence(a[1..], b)
    decreases |a| + |b|, 0
  {
    assert [b[0]] + b[1..] == b;
    if a[0] == b[0] {
      SubsequenceCons(a[1..], b[0], b[1..]);
    } else {
      SubsequenceDrop(a, b[1..]);
      SubsequenceCons(a[1..], b[0], b[1..]);
    }
  }

  /** Filtering keeps a subsequence of the input: nothing is added or reordered. */
  lemma {:induction false} FilterIsSubsequence<T>(s: seq<T>, p: T -> bool)
    ensures IsSubsequence(Filter(s, p), s)
  {
    if s != [] {
      FilterIsSubsequence(s[1..], p);
      if !p(s[0]) {
        var r := Filter(s[1..], p);
        if r != [] {
          assert r[0] in r;
          assert p(r[0]);
        }
      }
    }
  }

  /** An element is kept exactly when it occurs in the input and satisfies `p`. */
  lemma {:induction false} FilterMembership<T>(s: seq<T>, p: T -> bool, x: T)
    ensures x in Filter(s, p) <==> x in s && p(x)
  {
    if s != [] {
      FilterMembership(s[1..], p, x);
      assert x in s <==> x == s[0] || x in s[1..];
    }
  }

  /** When every element satisfies `p`, filtering returns the input unchanged. */
  lemma {:induction false} FilterKeepsAll<T>(s: seq<T>, p: T -> bool)
    requires forall x :: x in s ==> p(x)
    ensures Filter(s, p) == s
  {
    if s != [] {
      assert s[0] in s;
      assert forall x :: x in s[1..] ==> x in s;
      FilterKeepsAll(s[1..], p);
      assert [s[0]] + s[1..] == s;
    }
  }

  /** When no element satisfies `p`, filtering returns the empty sequence. */
  lemma {:induction false} FilterKeepsNone<T>(s: seq<T>, p: T -> bool)
    requires forall x :: x in s ==> !p(x)
    ensures Filter(s, p) == []
  {
    if s != [] {
      assert s[0] in s;
      assert forall x :: x in s[1..] ==> x in s;
      FilterKeepsNone(s[1..], p);
    }
  }

  /** Filtering distributes over concatenation. */
  lemma {:induction false} FilterConcat<T>(a: seq<T>, b: seq<T>, p: T -> bool)
    ensures Filter(a + b, p) == Filter(a, p) + Filter(b, p)
  {
    if a == [] {
      assert a + b == b;
    } else {
      assert (a + b)[0] == a[0];
      assert (a + b)[1..] == a[1..] + b;
      FilterConcat(a[1..], b, p);
      if p(a[0]) {
        assert Filter(a + b, p) == [a[0]] + (Filter(a[1..], p) + Filter(b, p));
      }
    }
  }

  /** Two predicates that agree on every element give the same result. */
  lemma {:induction false} FilterCongruent<T>(s: seq<T>, p: T -> bool, q: T -> bool)
    requires forall x :: x in s ==> p(x) == q(x)
    ensures Filter(s, p) == Filter(s, q)
  {
    if s != [] {
      assert s[0] in s;
      assert forall x :: x in s[1..] ==> x in s;
      FilterCongruent(s[1..], p, q);
    }
  }

  /** Filtering by `p` and then by `q` is filtering once by their conjunction `r`. */
  lemma {:induction false} FilterCompose<T>(s: seq<T>, p: T -> bool, q: T -> bool, r: T -> bool)
    requires forall x :: r(x) == (p(x) && q(x))
    ensures Filter(Filter(s, p), q) == Filter(s, r)
  {
    if s != [] {
      FilterCompose(s[1..], p, q, r);
    }
  }

  /** A stronger predicate keeps a subsequence of what a weaker one keeps. */
  lemma {:induction false} FilterStronger<T>(s: seq<T>, p: T -> bool, q: T -> bool)
    requires forall x :: x in s && q(x) ==> p(x)
    ensures IsSubsequence(Filter(s, q), Filter(s, p))
  {
    if s != [] {
      assert s[0] in s;
      assert forall x :: x in s[1..] ==> x in s;
      FilterStronger(s[1..], p, q);
      if q(s[0]) {
        // both keep s[0]: the fronts match
        var r := Filter(s[1..], p);
        assert Filter(s, p) == [s[0]] + r;
      } else if p(s[0]) {
        SubsequenceCons(Filter(s[1..], q), s[0], Filter(s[1..], p));
      }
    }
  }

  /** Replacing one element changes the number of kept elements by at most one, as `p` says. */
  lemma {:induction false} FilterUpdateLength<T>(s: seq<T>, i: nat, v: T, p: T -> bool)
    requires i < |s|
    ensures |Filter(s[i := v], p)| ==
            |Filter(s, p)| - (if p(s[i]) then 1 else 0) + (if p(v) then 1 else 0)
  {
    if i == 0 {
      assert s[i := v][1..] == s[1..];
    } else {
      assert s[i := v][0] == s[0];
      assert s[i := v][1..] == s[1..][i - 1 := v];
      FilterUpdateLength(s[1..], i - 1, v, p);
    }
  }

  /** `Array.prototype.find`: the first element satisfying `p`, if any. */
  function Find<T>(s: seq<T>, p: T -> bool): Option<T> {
    if s == [] then None
    else if p(s[0]) then Some(s[0])
    else Find(s[1..], p)
  }

  /** `find` fails exactly when no element qualifies, and otherwise returns the first that does. */
  lemma {:induction false} FindSpec<T>(s: seq<T>, p: T -> bool)
    ensures Find(s, p).None? <==> forall k :: 0 <= k < |s| ==> !p(s[k])
    ensures Find(s, p).Some? ==>
      exists k :: 0 <= k < |s| && s[k] == Find(s, p).value && p(s[k]) &&
        forall j :: 0 <= j < k ==> !p(s[j])
  {
    if s != [] && !p(s[0]) {
      FindSpec(s[1..], p);
      if Find(s[1..], p).Some? {
        var k :| 0 <= k < |s[1..]| && s[1..][k] == Find(s[1..], p).value && p(s[1..][k]) &&
          forall j :: 0 <= j < k ==> !p(s[1..][j]);
        assert s[k + 1] == s[1..][k];
        forall j | 0 <= j < k + 1 ensures !p(s[j]) {
          if j > 0 { assert s[j] == s[1..][j - 1]; }
        }
      } else {
        forall k | 0 <= k < |s| ensures !p(s[k]) {
          if k > 0 { assert s[k] == s[1..][k - 1]; }
        }
      }
    } else if s != [] {
      assert s[0] == Find(s, p).value;
    }
  }
}
