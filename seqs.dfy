/** Order-preserving filtering of sequences (JavaScript's `Array.prototype.filter`). */
module Seqs {

  /** `a` can be obtained from `b` by deleting elements, keeping the order of the rest. */
  ghost predicate IsSubsequence<T>(a: seq<T>, b: seq<T>)
    decreases |b|
  {
    a == [] ||
    (b != [] && ((a[0] == b[0] && IsSubsequence(a[1..], b[1..])) || IsSubsequence(a, b[1..])))
  }

  /**
   * The elements of `s` that satisfy `p`, in their original order. Every passing element is
   * kept as often as it occurs, and the subsequence property fixes the order.
   */
  function Filter<T>(s: seq<T>, p: T -> bool): (r: seq<T>)
    ensures |r| <= |s|
    ensures forall i :: 0 <= i < |r| ==> r[i] in s && p(r[i])
    ensures forall i :: 0 <= i < |s| && p(s[i]) ==> s[i] in r
    ensures IsSubsequence(r, s)
    ensures forall i :: 0 <= i < |s| ==> multiset(r)[s[i]] == if p(s[i]) then multiset(s)[s[i]] else 0
    decreases |s|
  {
    if s == [] then []
    else
      assert s == [s[0]] + s[1..];
      if p(s[0]) then [s[0]] + Filter(s[1..], p)
      else Filter(s[1..], p)
  }

  /** Filtering keeps everything when every element passes. */
  lemma {:induction false} FilterKeepsAll<T>(s: seq<T>, p: T -> bool)
    requires forall i :: 0 <= i < |s| ==> p(s[i])
    ensures Filter(s, p) == s
    decreases |s|
  {
    if s != [] {
      FilterKeepsAll(s[1..], p);
    }
  }

  /** Two successive filters keep exactly what one filter on the conjunction keeps. */
  lemma {:induction false} FilterFilter<T>(s: seq<T>, p: T -> bool, q: T -> bool)
    ensures Filter(Filter(s, p), q) == Filter(s, x => p(x) && q(x))
    decreases |s|
  {
    if s != [] {
      FilterFilter(s[1..], p, q);
      if p(s[0]) {
        assert Filter(s, p) == [s[0]] + Filter(s[1..], p);
        assert ([s[0]] + Filter(s[1..], p))[1..] == Filter(s[1..], p);
      }
    }
  }

  /** The order in which two filters run does not matter. */
  lemma FilterCommutes<T>(s: seq<T>, p: T -> bool, q: T -> bool)
    ensures Filter(Filter(s, p), q) == Filter(Filter(s, q), p)
  {
    FilterFilter(s, p, q);
    FilterFilter(s, q, p);
    FilterSameTest(s, x => p(x) && q(x), x => q(x) && p(x));
  }

  /** Filtering by two tests that agree everywhere gives the same result. */
  lemma {:induction false} FilterSameTest<T>(s: seq<T>, p: T -> bool, q: T -> bool)
    requires forall x :: p(x) == q(x)
    ensures Filter(s, p) == Filter(s, q)
    decreases |s|
  {
    if s != [] {
      FilterSameTest(s[1..], p, q);
    }
  }

  /**
   * The shape of a filter effect: start from the whole list, filter by `p` when `b1`,
   * then by `q` when `b2`. The outcome is one filter by the combined test `r`.
   */
  lemma StagedFilter<T>(s: seq<T>, b1: bool, p: T -> bool, b2: bool, q: T -> bool, r: T -> bool)
    requires forall x :: r(x) == ((b1 ==> p(x)) && (b2 ==> q(x)))
    ensures (var s1 := if b1 then Filter(s, p) else s; if b2 then Filter(s1, q) else s1) == Filter(s, r)
  {
    if b1 && b2 {
      FilterFilter(s, p, q);
      FilterSameTest(s, x => p(x) && q(x), r);
    } else if b1 {
      FilterSameTest(s, p, r);
    } else if b2 {
      FilterSameTest(s, q, r);
    } else {
      FilterKeepsAll(s, r);
    }
  }

  /** A subsequence of a subsequence is a subsequence. */
  lemma {:induction false} SubsequenceTransitive<T>(a: seq<T>, b: seq<T>, c: seq<T>)
    requires IsSubsequence(a, b) && IsSubsequence(b, c)
    ensures IsSubsequence(a, c)
    decreases |c|
  {
    if a != [] {
      if b[0] == c[0] && IsSubsequence(b[1..], c[1..]) {
        if a[0] == b[0] && IsSubsequence(a[1..], b[1..]) {
          SubsequenceTransitive(a[1..], b[1..], c[1..]);
        } else {
          SubsequenceTransitive(a, b[1..], c[1..]);
        }
      } else {
        SubsequenceTransitive(a, b, c[1..]);
      }
    }
  }

  /** A subsequence never holds an element more often than the sequence it comes from. */
  lemma {:induction false} SubsequenceMultiset<T>(a: seq<T>, b: seq<T>)
    requires IsSubsequence(a, b)
    ensures multiset(a) <= multiset(b)
    decreases |b|
  {
    if a != [] {
      assert b == [b[0]] + b[1..];
      if a[0] == b[0] && IsSubsequence(a[1..], b[1..]) {
        SubsequenceMultiset(a[1..], b[1..]);
        assert a == [a[0]] + a[1..];
      } else {
        SubsequenceMultiset(a, b[1..]);
      }
    }
  }

  /**
   * `Filter`'s contract determines its result: a subsequence of `s` that keeps every
   * passing element as often as it occurs, and no other element, is `Filter(s, p)`.
   */
  lemma {:induction false} FilterIsUnique<T>(s: seq<T>, p: T -> bool, r: seq<T>)
    requires IsSubsequence(r, s)
    requires forall i :: 0 <= i < |s| ==> multiset(r)[s[i]] == if p(s[i]) then multiset(s)[s[i]] else 0
    ensures r == Filter(s, p)
    decreases |s|
  {
    if s != [] {
      var x, t := s[0], s[1..];
      assert s == [x] + t;
      if r != [] && r[0] == x && IsSubsequence(r[1..], t) {
        assert r == [x] + r[1..];
        assert p(x) by {
          assert multiset(r)[x] >= 1;
        }
        forall i | 0 <= i < |t|
          ensures multiset(r[1..])[t[i]] == if p(t[i]) then multiset(t)[t[i]] else 0
        {
          assert t[i] == s[i + 1];
        }
        FilterIsUnique(t, p, r[1..]);
      } else {
        assert IsSubsequence(r, t);
        if p(x) {
          SubsequenceMultiset(r, t);
          assert false;
        }
        forall i | 0 <= i < |t|
          ensures multiset(r)[t[i]] == if p(t[i]) then multiset(t)[t[i]] else 0
        {
          assert t[i] == s[i + 1];
        }
        FilterIsUnique(t, p, r);
      }
    }
  }

  /** Does some element of `s` satisfy `p` (JavaScript's `Array.prototype.some`)? */
  predicate Any<T>(s: seq<T>, p: T -> bool)
  {
    exists i :: 0 <= i < |s| && p(s[i])
  }
}
