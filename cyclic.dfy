/** Index arithmetic of a carousel that wraps around: `(i + 1) % n` and `(i - 1 + n) % n`. */
module Cyclic {

  /** The index after `i`; the last index wraps to the first. */
  function Next(i: int, n: nat): (r: nat)
    requires 0 <= i < n
    ensures r < n
    ensures r == if i == n - 1 then 0 else i + 1
  {
    (i + 1) % n
  }

  /** The index before `i`; the first index wraps to the last. */
  function Prev(i: int, n: nat): (r: nat)
    requires 0 <= i < n
    ensures r < n
    ensures r == if i == 0 then n - 1 else i - 1
  {
    (i - 1 + n) % n
  }

  /** Going back undoes going forward, and going forward undoes going back. */
  lemma PrevUndoesNext(i: int, n: nat)
    requires 0 <= i < n
    ensures Prev(Next(i, n), n) == i
    ensures Next(Prev(i, n), n) == i
  {
  }

  /** The index reached from `i` after `k` steps forward. */
  function Advance(i: int, k: nat, n: nat): (r: nat)
    requires 0 <= i < n
    ensures r < n
    decreases k
  {
    if k == 0 then i else Next(Advance(i, k - 1, n), n)
  }

  /** `k` steps forward land on `(i + k) % n`. */
  lemma {:induction false} AdvanceIsModular(i: int, k: nat, n: nat)
    requires 0 <= i < n
    ensures Advance(i, k, n) == (i + k) % n
    decreases k
  {
    if k > 0 {
      AdvanceIsModular(i, k - 1, n);
      ModSucc(i + k - 1, n);
    }
  }

  lemma ModSucc(a: nat, n: nat)
    requires n > 0
    ensures (a % n + 1) % n == (a + 1) % n
  {
    var q, r := a / n, a % n;
    assert a == q * n + r;
    if r + 1 < n {
      ModUnique(r + 1, 0, r + 1, n);
      ModUnique(a + 1, q, r + 1, n);
    } else {
      assert (q + 1) * n == q * n + n;
      ModUnique(r + 1, 1, 0, n);
      ModUnique(a + 1, q + 1, 0, n);
    }
  }

  /** The remainder is determined by any decomposition `a == q * n + r` with `0 <= r < n`. */
  lemma ModUnique(a: int, q: int, r: int, n: nat)
    requires n > 0 && 0 <= r < n && a == q * n + r
    ensures a % n == r
  {
    var d := q - a / n;
    assert d * n == a % n - r;
  }

  /** `n` steps forward return to the starting index. */
  lemma FullCycle(i: int, n: nat)
    requires 0 <= i < n
    ensures Advance(i, n, n) == i
  {
    AdvanceIsModular(i, n, n);
    ModUnique(i + n, 1, i, n);
  }
}
