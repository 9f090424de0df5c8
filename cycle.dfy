/** The round-robin selector behind every "next"/"previous" button: a cursor
    over a fixed ordered list, written as an index into a sequence of `n`
    nodes. The configurators move their cursors with the source's own
    comparison against the first and last node; these functions are the
    specification those moves are proved against. */
module Cycle {
  import opened Common

  /** Index of the node after `i`; the last node is followed by the first. */
  function Next(i: nat, n: nat): (r: nat)
    requires i < n
    ensures r < n
    ensures r == (i + 1) % n
  {
    if i == n - 1 then 0 else i + 1
  }

  /** Index of the node before `i`; the first node is preceded by the last. */
  function Prev(i: nat, n: nat): (r: nat)
    requires i < n
    ensures r < n
    ensures Next(r, n) == i
  {
    if i == 0 then n - 1 else i - 1
  }

  /** The cursor after `k` presses of "next". */
  function Advance(i: nat, n: nat, k: nat): (r: nat)
    requires i < n
    ensures r < n
  {
    if k == 0 then i else Next(Advance(i, n, k - 1), n)
  }

  /** Index of the last element equal to `v`, searching from the tail as
      `LinkedList.FindLast` does; `None` stands for the null node it returns
      when `v` is absent. */
  function FindLast<T(==)>(s: seq<T>, v: T): (r: Option<nat>)
    ensures r.None? <==> v !in s
    ensures r.Some? ==> r.value < |s| && s[r.value] == v
    ensures r.Some? ==> forall j :: r.value < j < |s| ==> s[j] != v
  {
    if |s| == 0 then None
    else if s[|s| - 1] == v then Some(|s| - 1)
    else FindLast(s[..|s| - 1], v)
  }

  /** "Previous" undoes "next". */
  lemma PrevUndoesNext(i: nat, n: nat)
    requires i < n
    ensures Prev(Next(i, n), n) == i
  {
  }

  /** "Next" undoes "previous". */
  lemma NextUndoesPrev(i: nat, n: nat)
    requires i < n
    ensures Next(Prev(i, n), n) == i
  {
  }

  /** `k` presses of "next" move the cursor `k` places round the ring. */
  lemma {:induction false} AdvanceIsRotation(i: nat, n: nat, k: nat)
    requires i < n
    ensures Advance(i, n, k) == (i + k) % n
  {
    if k > 0 {
      AdvanceIsRotation(i, n, k - 1);
      var a := Advance(i, n, k - 1);
      assert a == (i + k - 1) % n;
      ModSucc(i + k - 1, n);
    }
  }

  /** Taking the successor commutes with reduction modulo `n`. */
  lemma ModSucc(x: nat, n: nat)
    requires n > 0
    ensures ((x % n) + 1) % n == (x + 1) % n
  {
    var q, r := x / n, x % n;
    assert x == q * n + r;
    if r + 1 == n {
      assert x + 1 == (q + 1) * n + 0;
      ModUnique(x + 1, n, q + 1, 0);
      ModUnique(r + 1, n, 1, 0);
    } else {
      assert x + 1 == q * n + (r + 1);
      ModUnique(x + 1, n, q, r + 1);
      ModUnique(r + 1, n, 0, r + 1);
    }
  }

  /** Quotient and remainder are unique. */
  lemma ModUnique(y: int, n: int, q: int, s: int)
    requires n > 0 && 0 <= s < n && y == q * n + s
    ensures y % n == s
  {
    var q', s' := y / n, y % n;
    assert y == q' * n + s';
    if q' > q {
      MulAtLeast(q' - q, n);
      assert false;
    } else if q' < q {
      MulAtLeast(q - q', n);
      assert false;
    }
  }

  lemma MulAtLeast(d: int, n: int)
    requires d >= 1 && n > 0
    ensures d * n >= n
  {
  }

  /** Pressing "next" once per node brings the cursor back where it started. */
  lemma FullTurnIsIdentity(i: nat, n: nat)
    requires i < n
    ensures Advance(i, n, n) == i
  {
    AdvanceIsRotation(i, n, n);
    ModUnique(i + n, n, 1, i);
  }
}
