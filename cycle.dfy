/** A cursor that walks a list of `n` entries, as `index = (index + 1) % n` does in the
    name and message generators, and what repeated steps do to it. */
module Cycle {

  /** The cursor after one call on a list of `n` entries. */
  function Step(n: nat, i: nat): nat
    requires n > 0
  {
    (i + 1) % n
  }

  /** The cursor after `k` calls starting from `i`. */
  function CursorAfter(n: nat, i: nat, k: nat): nat
    requires n > 0
  {
    if k == 0 then i else Step(n, CursorAfter(n, i, k - 1))
  }

  lemma {:induction false} CursorInRange(n: nat, i: nat, k: nat)
    requires n > 0 && i < n
    ensures CursorAfter(n, i, k) < n
  {
    if k > 0 {
      CursorInRange(n, i, k - 1);
    }
  }

  /** Within the list the step is "next position, wrapping at the end". */
  lemma StepWraps(n: nat, i: nat)
    requires i < n
    ensures Step(n, i) == if i + 1 == n then 0 else i + 1
  {
  }

  /** Calls compose: `a + b` calls are `a` calls followed by `b` calls. */
  lemma {:induction false} CursorAfterAdd(n: nat, i: nat, a: nat, b: nat)
    requires n > 0
    ensures CursorAfter(n, i, a + b) == CursorAfter(n, CursorAfter(n, i, a), b)
  {
    if b > 0 {
      CursorAfterAdd(n, i, a, b - 1);
    }
  }

  /** The first lap from position 0 visits 0, 1, ..., n - 1 and ends back at 0. */
  lemma {:induction false} FirstLap(n: nat, j: nat)
    requires 0 < n && j <= n
    ensures CursorAfter(n, 0, j) == if j == n then 0 else j
  {
    if j > 0 {
      FirstLap(n, j - 1);
      StepWraps(n, j - 1);
    }
  }

}
