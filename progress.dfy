/** The simulated progress bar of the forms: an interval timer moves the value by a fixed
    step and parks it at 90 until the reply arrives (then 100) or an error resets it (then 0).
    The redeem form steps by 5, the other forms by 10. */
module Progress {

  const Ceiling: int := 90
  const Done: int := 100

  /** One interval tick: `prev >= 90 ? 90 : prev + step`. */
  function Tick(prev: int, step: nat): int
  {
    if prev >= Ceiling then Ceiling else prev + step
  }

  /** The value after `k` ticks from 0. */
  function Ticks(k: nat, step: nat): int
  {
    if k == 0 then 0 else Tick(Ticks(k - 1, step), step)
  }

  /** The ticker climbs in steps of `step` until it reaches 90 and never leaves [0, 90]
      for the two steps the forms use. */
  lemma {:induction false} TicksBounded(k: nat, step: nat)
    requires step == 5 || step == 10
    ensures Ticks(k, step) == if k * step < Ceiling then k * step else Ceiling
    ensures 0 <= Ticks(k, step) <= Ceiling
  {
    if k > 0 {
      TicksBounded(k - 1, step);
      if step == 5 {
        assert (k - 1) * 5 == k * 5 - 5;
      } else {
        assert (k - 1) * 10 == k * 10 - 10;
      }
    }
  }

  /** The two steps the forms use both stay within [0, 90]. */
  lemma FormTickersBounded(k: nat)
    ensures 0 <= Ticks(k, 5) <= Ceiling && 0 <= Ticks(k, 10) <= Ceiling
    ensures k >= 18 ==> Ticks(k, 5) == Ceiling
    ensures k >= 9 ==> Ticks(k, 10) == Ceiling
  {
    TicksBounded(k, 5);
    TicksBounded(k, 10);
  }
}
