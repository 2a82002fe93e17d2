/** Equal-jitter exponential backoff (src/ravana/runtime/backoff.py), over the reals. */
module Backoff {
  const LARGEST_EXPONENT := 1023

  function Doubled(base: real, times: nat): real {
    if times == 0 then base else 2.0 * Doubled(base, times - 1)
  }

  /** The capped exponential for the k-th consecutive failure. */
  function Ceiling(k: nat, base: real, cap: real): real
    requires k >= 1
  {
    var doubled := Doubled(base, k - 1);
    if cap < doubled then cap else doubled
  }

  /** 2^(k-1) no longer converts to a float: the source's product raises OverflowError. */
  predicate Overflows(k: nat) {
    k > LARGEST_EXPONENT + 1
  }

  /** `rng(b)` draws from [0, b]. */
  function Delay(k: nat, base: real, cap: real, rng: real -> real): real
    requires k >= 1
  {
    var exp := Ceiling(k, base, cap);
    exp / 2.0 + rng(exp / 2.0)
  }

  lemma {:induction false} DoubledGrows(base: real, times: nat)
    requires base >= 0.0
    ensures 0.0 <= base <= Doubled(base, times) <= Doubled(base, times + 1)
  {
    if times > 0 {
      DoubledGrows(base, times - 1);
    }
  }

  /**
   * A delay lies between half the capped exponential and all of it, and the
   * capped exponential never shrinks as the streak grows nor passes the cap.
   */
  lemma DelayBounds(k: nat, base: real, cap: real, rng: real -> real)
    requires k >= 1 && base >= 0.0 && cap >= 0.0
    requires forall b :: b >= 0.0 ==> 0.0 <= rng(b) <= b
    ensures Ceiling(k, base, cap) / 2.0 <= Delay(k, base, cap, rng) <= Ceiling(k, base, cap) <= cap
    ensures Ceiling(k, base, cap) <= Ceiling(k + 1, base, cap)
  {
    DoubledGrows(base, k - 1);
  }

  /** The ceiling starts at the base, doubles with each failure, and stops at the cap. */
  lemma CeilingDoubles(k: nat, base: real, cap: real)
    requires k >= 1 && base >= 0.0 && cap >= 0.0
    ensures Ceiling(1, base, cap) == if cap < base then cap else base
    ensures var twice := Ceiling(k, base, cap) + Ceiling(k, base, cap);
            Ceiling(k + 1, base, cap) == if cap < twice then cap else twice
  {
    DoubledGrows(base, k - 1);
  }

  /** Both bounds are met: half the ceiling by the lowest draw, all of it by the highest. */
  lemma BoundsAreMet(k: nat, base: real, cap: real)
    requires k >= 1
    ensures Delay(k, base, cap, (b: real) => 0.0) * 2.0 == Ceiling(k, base, cap)
    ensures Delay(k, base, cap, (b: real) => b) == Ceiling(k, base, cap)
  {
  }
}
