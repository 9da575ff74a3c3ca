/** `Instant::elapsed` and `saturating_sub`: a difference of readings never goes below zero. */
module Clocks {
  function SaturatingSub(a: nat, b: nat): nat { if a >= b then a - b else 0 }

  function Elapsed(now: nat, since: nat): nat { SaturatingSub(now, since) }
}
