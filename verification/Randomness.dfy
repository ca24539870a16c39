/** The session's random source, as an oracle that is constrained only by its ranges. */
module Randomness {

  method Chance(probability: real) returns (hit: bool)
    ensures probability <= 0.0 ==> !hit
    ensures probability >= 1.0 ==> hit
  {
    hit :| (probability <= 0.0 ==> !hit) && (probability >= 1.0 ==> hit);
  }

  method DrawIndex(min: nat, max: nat) returns (n: nat)
    ensures if min >= max then n == min else min <= n <= max
  {
    if min >= max {
      return min;
    }
    n :| min <= n <= max;
  }

  method DrawReal(min: real, max: real) returns (x: real)
    ensures if min >= max then x == min else min <= x < max
  {
    if min >= max {
      return min;
    }
    x := *;
    if !(min <= x < max) {
      x := min;
    }
  }

  /** A draw from the half-open range `[min, max)`, cut down to whole milliseconds. */
  method DrawMs(min: nat, max: nat) returns (n: nat)
    ensures if min >= max then n == min else min <= n < max
  {
    if min >= max {
      return min;
    }
    n :| min <= n < max;
  }

  /** A draw from `[-max, max)`, or zero when there is no room. */
  method Offset(max: real) returns (x: real)
    ensures if max <= 0.0 then x == 0.0 else -max <= x < max
  {
    if max <= 0.0 {
      return 0.0;
    }
    x := DrawReal(-max, max);
  }
}
