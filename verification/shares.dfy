/** Shares of a whole: the ratios the policy guard and the backtest report compute. */
module Shares {

  /** A part of a positive whole, taken as a share: multiplying back gives the part, the share
      is positive exactly with the part, and it is at most 1 when the part fits in the whole. */
  lemma ShareBounds(part: nat, whole: nat)
    requires 0 < whole
    ensures (part as real / whole as real) * whole as real == part as real
    ensures 0.0 <= part as real / whole as real
    ensures part as real / whole as real > 0.0 <==> part > 0
    ensures part <= whole ==> part as real / whole as real <= 1.0
  {
    var q := part as real / whole as real;
    assert q * whole as real == part as real;
  }
}
