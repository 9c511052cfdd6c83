/**
  The percentage rounding shared by the session summary and the progress page.
  The source computes `Math.round((a / b) * 100)` in floating point; here it is the
  exact rational 100*a/b rounded half up, computed on integers.
*/
module Percent {

  /** `Math.round((a / b) * 100)` for a positive denominator. */
  function RoundPercent(a: nat, b: nat): (r: nat)
    requires b > 0
    ensures 200 * a - b < 2 * r * b <= 200 * a + b
  {
    var q := (200 * a + b) / (2 * b);
    assert 2 * b * q + (200 * a + b) % (2 * b) == 200 * a + b;
    q
  }

  /** A share of a whole never rounds above 100 percent. */
  lemma RoundPercentAtMost100(a: nat, b: nat)
    requires 0 < b && a <= b
    ensures RoundPercent(a, b) <= 100
  {
    var r := RoundPercent(a, b);
    if r > 100 {
      MulMonotone(202, 2 * r, b);
      assert false;
    }
  }

  /** The whole is exactly 100 percent, nothing is exactly 0 percent. */
  lemma RoundPercentEnds(b: nat)
    requires b > 0
    ensures RoundPercent(b, b) == 100 && RoundPercent(0, b) == 0
  {
    var r := RoundPercent(b, b);
    assert 199 * b < 2 * r * b <= 201 * b;
    if r <= 99 {
      MulMonotone(2 * r, 198, b);
      assert false;
    } else if r >= 101 {
      MulMonotone(202, 2 * r, b);
      assert false;
    }
    var z := RoundPercent(0, b);
    assert 2 * z * b <= b;
    if z >= 1 {
      MulMonotone(2, 2 * z, b);
      assert false;
    }
  }

  /** More correct answers out of the same whole never round to a smaller percentage. */
  lemma RoundPercentMonotone(a1: nat, a2: nat, b: nat)
    requires b > 0 && a1 <= a2
    ensures RoundPercent(a1, b) <= RoundPercent(a2, b)
  {
    var r1, r2 := RoundPercent(a1, b), RoundPercent(a2, b);
    if r1 > r2 {
      // 2*r2*b > 200*a2 - b >= 200*a1 - b, and 2*r1*b <= 200*a1 + b, so 2*(r1 - r2)*b < 2*b
      assert 2 * (r1 - r2) * b < 2 * b;
      MulMonotone(1, r1 - r2, 2 * b);
      assert false;
    }
  }

  lemma MulMonotone(x: nat, y: nat, k: nat)
    requires x <= y
    ensures x * k <= y * k
  {
  }
}
