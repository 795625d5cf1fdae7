/** JavaScript's `Math.round`, taken on exact rational values rather than on
    IEEE doubles. */
module JsMath {

  /** A non-negative decimal literal of the configuration, such as 0.3,
      written exactly as `num / den`. */
  datatype Fraction = Fraction(num: nat, den: nat)

  /** `Math.round(num / den)`: the integer nearest to `num / den`, where a value
      exactly halfway between two integers goes to the larger one (toward +∞). */
  function Round(num: int, den: int): (r: int)
    requires den > 0
    ensures 2 * num - den < 2 * den * r <= 2 * num + den
  {
    (2 * num + den) / (2 * den)
  }

  /** The half-up bracket of `Round` has exactly one solution, so `Round` is
      the only rounding that meets it. */
  lemma {:induction false} RoundUnique(num: int, den: int, s: int)
    requires den > 0
    requires 2 * num - den < 2 * den * s <= 2 * num + den
    ensures s == Round(num, den)
  {
    var r := Round(num, den);
    if s < r {
      assert 2 * den * s <= 2 * den * (r - 1) by {
        MulMonotone(2 * den, s, r - 1);
      }
      assert false;
    } else if s > r {
      assert 2 * den * r <= 2 * den * (s - 1) by {
        MulMonotone(2 * den, r, s - 1);
      }
      assert false;
    }
  }

  lemma MulMonotone(k: int, x: int, y: int)
    requires k >= 0 && x <= y
    ensures k * x <= k * y
  {
  }

  /** Scaling a non-negative width by a non-negative fraction and rounding
      never overshoots the width by more than the fraction itself allows:
      with a scale of at most 1 the overlay is never wider than the base. */
  lemma {:induction false} RoundedScaleAtMostWidth(width: nat, scale: Fraction)
    requires 0 < scale.den
    ensures scale.num <= scale.den ==> 0 <= Round(width * scale.num, scale.den) <= width
  {
    if scale.num > scale.den { return; }
    var r := Round(width * scale.num, scale.den);
    var d := scale.den;
    assert width * scale.num <= width * d by {
      MulMonotone(width, scale.num, d);
    }
    if r > width {
      assert 2 * d * (width + 1) <= 2 * d * r by {
        MulMonotone(2 * d, width + 1, r);
      }
      assert false;
    }
    if r < 0 {
      assert 2 * d * r <= 2 * d * (-1) by {
        MulMonotone(2 * d, r, -1);
      }
      assert false;
    }
  }
}
