/**
 * Angle wrapping (mushroom_rl/utils/angles.py) over the reals.
 * `fmod` is C's: the remainder of the division truncated toward zero, so it
 * keeps the sign of the dividend.
 */
module Angles {
  import opened PySemantics

  /** numpy's `np.pi`, written out as the decimal literal of the float. */
  const PI: real := 3.141592653589793
  const TWO_PI: real := 2.0 * PI

  /** C's `fmod(x, y)` = x - trunc(x / y) * y: |r| < y, with the sign of x. */
  function FMod(x: real, y: real): (r: real)
    requires y > 0.0
    ensures 0.0 <= x ==> 0.0 <= r < y
    ensures x < 0.0 ==> -y < r <= 0.0
    ensures -y < x < y ==> r == x
  {
    var q := x / y;
    assert q * y == x;
    TruncTimesDivisor(x, y, q, Trunc(q));
    SmallQuotient(x, y, Trunc(q));
    x - Trunc(q) as real * y
  }

  /** The quotient `q` of x by the positive `y`, truncated to `t`, times `y` stays on the dividend's side of it. */
  lemma TruncTimesDivisor(x: real, y: real, q: real, t: int)
    requires y > 0.0 && q * y == x
    requires 0.0 <= q ==> 0 <= t && t as real <= q < t as real + 1.0
    requires q < 0.0 ==> t <= 0 && t as real - 1.0 < q <= t as real
    ensures 0.0 <= x ==> 0 <= t && t as real * y <= x < t as real * y + y
    ensures x < 0.0 ==> t <= 0 && t as real * y - y < x <= t as real * y
  {
    if 0.0 <= q {
      NonNegativeQuotient(x, y, q, t);
    } else {
      NegativeQuotient(x, y, q, t);
    }
  }

  lemma NonNegativeQuotient(x: real, y: real, q: real, t: int)
    requires y > 0.0 && q * y == x
    requires 0.0 <= q && 0 <= t && t as real <= q < t as real + 1.0
    ensures 0.0 <= x && t as real * y <= x < t as real * y + y
  {
    var hi := t as real + 1.0;
    assert x < t as real * y + y by {
      MulLess(q, hi, y);
      assert hi * y == t as real * y + y;
    }
    assert t as real * y <= x by {
      MulLeq(t as real, q, y);
    }
    assert 0.0 <= x by {
      MulLeq(0.0, q, y);
      assert 0.0 * y == 0.0;
    }
  }

  lemma NegativeQuotient(x: real, y: real, q: real, t: int)
    requires y > 0.0 && q * y == x
    requires q < 0.0 && t <= 0 && t as real - 1.0 < q <= t as real
    ensures x < 0.0 && t as real * y - y < x <= t as real * y
  {
    var lo := t as real - 1.0;
    assert t as real * y - y < x by {
      MulLess(lo, q, y);
      assert lo * y == t as real * y - y;
    }
    assert x <= t as real * y by {
      MulLeq(q, t as real, y);
    }
    assert x < 0.0 by {
      MulLess(q, 0.0, y);
      assert 0.0 * y == 0.0;
    }
  }

  /** A dividend smaller in size than the divisor has quotient 0. */
  lemma SmallQuotient(x: real, y: real, t: int)
    requires y > 0.0
    requires 0.0 <= x ==> 0 <= t && t as real * y <= x
    requires x < 0.0 ==> t <= 0 && x <= t as real * y
    ensures -y < x < y ==> t == 0
  {
    assert 1.0 * y == y && -1.0 * y == -y;
    if -y < x < y && t != 0 {
      if 0.0 <= x {
        MulLeq(1.0, t as real, y);
      } else {
        MulLeq(t as real, -1.0, y);
      }
    }
  }

  /** `normalize_angle_positive`: wraps `angle` into [0, 2*pi). */
  function NormalizeAnglePositive(angle: real): (r: real)
    ensures 0.0 <= r < TWO_PI
  {
    FMod(FMod(angle, TWO_PI) + TWO_PI, TWO_PI)
  }

  /** The positive wrap moves `angle` by a whole number of turns. */
  lemma PositiveWrapTurns(angle: real) returns (k: int)
    ensures NormalizeAnglePositive(angle) == angle + k as real * TWO_PI
  {
    var t1 := Trunc(angle / TWO_PI);
    var m := FMod(angle, TWO_PI);
    assert m == angle - t1 as real * TWO_PI;
    var t2 := Trunc((m + TWO_PI) / TWO_PI);
    assert NormalizeAnglePositive(angle) == m + TWO_PI - t2 as real * TWO_PI;
    k := 1 - t1 - t2;
  }

  /** An angle already in [0, 2*pi) is left as it is. */
  lemma PositiveWrapFixes(angle: real)
    requires 0.0 <= angle < TWO_PI
    ensures NormalizeAnglePositive(angle) == angle
  {
    assert FMod(angle, TWO_PI) == angle;
    var s := angle + TWO_PI;
    assert Trunc(s / TWO_PI) == 1;
  }

  /** `normalize_angle`: wraps `angle` into (-pi, pi]; the positive wrap loses 2*pi exactly when it exceeds pi. */
  function NormalizeAngle(angle: real): (r: real)
    ensures -PI < r <= PI
    ensures r == NormalizeAnglePositive(angle) - TWO_PI <==> NormalizeAnglePositive(angle) > PI
    ensures r == NormalizeAnglePositive(angle) <==> NormalizeAnglePositive(angle) <= PI
  {
    var a := NormalizeAnglePositive(angle);
    if a > PI then a - TWO_PI else a
  }

  /** `normalize_angle` moves `angle` by a whole number of turns. */
  lemma NormalizeAngleTurns(angle: real) returns (k: int)
    ensures NormalizeAngle(angle) == angle + k as real * TWO_PI
  {
    var j := PositiveWrapTurns(angle);
    k := if NormalizeAnglePositive(angle) > PI then j - 1 else j;
  }

  /** An angle already in (-pi, pi] is left as it is. */
  lemma NormalizeAngleFixes(angle: real)
    requires -PI < angle <= PI
    ensures NormalizeAngle(angle) == angle
  {
    if 0.0 <= angle {
      PositiveWrapFixes(angle);
    } else {
      assert FMod(angle, TWO_PI) == angle;
      var s := angle + TWO_PI;
      assert PI < s < TWO_PI;
      assert Trunc(s / TWO_PI) == 0;
      assert NormalizeAnglePositive(angle) == s;
    }
  }

  /** `normalize_angle` is idempotent. */
  lemma NormalizeAngleIdempotent(angle: real)
    ensures NormalizeAngle(NormalizeAngle(angle)) == NormalizeAngle(angle)
  {
    NormalizeAngleFixes(NormalizeAngle(angle));
  }

  /** A whole number of turns strictly between -2*pi and 2*pi is no turn at all. */
  lemma TurnsBetween(m: int)
    requires -TWO_PI < m as real * TWO_PI < TWO_PI
    ensures m == 0
  {
  }

  /** `normalize_angle` is the only value in (-pi, pi] that differs from `angle` by whole turns. */
  lemma NormalizeAngleUnique(angle: real, b: real, k: int)
    requires -PI < b <= PI
    requires b == angle + k as real * TWO_PI
    ensures b == NormalizeAngle(angle)
  {
    var j := NormalizeAngleTurns(angle);
    var n := NormalizeAngle(angle);
    assert b - n == (k - j) as real * TWO_PI;
    TurnsBetween(k - j);
  }

  /** `shortest_angular_distance(from, to)`: the signed turn from `from` to `to`, in (-pi, pi]. */
  function ShortestAngularDistance(fromAngle: real, toAngle: real): (d: real)
    ensures -PI < d <= PI
    ensures fromAngle == toAngle ==> d == 0.0
  {
    NormalizeAngleFixes(0.0);
    NormalizeAngle(toAngle - fromAngle)
  }

  /** Moving by the shortest distance lands on `toAngle` up to whole turns. */
  lemma ShortestDistanceReaches(fromAngle: real, toAngle: real) returns (k: int)
    ensures fromAngle + ShortestAngularDistance(fromAngle, toAngle) == toAngle + k as real * TWO_PI
  {
    k := NormalizeAngleTurns(toAngle - fromAngle);
  }
}
