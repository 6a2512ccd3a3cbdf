/** `RoundToNearest for u32`: round a pixel measure to a multiple of a step. */
module Utils {

  const U32_MAX: nat := 0xFFFF_FFFF

  /**
   * `((self + step / 2) / step) * step` on `u32`. The step must be positive (a zero step divides by
   * zero) and the sum must fit in a `u32` (it would overflow otherwise); the product never
   * exceeds the sum, so it cannot overflow.
   */
  function RoundToNearest(x: nat, step: nat): (r: nat)
    requires step > 0 && x + step / 2 <= U32_MAX
    ensures r <= U32_MAX
    ensures r % step == 0
    ensures r <= x + step / 2 < r + step
  {
    var n := x + step / 2;
    DivBounds(n, step);
    (n / step) * step
  }

  lemma DivBounds(n: nat, d: nat)
    requires d > 0
    ensures 0 <= (n / d) * d <= n < (n / d) * d + d
    ensures ((n / d) * d) % d == 0
  {
    var q := n / d;
    DivMod(n, d);
    assert q * d == n - n % d;
    if q >= 1 {
      MulAtLeast(q, d);
    } else {
      assert q == 0;
    }
    MultipleMod(q, d);
  }

  /** Euclidean division: the quotient and remainder rebuild the dividend. */
  lemma DivMod(n: int, d: nat)
    requires d > 0
    ensures n == (n / d) * d + n % d && 0 <= n % d < d
  {
  }

  lemma {:induction false} MulAtLeast(k: int, d: nat)
    requires k >= 1
    ensures k * d >= d
  {
    if k > 1 {
      MulAtLeast(k - 1, d);
      assert k * d == (k - 1) * d + d;
    }
  }

  /** A quotient and remainder in range are the ones division computes. */
  lemma DivUnique(n: int, d: nat, q: int, r: int)
    requires d > 0 && n == q * d + r && 0 <= r < d
    ensures q == n / d && r == n % d
  {
    DivMod(n, d);
    var q0 := n / d;
    assert (q - q0) * d == n % d - r;
    if q > q0 {
      MulAtLeast(q - q0, d);
    } else if q < q0 {
      MulAtLeast(q0 - q, d);
    }
  }

  lemma MultipleMod(k: int, d: nat)
    requires d > 0
    ensures (k * d) % d == 0 && (k * d) / d == k
  {
    DivUnique(k * d, d, k, 0);
  }

  /**
   * The result is no further from the input than half a step, and when the input lies exactly
   * half-way between two multiples it is rounded up.
   */
  lemma RoundDistance(x: nat, step: nat)
    requires step > 0 && x + step / 2 <= U32_MAX
    ensures var r := RoundToNearest(x, step);
      (r <= x ==> x - r <= step / 2) && (x <= r ==> r - x <= step / 2)
    ensures step % 2 == 0 && x % step == step / 2 ==> RoundToNearest(x, step) == x + step / 2
  {
    var r := RoundToNearest(x, step);
    var h := step / 2;
    if step % 2 == 0 && x % step == h {
      DivMod(x, step);
      var k := x / step;
      assert x + h == (k + 1) * step;
      MultipleMod(k + 1, step);
    }
  }

  /** No multiple of the step is strictly closer to the input than the result. */
  lemma {:induction false} RoundIsNearest(x: nat, step: nat, m: nat)
    requires step > 0 && x + step / 2 <= U32_MAX
    requires m % step == 0
    ensures var r := RoundToNearest(x, step);
      (if x >= r then x - r else r - x) <= (if x >= m then x - m else m - x)
  {
    var r := RoundToNearest(x, step);
    var h := step / 2;
    RoundDistance(x, step);
    if m != r {
      MultiplesApart(m, r, step);
      if m > r {
        assert m >= r + step;
        assert m - x >= r + step - x;
        assert x + h < r + step;
      } else {
        assert m + step <= r;
        assert r <= x + h;
      }
    }
  }

  /** Two distinct multiples of the step are at least a step apart. */
  lemma MultiplesApart(a: nat, b: nat, step: nat)
    requires step > 0 && a % step == 0 && b % step == 0 && a != b
    ensures a >= b + step || b >= a + step
  {
    DivMod(a, step);
    DivMod(b, step);
    var ka := a / step;
    var kb := b / step;
    if ka > kb {
      assert a - b == (ka - kb) * step;
      MulAtLeast(ka - kb, step);
    } else {
      assert ka < kb;
      assert b - a == (kb - ka) * step;
      MulAtLeast(kb - ka, step);
    }
  }

  /** A multiple of the step rounds to itself. */
  lemma RoundIdempotent(x: nat, step: nat)
    requires step > 0 && x + step / 2 <= U32_MAX
    requires x % step == 0
    ensures RoundToNearest(x, step) == x
  {
    var r := RoundToNearest(x, step);
    if r != x {
      MultiplesApart(r, x, step);
    }
  }

  /** Rounding an already-rounded value changes nothing. */
  lemma RoundTwice(x: nat, step: nat)
    requires step > 0 && x + step / 2 <= U32_MAX
    requires RoundToNearest(x, step) + step / 2 <= U32_MAX
    ensures RoundToNearest(RoundToNearest(x, step), step) == RoundToNearest(x, step)
  {
    RoundIdempotent(RoundToNearest(x, step), step);
  }

  /** Rounding never reverses the order of two inputs. */
  lemma RoundMonotone(x: nat, y: nat, step: nat)
    requires step > 0 && y + step / 2 <= U32_MAX && x <= y
    ensures RoundToNearest(x, step) <= RoundToNearest(y, step)
  {
    var rx := RoundToNearest(x, step);
    var ry := RoundToNearest(y, step);
    if rx > ry {
      MultiplesApart(rx, ry, step);
    }
  }
}
