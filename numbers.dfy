/** Small numeric helpers standing for Python's abs, min, max, int() and math.ceil. */
module Numbers {

  function Abs(r: real): real {
    if r < 0.0 then -r else r
  }

  function MinReal(a: real, b: real): real {
    if a <= b then a else b
  }

  function MaxReal(a: real, b: real): real {
    if a >= b then a else b
  }

  function MinNat(a: nat, b: nat): nat {
    if a <= b then a else b
  }

  function MaxInt(a: int, b: int): int {
    if a >= b then a else b
  }

  /** The smallest integer not below r. */
  function Ceil(r: real): (k: int)
    ensures k as real - 1.0 < r <= k as real
  {
    -((-r).Floor)
  }

  /** Python's int() on a float: truncation toward zero. */
  function Trunc(r: real): (k: int)
    ensures 0.0 <= r ==> k >= 0 && k as real <= r < k as real + 1.0
    ensures r < 0.0 ==> k <= 0 && k as real - 1.0 < r <= k as real
  {
    if r >= 0.0 then r.Floor else -((-r).Floor)
  }

  /** Multiplying both sides of a strict inequality by a positive factor. */
  lemma MulStrictlyMonotonic(a: real, b: real, c: real)
    requires a < b && 0.0 < c
    ensures a * c < b * c
  {
  }

  lemma MulMonotonic(a: real, b: real, c: real)
    requires a <= b && 0.0 <= c
    ensures a * c <= b * c
  {
  }

  lemma QuotientTimesDivisor(a: real, d: real)
    requires d != 0.0
    ensures (a / d) * d == a
  {
  }

  /** With `amount == q * dt`, `floor(q)` whole steps of `dt` fit into `amount` and one more does not. */
  lemma FloorScaled(amount: real, dt: real, q: real)
    requires 0.0 < dt && q * dt == amount
    ensures q.Floor as real * dt <= amount < q.Floor as real * dt + dt
  {
    var f := q.Floor as real;
    assert f <= q < f + 1.0;
    MulStrictlyMonotonic(q - f, 1.0, dt);
    assert (q - f) * dt < dt;
    assert (q - f) * dt == q * dt - f * dt;
    assert amount < f * dt + dt;
    assert f * dt <= q * dt by {
      if f < q {
        MulStrictlyMonotonic(f, q, dt);
      }
    }
  }
}
