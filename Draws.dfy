/** The ambient random source made explicit. Each call of `Math.random()` in the
    generators becomes one real "draw" supplied by the caller, in the order the
    source makes the calls. */
module Draws {

  /** A value `Math.random()` can return: a real in [0, 1). */
  predicate IsDraw(r: real) {
    0.0 <= r < 1.0
  }

  /** `Math.floor(Math.random() * k)`: a uniformly chosen integer in [0, k). */
  function FloorScaled(r: real, k: nat): (n: int)
    requires IsDraw(r) && k >= 1
    ensures 0 <= n < k
  {
    assert 0.0 <= r * k as real < k as real by {
      assert r * k as real <= r * k as real + (1.0 - r) * k as real;
      assert (1.0 - r) * k as real > 0.0;
    }
    (r * k as real).Floor
  }
}
