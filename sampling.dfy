/** Random samples as the components draw them from `Math.random()`, and the
    scaling of a quantity by one sample. */
module Sampling {

  /** Successive results of `Math.random()`: the k-th call returns `rand(k)`. */
  type RandomStream = nat -> real

  ghost predicate UnitSamples(rand: RandomStream)
  {
    forall k: nat :: 0.0 <= rand(k) < 1.0
  }

  /** Multiplication of two reals, kept as a named term so that the facts
      proved about products are reused by their callers as they are. */
  function Times(x: real, y: real): real
  {
    x * y
  }

  /** A sample in [0, 1) scales a non-negative width to a value in [0, width]
      that stays below the width when the width is positive. */
  lemma ScaleBySample(u: real, w: real)
    requires 0.0 <= u < 1.0
    ensures 0.0 <= w ==> 0.0 <= Times(u, w) <= w
    ensures 0.0 < w ==> Times(u, w) < w
  {
    if 0.0 <= w {
      var r := 1.0 - u;
      assert r * w >= 0.0;
      assert w - u * w == r * w;
    }
  }
}
