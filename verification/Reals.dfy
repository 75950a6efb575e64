/** Small facts about products and quotients of reals. */
module Reals {
  lemma MulMonotone(a: real, b: real, x: real)
    requires a <= b && x >= 0.0
    ensures a * x <= b * x
  {}

  lemma DivUndoesMul(a: real, e: real)
    requires e != 0.0
    ensures a * e / e == a
  {}

  lemma DivMonotone(a: real, b: real, e: real)
    requires a <= b && e > 0.0
    ensures a / e <= b / e
  {}

  lemma DivAntitone(x: real, a: real, b: real)
    requires x >= 0.0 && 0.0 < a <= b
    ensures x / b <= x / a
  {
    var q := x / b;
    DivUndoesMul(q, a);
    MulMonotone(a, b, q);
    assert q * b == x;
    DivMonotone(q * a, x, a);
  }

  /** A share of `e` is at least `v` exactly when the part is at least `v` times `e`. */
  lemma ShareAtLeast(a: real, e: real, v: real)
    requires e > 0.0
    ensures a / e >= v <==> a >= v * e
  {
    DivUndoesMul(v, e);
    if a / e >= v {
      MulMonotone(v, a / e, e);
      assert a / e * e == a;
    } else if a >= v * e {
      DivMonotone(v * e, a, e);
    }
  }

  /** `base` to the power `n`. */
  function Power(base: real, n: nat): real {
    if n == 0 then 1.0 else Power(base, n - 1) * base
  }
}
