/** Small numeric helpers shared by the models. */
module Numeric {

  function Max(a: int, b: int): int { if a >= b then a else b }

  function Min(a: int, b: int): int { if a <= b then a else b }

  function MaxReal(a: real, b: real): real { if a <= b then b else a }

  function MinReal(a: real, b: real): real { if a <= b then a else b }

  function Abs(x: real): real { if x < 0.0 then -x else x }

  /** Python's `int(x)` on a float: truncation toward zero. */
  function Trunc(x: real): (n: int)
    ensures x >= 0.0 ==> n == x.Floor
    ensures x < 0.0 ==> n == -((-x).Floor)
    ensures x >= 0.0 ==> n as real <= x < n as real + 1.0
    ensures x < 0.0 ==> n as real - 1.0 < x <= n as real
  {
    if x >= 0.0 then x.Floor else -((-x).Floor)
  }

  /** If `n * a < n * b` for a positive `n`, then `a < b`. */
  lemma MulLessCancel(n: int, a: int, b: int)
    requires n > 0 && n * a < n * b
    ensures a < b
  {
    assert n * (b - a) > 0;
  }

  /** `i * k < n * k` for `0 <= i < n` and positive `k`. */
  lemma MulLessRight(i: int, n: int, k: int)
    requires 0 <= i < n && k > 0
    ensures 0 <= i * k < n * k
  {
    assert (n - i) * k > 0;
  }

  /** A quotient is below `b` when the dividend is below `n * b`. */
  lemma DivLess(a: int, n: int, b: int)
    requires 0 <= a < n * b && n > 0
    ensures 0 <= a / n < b
  {
    assert n * (a / n) + a % n == a;
    MulLessCancel(n, a / n, b);
  }
}
