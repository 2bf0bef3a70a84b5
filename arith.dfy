/** Facts about integer multiplication and Euclidean division used by the index arithmetic. */
module Arith {

  lemma MulMonotone(a: int, b: int, d: nat)
    requires a <= b
    ensures a * d <= b * d
  {
    var k := b - a;
    assert b * d == a * d + k * d;
  }

  /** Quotient and remainder are determined by any decomposition x == q*d + r with 0 <= r < d. */
  lemma DivModUnique(x: int, d: int, q: int, r: int)
    requires d > 0 && 0 <= r < d && x == q * d + r
    ensures x / d == q && x % d == r
  {
    var q', r' := x / d, x % d;
    assert x == q' * d + r';
    if q' < q {
      MulMonotone(q' + 1, q, d);
    } else if q < q' {
      MulMonotone(q + 1, q', d);
    }
  }

  /** a*B + b, with a < A and b < B, stays below A*B: the step of every row-major bound. */
  lemma MixedLt(a: nat, b: nat, A: nat, B: nat)
    requires a < A && b < B
    ensures a * B + b < A * B
  {
    MulMonotone(a + 1, A, B);
  }

  lemma DivLt(x: nat, d: nat, b: nat)
    requires d > 0 && x < b * d
    ensures x / d < b
  {
    if x / d >= b {
      MulMonotone(b, x / d, d);
    }
  }

  lemma DivMonotone(a: nat, b: nat, d: nat)
    requires d > 0 && a <= b
    ensures a / d <= b / d
  {
    var q := b / d;
    assert b == q * d + b % d;
    assert (q + 1) * d == q * d + d;
    DivLt(a, d, q + 1);
  }

  /** Adding at least one divisor's worth raises the quotient by at least one. */
  lemma DivAddStep(a: nat, b: nat, d: nat)
    requires d > 0 && b >= d
    ensures (a + b) / d >= a / d + 1
  {
    var q := a / d;
    DivModUnique((q + 1) * d, d, q + 1, 0);
    DivMonotone((q + 1) * d, a + b, d);
  }

  /** Division rounding toward zero, as C++ `/` does on `int`. */
  function TruncDiv(a: int, b: int): (q: int)
    requires b > 0
    ensures a >= 0 ==> 0 <= a - q * b < b
    ensures a < 0 ==> -b < a - q * b <= 0
  {
    if a >= 0 then a / b else -((-a) / b)
  }
}
