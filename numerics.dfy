/**
 * The numeric primitives of the library over `real`.
 *
 * Single-precision rounding is not modelled. The transcendental functions
 * (MathF.Sin, Cos, Tan, Sqrt, Atan2) are uninterpreted: every operation that
 * needs one takes a `Numerics` record and promises nothing about its fields.
 */
module Numerics {

  /** The uninterpreted primitives. `divByZero(a)` stands for the non-finite
      result of a float division `a / 0`, which a real cannot represent. */
  datatype Numerics = Numerics(
    sin: real -> real,
    cos: real -> real,
    tan: real -> real,
    sqrt: real -> real,
    atan2: (real, real) -> real,
    divByZero: real -> real)

  /** A float as it arrives from the caller: a number or the not-a-number sentinel. */
  datatype Float = Finite(r: real) | NaN

  /** MathF.PI, the single-precision value of pi. */
  const Pi: real := 3.1415927410125732421875

  /** Scalar.Epsilon, Scalar.BiggerEpsilon and Scalar.Penalty. */
  const Epsilon: real := 0.000001
  const BiggerEpsilon: real := 0.01
  const Penalty: real := 1.0

  /** Single.Epsilon, the smallest positive single (2^-149). */
  const SingleEpsilon: real := 1.0 / 713623846352979940529142984724747568191373312.0

  /** float.MaxValue. */
  const FloatMax: real := 340282346638528859811704183484516925440.0

  /** Float division: real division, except that a zero divisor gives an
      uninterpreted value. */
  function FDiv(num: Numerics, a: real, b: real): (r: real)
    ensures b != 0.0 ==> r * b == a
  {
    if b == 0.0 then num.divByZero(a) else a / b
  }

  function Abs(x: real): (r: real)
    ensures r >= 0.0 && (r == x || r == -x)
  {
    if x < 0.0 then -x else x
  }

  /** The C# conversion `(int)x` of a float: truncation toward zero. */
  function Truncate(x: real): (r: int)
    ensures Abs(r as real) <= Abs(x) < Abs(r as real) + 1.0
    ensures x >= 0.0 ==> r >= 0
    ensures x < 0.0 ==> r <= 0
  {
    if x >= 0.0 then x.Floor else -((-x).Floor)
  }

  function Square(x: real): real {
    x * x
  }

  lemma SquareOfPositive(x: real)
    requires x > 0.0
    ensures Square(x) > 0.0
  {
    calc {
      Square(x);
      x * x;
    >
      0.0 * x;
    }
  }

  /** A square is never negative, and is zero only at zero. */
  lemma SquareSign(x: real)
    ensures Square(x) >= 0.0
    ensures Square(x) == 0.0 <==> x == 0.0
  {
    if x > 0.0 {
      SquareOfPositive(x);
    } else if x < 0.0 {
      SquareOfPositive(-x);
      calc {
        Square(x);
        x * x;
        (-x) * (-x);
        Square(-x);
      }
    }
  }

  /** p * a + b with a positive weight and two non-negative terms is zero
      only when both terms are. */
  lemma WeightedSum(p: real, a: real, b: real)
    requires p > 0.0 && a >= 0.0 && b >= 0.0
    ensures p * a + b >= 0.0
    ensures p * a + b == 0.0 <==> a == 0.0 && b == 0.0
  {
    assert p * a >= 0.0;
    if a > 0.0 {
      assert p * a > 0.0;
    }
  }

  /** Integer division by a positive divisor does not decrease. */
  lemma DivMono(a: nat, b: nat, d: nat)
    requires a <= b && d > 0
    ensures a / d <= b / d
  {
    var qa, qb := a / d, b / d;
    assert qa * d <= a;
    assert b < qb * d + d;
    MulCancel(qa, qb + 1, d);
  }

  /** A positive factor can be cancelled from a strict inequality. */
  lemma MulCancel(x: int, y: int, d: nat)
    requires d > 0 && x * d < y * d
    ensures x < y
  {
    if x >= y {
      MulMono(y, x, d);
    }
  }

  lemma MulMono(x: int, y: int, d: nat)
    requires x <= y
    ensures x * d <= y * d
  {
  }

  /** a * n / total stays below n when a < total. */
  lemma DivBelow(a: nat, n: nat, total: nat)
    requires a < total && n > 0
    ensures a * n / total < n
  {
    var q := a * n / total;
    assert q * total <= a * n;
    MulMono(a + 1, total, n);
    assert a * n < total * n;
    MulCancel(q, n, total);
  }

  lemma MulDiv(n: nat, total: nat)
    requires total > 0
    ensures total * n / total == n
  {
    var q := total * n / total;
    assert q * total <= n * total < (n + 1) * total;
    MulCancel(q, n + 1, total);
    assert n * total < (q + 1) * total;
    MulCancel(n, q + 1, total);
  }

  /** a * n by repeated addition; the index arithmetic of InductiveDescent
      is written with it and Quot so that no product of two unknowns reaches
      the solver except where ProductIsMul and QuotIsDiv are called. */
  function Product(a: nat, n: nat): nat
    decreases a
  {
    if a == 0 then 0 else Product(a - 1, n) + n
  }

  lemma {:induction false} ProductIsMul(a: nat, n: nat)
    ensures Product(a, n) == a * n
    decreases a
  {
    if a > 0 {
      ProductIsMul(a - 1, n);
    }
  }

  /** p / t rounded down, by repeated subtraction. */
  function Quot(p: nat, t: nat): nat
    requires t > 0
    decreases p
  {
    if p < t then 0 else Quot(p - t, t) + 1
  }

  lemma {:induction false} QuotBounds(p: nat, t: nat)
    requires t > 0
    ensures Quot(p, t) * t <= p < Quot(p, t) * t + t
    decreases p
  {
    if p >= t {
      QuotBounds(p - t, t);
    }
  }

  lemma QuotIsDiv(p: nat, t: nat)
    requires t > 0
    ensures Quot(p, t) == p / t
  {
    QuotBounds(p, t);
    var q, q' := Quot(p, t), p / t;
    assert q' * t <= p < q' * t + t;
    MulCancel(q, q' + 1, t);
    MulCancel(q', q + 1, t);
  }
}
