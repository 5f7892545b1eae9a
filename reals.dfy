/**
 * Exact stand-ins for the Java double arithmetic the ray tracer relies on.
 *
 * The ray tracer computes with IEEE doubles; this model computes with exact
 * reals. Java's Math.sqrt has no counterpart among Dafny's reals, so every
 * operation that needs a square root takes one as a parameter, constrained by
 * IsSqrt. Positive infinity, which the source uses as an unbounded
 * maximum distance, is the ExtReal value PositiveInfinity.
 */
module Reals {

  /** `sqrt` agrees with the mathematical square root on the non-negative reals. */
  ghost predicate IsSqrt(sqrt: real -> real) {
    forall x :: 0.0 <= x ==> 0.0 <= sqrt(x) && sqrt(x) * sqrt(x) == x
  }

  /** A non-negative number whose square is x is the square root of x. */
  lemma SqrtUnique(sqrt: real -> real, x: real, r: real)
    requires IsSqrt(sqrt)
    requires 0.0 <= r && r * r == x
    ensures sqrt(x) == r
  {
    var s := sqrt(x);
    assert 0.0 <= s && s * s == x;
    assert (s - r) * (s + r) == 0.0;
    if s + r == 0.0 {
      assert s == 0.0 && r == 0.0;
    } else {
      assert s - r == 0.0;
    }
  }

  lemma SqrtPositive(sqrt: real -> real, x: real)
    requires IsSqrt(sqrt)
    requires 0.0 < x
    ensures 0.0 < sqrt(x)
  {
    assert 0.0 <= sqrt(x) && sqrt(x) * sqrt(x) == x;
  }

  lemma SqrtOne(sqrt: real -> real)
    requires IsSqrt(sqrt)
    ensures sqrt(1.0) == 1.0
  {
    SqrtUnique(sqrt, 1.0, 1.0);
  }

  /** The square root is strictly monotone, so comparing distances and comparing squared distances agree. */
  lemma SqrtStrictlyMonotone(sqrt: real -> real, a: real, b: real)
    requires IsSqrt(sqrt)
    requires 0.0 <= a && 0.0 <= b
    ensures a < b <==> sqrt(a) < sqrt(b)
  {
    var sa, sb := sqrt(a), sqrt(b);
    assert 0.0 <= sa && sa * sa == a;
    assert 0.0 <= sb && sb * sb == b;
    SquareStrictlyMonotone(sa, sb);
    SquareStrictlyMonotone(sb, sa);
  }

  /** On the non-negative reals, x < y exactly when x * x < y * y. */
  lemma SquareStrictlyMonotone(x: real, y: real)
    requires 0.0 <= x && 0.0 <= y
    ensures x < y <==> x * x < y * y
  {
    if x < y {
      MulPositive(y - x, y + x);
      assert (y - x) * (y + x) == y * y - x * x;
    } else {
      MulNonNegative(x - y, x + y);
      assert (x - y) * (x + y) == x * x - y * y;
    }
  }

  /**
   * Multiplication behind a function. Lemmas state the sign of a product as a
   * Mul term, which the solver matches against the products that appear when
   * the model's definitions are unfolded.
   */
  function Mul(a: real, b: real): real {
    a * b
  }

  lemma MulPositive(a: real, b: real)
    requires 0.0 < a && 0.0 < b
    ensures 0.0 < a * b && 0.0 < Mul(a, b)
  {
  }

  lemma MulNonNegative(a: real, b: real)
    requires 0.0 <= a && 0.0 <= b
    ensures 0.0 <= a * b && 0.0 <= Mul(a, b)
  {
  }

  /** The square of a non-zero number is positive. */
  lemma SquarePositive(a: real)
    requires a != 0.0
    ensures 0.0 < Mul(a, a)
  {
    if 0.0 < a {
      MulPositive(a, a);
    } else {
      MulPositive(-a, -a);
      assert Mul(-a, -a) == Mul(a, a);
    }
  }

  /** A square is never negative. */
  lemma SquareNonNegative(a: real)
    ensures 0.0 <= Mul(a, a)
  {
    if a != 0.0 {
      SquarePositive(a);
    } else {
      assert Mul(a, a) == 0.0;
    }
  }

  function Abs(x: real): real {
    if x < 0.0 then -x else x
  }

  function Max(a: real, b: real): real {
    if a < b then b else a
  }

  /** A real number or positive infinity (Double.POSITIVE_INFINITY). */
  datatype ExtReal = Finite(value: real) | PositiveInfinity

  /**
   * alignZero(t - max) <= 0 on exact reals: t is at most max, and every real
   * is at most positive infinity.
   */
  predicate AtMost(t: real, max: ExtReal) {
    max.PositiveInfinity? || t <= max.value
  }

  /** x raised to a natural power. */
  function Power(x: real, n: nat): real {
    if n == 0 then 1.0 else x * Power(x, n - 1)
  }

  lemma {:induction false} PowerNonNegative(x: real, n: nat)
    requires 0.0 <= x
    ensures 0.0 <= Power(x, n)
  {
    if n > 0 {
      PowerNonNegative(x, n - 1);
    }
  }
}

/** Null references and exceptions of the source, as values. */
module Wrappers {

  datatype Option<+T> = None | Some(value: T)

  /**
   * The exceptions the core throws. IllegalArgument and Runtime carry the
   * message the source attaches; MissingResource names the missing field;
   * NonFinite marks a computation the source carries out in IEEE arithmetic
   * where the result is an infinity or NaN rather than an exception (a
   * division by zero), which exact reals cannot represent.
   */
  datatype Error =
    | IllegalArgument(message: string)
    | MissingResource(field: string)
    | Runtime(message: string)
    | NullPointer
    | NoSuchElement
    | NonFinite

  datatype Result<+T> = Ok(value: T) | Err(error: Error)

  const ZeroVectorError: Error := IllegalArgument("Zero vector is not allowed")
}
