/**
 * Double3 and Color: the ray tracer's triples of doubles. Their source files
 * are not part of this model; the operations below are the component-wise
 * arithmetic the rest of the source uses them for (add, product, scale,
 * lowerThan), each on exact reals.
 */
module Triples {

  datatype Double3 = Double3(d1: real, d2: real, d3: real)

  const Zero3: Double3 := Double3(0.0, 0.0, 0.0)
  const One3: Double3 := Double3(1.0, 1.0, 1.0)

  function Add(a: Double3, b: Double3): Double3 {
    Double3(a.d1 + b.d1, a.d2 + b.d2, a.d3 + b.d3)
  }

  /** Component-wise product (Double3.product, Color.scale(Double3)). */
  function Product(a: Double3, b: Double3): Double3 {
    Double3(a.d1 * b.d1, a.d2 * b.d2, a.d3 * b.d3)
  }

  /** Multiplication by a scalar (Double3.scale, Color.scale(double)). */
  function Scale(a: Double3, s: real): Double3 {
    Double3(a.d1 * s, a.d2 * s, a.d3 * s)
  }

  /** Every component is below k. */
  predicate LowerThan(a: Double3, k: real) {
    a.d1 < k && a.d2 < k && a.d3 < k
  }

  /** Every component lies in [0, 1]. */
  predicate InUnitRange(a: Double3) {
    0.0 <= a.d1 <= 1.0 && 0.0 <= a.d2 <= 1.0 && 0.0 <= a.d3 <= 1.0
  }

  /** Every component is at most the same component of b. */
  predicate AtMostComponents(a: Double3, b: Double3) {
    a.d1 <= b.d1 && a.d2 <= b.d2 && a.d3 <= b.d3
  }

  /** A colour is an RGB triple. */
  type Color = Double3

  const Black: Color := Zero3
}
