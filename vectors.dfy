/**
 * Points and vectors of three-dimensional space (primitives.Point and
 * primitives.Vector). A vector is a point other than the origin: the source's
 * Vector constructors refuse the zero vector, so every operation that builds
 * a vector is partial and returns a Result.
 */
module Vectors {
  import opened Reals
  import opened Wrappers

  datatype Point = Point(x: real, y: real, z: real)

  /** Point.ZERO. */
  const Origin: Point := Point(0.0, 0.0, 0.0)

  /** A Vector is never the zero vector. */
  type Vector = p: Point | p != Origin witness Point(1.0, 0.0, 0.0)

  // Component-wise arithmetic of the coordinate triples (Double3.add,
  // Double3.subtract, Double3.scale); these never fail.

  function Plus(p: Point, q: Point): Point {
    Point(p.x + q.x, p.y + q.y, p.z + q.z)
  }

  function Minus(p: Point, q: Point): Point {
    Point(p.x - q.x, p.y - q.y, p.z - q.z)
  }

  function Times(p: Point, s: real): Point {
    Point(p.x * s, p.y * s, p.z * s)
  }

  /** The coordinates of the cross product, before the zero check. */
  function CrossOf(u: Point, v: Point): Point {
    Point(u.y * v.z - u.z * v.y, u.z * v.x - u.x * v.z, u.x * v.y - u.y * v.x)
  }

  /** Two points are equal when all their coordinates are. */
  function Equals(p: Point, q: Point): (r: bool)
    ensures r <==> p == q
  {
    p.x == q.x && p.y == q.y && p.z == q.z
  }

  /** The Vector constructors: every triple except (0, 0, 0) is a vector. */
  function NewVector(p: Point): (r: Result<Vector>)
    ensures r.Ok? <==> !(p.x == 0.0 && p.y == 0.0 && p.z == 0.0)
    ensures r.Ok? ==> r.value == p
    ensures r.Err? ==> r.error == ZeroVectorError
  {
    if p == Origin then Err(ZeroVectorError) else Ok(p)
  }

  /** Point.subtract: the vector from q to p; it fails exactly when the points coincide. */
  function Subtract(p: Point, q: Point): (r: Result<Vector>)
    ensures r.Ok? <==> p != q
    ensures r.Ok? ==> Plus(q, r.value) == p
    ensures r.Err? ==> r.error == ZeroVectorError
  {
    NewVector(Minus(p, q))
  }

  /** Point.add: moves p by v. */
  function Add(p: Point, v: Vector): (r: Point)
    ensures r != p
    ensures Minus(r, p) == v
  {
    Plus(p, v)
  }

  /** Vector.add: fails exactly when v is the opposite of u. */
  function AddVectors(u: Vector, v: Vector): (r: Result<Vector>)
    ensures r.Ok? <==> v != Times(u, -1.0)
    ensures r.Ok? ==> Minus(r.value, u) == v
    ensures r.Err? ==> r.error == ZeroVectorError
  {
    NewVector(Plus(u, v))
  }

  /** Vector.scale: fails exactly for the scalar 0. */
  function Scale(v: Vector, s: real): (r: Result<Vector>)
    ensures r.Ok? <==> s != 0.0
    ensures r.Ok? ==> r.value.x == s * v.x && r.value.y == s * v.y && r.value.z == s * v.z
    ensures r.Err? ==> r.error == ZeroVectorError
  {
    NewVector(Times(v, s))
  }

  /** Vector.dotProduct. */
  function Dot(u: Point, v: Point): real {
    u.x * v.x + u.y * v.y + u.z * v.z
  }

  /** Vector.lengthSquared. */
  function LengthSquared(v: Point): real {
    v.x * v.x + v.y * v.y + v.z * v.z
  }

  /** u and v are parallel (or one of them is zero): their cross product vanishes. */
  predicate Parallel(u: Point, v: Point) {
    CrossOf(u, v) == Origin
  }

  /** Vector.crossProduct: orthogonal to both operands; fails exactly for parallel operands. */
  function Cross(u: Vector, v: Vector): (r: Result<Vector>)
    ensures r.Ok? <==> !Parallel(u, v)
    ensures r.Ok? ==> r.value == CrossOf(u, v)
    ensures r.Ok? ==> Dot(r.value, u) == 0.0 && Dot(r.value, v) == 0.0
    ensures r.Err? ==> r.error == ZeroVectorError
  {
    CrossOrthogonal(u, v);
    NewVector(CrossOf(u, v))
  }

  /** Vector.length. */
  function Length(sqrt: real -> real, v: Point): (r: real)
    requires IsSqrt(sqrt)
    ensures 0.0 <= r && r * r == LengthSquared(v)
  {
    LengthSquaredNonNegative(v);
    sqrt(LengthSquared(v))
  }

  /** Vector.normalize: the unit vector with the direction of v. */
  function Normalize(sqrt: real -> real, v: Vector): (r: Vector)
    requires IsSqrt(sqrt)
    ensures LengthSquared(r) == 1.0
    ensures Parallel(r, v) && Dot(r, v) > 0.0
  {
    var len := Length(sqrt, v);
    LengthSquaredPositive(v);
    assert len != 0.0;
    var r := Times(v, 1.0 / len);
    NormalizeHelper(v, len, r);
    r
  }

  /** Point.distanceSquared: the sum of the squared coordinate differences q - p. */
  function DistanceSquared(p: Point, q: Point): real {
    LengthSquared(Minus(q, p))
  }

  /** Point.distance. */
  function Distance(sqrt: real -> real, p: Point, q: Point): (r: real)
    requires IsSqrt(sqrt)
    ensures 0.0 <= r && r * r == DistanceSquared(p, q)
  {
    DistanceSquaredProperties(p, q);
    sqrt(DistanceSquared(p, q))
  }

  // Lemmas

  lemma LengthSquaredNonNegative(v: Point)
    ensures 0.0 <= LengthSquared(v)
  {
    SquareNonNegative(v.x);
    SquareNonNegative(v.y);
    SquareNonNegative(v.z);
    assert LengthSquared(v) == Mul(v.x, v.x) + Mul(v.y, v.y) + Mul(v.z, v.z);
  }

  /** Only the zero vector has squared length 0. */
  lemma LengthSquaredPositive(v: Point)
    ensures 0.0 <= LengthSquared(v)
    ensures v != Origin ==> 0.0 < LengthSquared(v)
    ensures v == Origin ==> LengthSquared(v) == 0.0
  {
    LengthSquaredNonNegative(v);
    if v.x != 0.0 {
      SquarePositive(v.x);
    } else if v.y != 0.0 {
      SquarePositive(v.y);
    } else if v.z != 0.0 {
      SquarePositive(v.z);
    }
    assert LengthSquared(v) == Mul(v.x, v.x) + Mul(v.y, v.y) + Mul(v.z, v.z);
  }

  lemma NormalizeHelper(v: Point, len: real, r: Point)
    requires 0.0 < len && len * len == LengthSquared(v)
    requires r == Times(v, 1.0 / len)
    ensures LengthSquared(r) == 1.0
    ensures Parallel(r, v) && Dot(r, v) > 0.0
  {
    var c := 1.0 / len;
    ScaledLengthSquared(v, c);
    assert c * c * (len * len) == 1.0;
    ScaledCross(v, v, c);
    ScaledDot(v, v, c);
    MulPositive(c, len * len);
  }

  lemma ScaledLengthSquared(v: Point, c: real)
    ensures LengthSquared(Times(v, c)) == c * c * LengthSquared(v)
  {
    assert (c * v.x) * (c * v.x) == c * c * (v.x * v.x);
    assert (c * v.y) * (c * v.y) == c * c * (v.y * v.y);
    assert (c * v.z) * (c * v.z) == c * c * (v.z * v.z);
  }

  lemma ScaledCross(u: Point, v: Point, c: real)
    ensures CrossOf(Times(u, c), v) == Times(CrossOf(u, v), c)
  {
    var w, k := Times(u, c), CrossOf(u, v);
    assert CrossOf(w, v).x == k.x * c by { ScaledDifference(u.y, v.z, u.z, v.y, c); }
    assert CrossOf(w, v).y == k.y * c by { ScaledDifference(u.z, v.x, u.x, v.z, c); }
    assert CrossOf(w, v).z == k.z * c by { ScaledDifference(u.x, v.y, u.y, v.x, c); }
  }

  lemma ScaledDifference(a: real, b: real, d: real, e: real, c: real)
    ensures (a * c) * b - (d * c) * e == (a * b - d * e) * c
  {
    assert (a * c) * b == (a * b) * c;
    assert (d * c) * e == (d * e) * c;
  }

  lemma ScaledDot(u: Point, v: Point, c: real)
    ensures Dot(Times(u, c), v) == c * Dot(u, v)
  {
  }

  /** The cross product is orthogonal to both operands (VectorTest, crossProduct). */
  lemma CrossOrthogonal(u: Point, v: Point)
    ensures Dot(CrossOf(u, v), u) == 0.0 && Dot(CrossOf(u, v), v) == 0.0
  {
  }

  /** Squared distance is symmetric. */
  lemma DistanceSquaredSymmetric(p: Point, q: Point)
    ensures DistanceSquared(p, q) == DistanceSquared(q, p)
  {
    var d := Minus(q, p);
    assert Minus(p, q) == Point(-d.x, -d.y, -d.z);
    assert LengthSquared(Point(-d.x, -d.y, -d.z)) == LengthSquared(d);
  }

  /** Squared distance is non-negative and zero exactly at the point itself. */
  lemma DistanceSquaredProperties(p: Point, q: Point)
    ensures 0.0 <= DistanceSquared(p, q)
    ensures DistanceSquared(p, q) == 0.0 <==> p == q
  {
    LengthSquaredPositive(Minus(q, p));
    MinusIsOrigin(q, p);
  }

  lemma MinusIsOrigin(p: Point, q: Point)
    ensures Minus(p, q) == Origin <==> p == q
  {
    if Minus(p, q) == Origin {
      assert p.x == q.x && p.y == q.y && p.z == q.z;
    }
  }

  /** Lagrange's identity: |u|^2 |w|^2 = (u . w)^2 + |u x w|^2. */
  lemma Lagrange(u: Point, w: Point)
    ensures Mul(LengthSquared(u), LengthSquared(w)) == Mul(Dot(u, w), Dot(u, w)) + LengthSquared(CrossOf(u, w))
  {
  }

  /** The Cauchy-Schwarz inequality: (u . w)^2 <= |u|^2 |w|^2. */
  lemma CauchySchwarz(u: Point, w: Point)
    ensures Mul(Dot(u, w), Dot(u, w)) <= Mul(LengthSquared(u), LengthSquared(w))
  {
    Lagrange(u, w);
    LengthSquaredNonNegative(CrossOf(u, w));
  }

  /** Normalising a unit vector leaves it unchanged. */
  lemma NormalizeUnit(sqrt: real -> real, v: Vector)
    requires IsSqrt(sqrt)
    requires LengthSquared(v) == 1.0
    ensures Normalize(sqrt, v) == v
  {
    SqrtOne(sqrt);
    assert Length(sqrt, v) == 1.0;
    assert Times(v, 1.0 / 1.0) == v;
  }

  /** Normalising a positive multiple of v gives the normalisation of v. */
  lemma NormalizeScaled(sqrt: real -> real, v: Vector, c: real)
    requires IsSqrt(sqrt)
    requires 0.0 < c
    ensures Times(v, c) != Origin
    ensures Normalize(sqrt, Times(v, c)) == Normalize(sqrt, v)
  {
    var len := Length(sqrt, v);
    LengthSquaredPositive(v);
    SqrtPositive(sqrt, LengthSquared(v));
    ScaledLengthSquared(v, c);
    MulPositive(c, len);
    assert (c * len) * (c * len) == c * c * (len * len);
    SqrtUnique(sqrt, LengthSquared(Times(v, c)), c * len);
    var w := Times(v, c);
    ScaledNonZero(v, c);
    assert Length(sqrt, w) == c * len;
    ScaleCancel(v, c, len);
  }

  /** A non-zero multiple of a non-zero vector is non-zero. */
  lemma ScaledNonZero(v: Vector, c: real)
    requires c != 0.0
    ensures Times(v, c) != Origin
  {
    if v.x != 0.0 {
      assert Times(v, c).x != 0.0;
    } else if v.y != 0.0 {
      assert Times(v, c).y != 0.0;
    } else {
      assert Times(v, c).z != 0.0;
    }
  }

  lemma ScaleCancel(v: Point, c: real, len: real)
    requires 0.0 < c && 0.0 < len
    ensures Times(Times(v, c), 1.0 / (c * len)) == Times(v, 1.0 / len)
  {
    var k := 1.0 / (c * len);
    assert c * k == 1.0 / len;
    assert v.x * c * k == v.x * (c * k);
    assert v.y * c * k == v.y * (c * k);
    assert v.z * c * k == v.z * (c * k);
  }

  /** Normalisation commutes with reversing the direction. */
  lemma NormalizeOpposite(sqrt: real -> real, v: Vector)
    requires IsSqrt(sqrt)
    ensures Times(v, -1.0) != Origin
    ensures Normalize(sqrt, Times(v, -1.0)) == Times(Normalize(sqrt, v), -1.0)
  {
    var w := Times(v, -1.0);
    ScaledNonZero(v, -1.0);
    ScaledLengthSquared(v, -1.0);
    assert LengthSquared(w) == LengthSquared(v);
    var len := Length(sqrt, v);
    assert Length(sqrt, w) == len;
  }

  /** Normalising v does not change the sign of its dot product with any w. */
  lemma NormalizeKeepsDotSign(sqrt: real -> real, v: Vector, w: Point)
    requires IsSqrt(sqrt)
    ensures 0.0 < Dot(w, Normalize(sqrt, v)) <==> 0.0 < Dot(w, v)
    ensures Dot(w, Normalize(sqrt, v)) < 0.0 <==> Dot(w, v) < 0.0
    ensures Dot(w, Normalize(sqrt, v)) == 0.0 <==> Dot(w, v) == 0.0
  {
    var len := Length(sqrt, v);
    LengthSquaredPositive(v);
    SqrtPositive(sqrt, LengthSquared(v));
    var c := 1.0 / len;
    assert 0.0 < c;
    DotScaledRight(w, v, c);
    SignOfPositiveMultiple(c, Dot(w, v));
  }

  lemma DotScaledRight(w: Point, v: Point, c: real)
    ensures Dot(w, Times(v, c)) == c * Dot(w, v)
  {
  }

  /** Multiplying by a positive number keeps the sign. */
  lemma SignOfPositiveMultiple(c: real, d: real)
    requires 0.0 < c
    ensures 0.0 < c * d <==> 0.0 < d
    ensures c * d < 0.0 <==> d < 0.0
    ensures c * d == 0.0 <==> d == 0.0
  {
    if 0.0 < d {
      MulPositive(c, d);
    } else if d < 0.0 {
      MulPositive(c, -d);
    }
  }

  /** Moving p by v and subtracting p gives back v. */
  lemma AddSubtractRoundTrip(p: Point, v: Vector)
    ensures Subtract(Add(p, v), p) == Ok(v)
  {
    assert Minus(Plus(p, v), p) == v;
  }

  /** Subtracting q from p and moving q by the result gives back p. */
  lemma SubtractAddRoundTrip(p: Point, q: Point)
    requires p != q
    ensures Subtract(p, q).Ok? && Add(q, Subtract(p, q).value) == p
  {
  }

  /** The dot product is symmetric and the squared length is the dot product with itself. */
  lemma DotSymmetric(u: Point, v: Point)
    ensures Dot(u, v) == Dot(v, u)
    ensures LengthSquared(u) == Dot(u, u)
  {
  }

  /** Two orthogonal non-zero vectors are not parallel: |u x v|^2 = |u|^2 |v|^2 > 0. */
  lemma OrthogonalNotParallel(u: Vector, v: Vector)
    requires Dot(u, v) == 0.0
    ensures !Parallel(u, v)
  {
    Lagrange(u, v);
    LengthSquaredPositive(u);
    LengthSquaredPositive(v);
    MulPositive(LengthSquared(u), LengthSquared(v));
    assert Mul(Dot(u, v), Dot(u, v)) == 0.0;
    LengthSquaredPositive(CrossOf(u, v));
  }

  /** For orthogonal operands the cross product's length is the product of the lengths. */
  lemma CrossLengthOrthogonal(sqrt: real -> real, u: Point, w: Point)
    requires IsSqrt(sqrt)
    requires Dot(u, w) == 0.0
    ensures Length(sqrt, CrossOf(u, w)) == Length(sqrt, u) * Length(sqrt, w)
  {
    Lagrange(u, w);
    var a, b := Length(sqrt, u), Length(sqrt, w);
    assert Mul(Dot(u, w), Dot(u, w)) == 0.0;
    assert LengthSquared(CrossOf(u, w)) == Mul(a * a, b * b);
    assert (a * b) * (a * b) == Mul(a * a, b * b);
    MulNonNegative(a, b);
    SqrtUnique(sqrt, LengthSquared(CrossOf(u, w)), a * b);
  }

  /** The concrete cases of the Point unit tests. */
  lemma PointExamples()
    ensures Subtract(Point(3.0, 4.0, 5.0), Point(1.0, 2.0, 3.0)) == Ok(Point(2.0, 2.0, 2.0))
    ensures Add(Point(1.0, 2.0, 3.0), Point(4.0, 5.0, 6.0)) == Point(5.0, 7.0, 9.0)
    ensures DistanceSquared(Point(1.0, 2.0, 3.0), Point(4.0, 5.0, 6.0)) == 27.0
    ensures Subtract(Point(1.0, 2.0, 3.0), Point(1.0, 2.0, 3.0)) == Err(ZeroVectorError)
  {
  }

  /** The concrete cases of the Vector unit tests: construction, add and scale. */
  lemma VectorExamples()
    ensures NewVector(Origin) == Err(ZeroVectorError)
    ensures AddVectors(Point(1.0, 2.0, 3.0), Point(-2.0, -4.0, -6.0)) == Ok(Point(-1.0, -2.0, -3.0))
    ensures AddVectors(Point(1.0, 2.0, 3.0), Point(-1.0, -2.0, -3.0)).Err?
    ensures Scale(Point(1.0, 2.0, 3.0), 0.0).Err?
    ensures Scale(Point(1.0, 2.0, 3.0), 3.0) == Ok(Point(3.0, 6.0, 9.0))
    ensures Scale(Point(1.0, 2.0, 3.0), -3.0) == Ok(Point(-3.0, -6.0, -9.0))
    ensures Scale(Point(1.0, 2.0, 3.0), 0.5) == Ok(Point(0.5, 1.0, 1.5))
  {
  }

  /** The concrete cases of the Vector unit tests: dot, cross and length. */
  lemma ProductExamples(sqrt: real -> real)
    requires IsSqrt(sqrt)
    ensures Dot(Point(1.0, 2.0, 3.0), Point(-2.0, -4.0, -6.0)) == -28.0
    ensures Dot(Point(1.0, 2.0, 3.0), Point(0.0, 3.0, -2.0)) == 0.0
    ensures Cross(Point(1.0, 2.0, 3.0), Point(-2.0, -4.0, -6.0)).Err?
    ensures LengthSquared(Point(1.0, 2.0, 2.0)) == 9.0
    ensures Length(sqrt, Point(1.0, 2.0, 2.0)) == 3.0
  {
    assert CrossOf(Point(1.0, 2.0, 3.0), Point(-2.0, -4.0, -6.0)) == Origin;
    SqrtUnique(sqrt, 9.0, 3.0);
  }
}
