/**
 * geometries.Sphere: a centre and a radius, the outward unit normal, and the
 * intersection of a ray with the sphere by the chord construction.
 */
module Spheres {
  import opened Reals
  import opened Wrappers
  import opened Vectors
  import opened Rays

  /** The radius is stored as given; the constructor does not check its sign. */
  datatype Sphere = Sphere(radius: real, center: Point)

  /** p is at distance |radius| from the centre. */
  predicate OnSphere(s: Sphere, p: Point) {
    DistanceSquared(s.center, p) == Mul(s.radius, s.radius)
  }

  /** p is the point of the ray at parameter t, with 0 < t and t at most max. */
  predicate AheadWithin(ray: Ray, p: Point, t: real, max: ExtReal) {
    p == GetPoint(ray, t) && 0.0 < t && AtMost(t, max)
  }

  /** Sphere.getNormal: the normalised p - center, which fails at the centre itself. */
  function GetNormal(sqrt: real -> real, s: Sphere, p: Point): (r: Result<Vector>)
    requires IsSqrt(sqrt)
    ensures r.Ok? <==> p != s.center
    ensures r.Err? ==> r.error == ZeroVectorError
    ensures r.Ok? ==> LengthSquared(r.value) == 1.0
    ensures r.Ok? ==> Parallel(r.value, Minus(p, s.center)) && Dot(r.value, Minus(p, s.center)) > 0.0
  {
    var v := Subtract(p, s.center);
    if v.Err? then Err(v.error)
    else
      assert v.value == Minus(p, s.center);
      Ok(Normalize(sqrt, v.value))
  }

  /**
   * The three quantities of the chord construction: tm, the parameter of the
   * point of the ray's line nearest the centre; d, the distance from the
   * centre to that line; th, half the length of the chord the line cuts.
   */
  datatype Chord = Chord(tm: real, d: real, th: real)

  /** Half the chord is only a length while the line passes closer to the centre than the radius. */
  function ChordOf(sqrt: real -> real, s: Sphere, ray: Ray): (k: Chord)
    requires IsSqrt(sqrt)
    ensures k.tm == Dot(ray.direction, Minus(s.center, ray.head))
    ensures 0.0 <= k.d && Mul(k.d, k.d) == DistanceSquared(s.center, GetPoint(ray, k.tm))
    ensures Mul(k.d, k.d) == LengthSquared(Minus(s.center, ray.head)) - Mul(k.tm, k.tm)
    ensures k.d < s.radius ==> 0.0 < k.th && Mul(k.th, k.th) == Mul(s.radius, s.radius) - Mul(k.d, k.d)
  {
    var u := Minus(s.center, ray.head);
    var tm := Dot(ray.direction, u);
    CauchySchwarz(ray.direction, u);
    var d := sqrt(LengthSquared(u) - tm * tm);
    var th := sqrt(s.radius * s.radius - d * d);
    AlongRay(ray, s.center, tm);
    HalfChord(sqrt, s.radius, d);
    Chord(tm, d, th)
  }

  lemma HalfChord(sqrt: real -> real, r: real, d: real)
    requires IsSqrt(sqrt) && 0.0 <= d
    ensures var th := sqrt(r * r - d * d);
      d < r ==> 0.0 < th && Mul(th, th) == Mul(r, r) - Mul(d, d)
  {
    if d < r {
      SquareStrictlyMonotone(d, r);
      SqrtPositive(sqrt, r * r - d * d);
    }
  }

  /** The source's rejection test: the line misses (or only touches) the sphere, or the head is outside it and the ray points away. */
  predicate Missed(s: Sphere, ray: Ray, k: Chord) {
    k.d >= s.radius || (k.tm < 0.0 && LengthSquared(Minus(s.center, ray.head)) >= Mul(s.radius, s.radius))
  }

  /** A hit parameter the source keeps: strictly ahead and at most maxDistance. */
  predicate InRange(t: real, max: ExtReal) {
    0.0 < t && AtMost(t, max)
  }

  /**
   * Sphere.findGeoIntersectionsHelper. A ray starting at the centre gets the
   * single point at parameter radius, whatever maxDistance. Otherwise, unless
   * rejected, the far root tm + th and the near root tm - th are kept when in
   * range: both (far first), only the near one, or only the far one.
   */
  function Intersections(sqrt: real -> real, s: Sphere, ray: Ray, maxDistance: ExtReal): (r: Option<seq<Point>>)
    requires IsSqrt(sqrt)
    ensures s.center == ray.head ==> r == Some([GetPoint(ray, s.radius)])
    ensures s.center != ray.head && Missed(s, ray, ChordOf(sqrt, s, ray)) ==> r.None?
    ensures s.center != ray.head && !Missed(s, ray, ChordOf(sqrt, s, ray)) ==>
      var k := ChordOf(sqrt, s, ray);
      var far, near := k.tm + k.th, k.tm - k.th;
      (InRange(far, maxDistance) && InRange(near, maxDistance) ==> r == Some([GetPoint(ray, far), GetPoint(ray, near)])) &&
      (InRange(near, maxDistance) && !InRange(far, maxDistance) ==> r == Some([GetPoint(ray, near)])) &&
      (InRange(far, maxDistance) && !InRange(near, maxDistance) ==> r == Some([GetPoint(ray, far)])) &&
      (!InRange(far, maxDistance) && !InRange(near, maxDistance) ==> r.None?)
  {
    if Equals(s.center, ray.head) then Some([GetPoint(ray, s.radius)])
    else
      var k := ChordOf(sqrt, s, ray);
      if Missed(s, ray, k) then None
      else
        var t1 := k.tm + k.th;
        var t2 := k.tm - k.th;
        var p1 := GetPoint(ray, t1);
        var p2 := GetPoint(ray, t2);
        var b1 := AtMost(t1, maxDistance);
        var b2 := AtMost(t2, maxDistance);
        if t2 > 0.0 && t1 > 0.0 && b2 && b1 then Some([p1, p2])
        else if b2 && t2 > 0.0 then Some([p2])
        else if b1 && t1 > 0.0 then Some([p1])
        else None
  }

  // The distance from a point to the points of a ray

  /** |c - (head + t dir)|^2 = t^2 - 2 t tm + |c - head|^2 for the unit direction. */
  lemma AlongRay(ray: Ray, c: Point, t: real)
    ensures DistanceSquared(c, GetPoint(ray, t))
         == Mul(t, t) - 2.0 * Mul(t, Dot(ray.direction, Minus(c, ray.head))) + LengthSquared(Minus(c, ray.head))
  {
    var u := Minus(c, ray.head);
    var a := Times(ray.direction, t);
    assert Minus(GetPoint(ray, t), c) == Minus(a, u);
    DifferenceLengthSquared(a, u);
    ScaledLengthSquared(ray.direction, t);
    assert LengthSquared(a) == Mul(t, t);
    ScaledDot(ray.direction, u, t);
    assert Dot(a, u) == Mul(t, Dot(ray.direction, u));
  }

  /** |a - b|^2 = |a|^2 - 2 a . b + |b|^2. */
  lemma DifferenceLengthSquared(a: Point, b: Point)
    ensures LengthSquared(Minus(a, b)) == LengthSquared(a) - 2.0 * Dot(a, b) + LengthSquared(b)
  {
  }

  /** Pythagoras along the line: the squared distance is (t - tm)^2 + d^2. */
  lemma AlongChord(sqrt: real -> real, s: Sphere, ray: Ray, t: real)
    requires IsSqrt(sqrt)
    ensures var k := ChordOf(sqrt, s, ray);
      DistanceSquared(s.center, GetPoint(ray, t)) == Mul(t - k.tm, t - k.tm) + Mul(k.d, k.d)
  {
    var k := ChordOf(sqrt, s, ray);
    AlongRay(ray, s.center, t);
    CompleteSquare(t, k.tm);
  }

  /** t^2 - 2 t m = (t - m)^2 - m^2. */
  lemma CompleteSquare(t: real, m: real)
    ensures Mul(t, t) - 2.0 * Mul(t, m) == Mul(t - m, t - m) - Mul(m, m)
  {
  }

  // What the returned points are

  /** Both roots of a line that is not rejected lie on the sphere, the near one before the far one. */
  lemma RootsOnSphere(sqrt: real -> real, s: Sphere, ray: Ray)
    requires IsSqrt(sqrt)
    requires !Missed(s, ray, ChordOf(sqrt, s, ray))
    ensures var k := ChordOf(sqrt, s, ray);
      OnSphere(s, GetPoint(ray, k.tm + k.th)) && OnSphere(s, GetPoint(ray, k.tm - k.th)) && k.tm - k.th < k.tm + k.th
  {
    var k := ChordOf(sqrt, s, ray);
    var far, near := k.tm + k.th, k.tm - k.th;
    AlongChord(sqrt, s, ray, far);
    RootDistance(far, k.tm, k.th, k.d, s.radius, DistanceSquared(s.center, GetPoint(ray, far)));
    AlongChord(sqrt, s, ray, near);
    RootDistance(near, k.tm, k.th, k.d, s.radius, DistanceSquared(s.center, GetPoint(ray, near)));
  }

  /** At x = tm + th or x = tm - th the squared distance (x - tm)^2 + d^2 is r^2. */
  lemma RootDistance(x: real, tm: real, th: real, d: real, r: real, D: real)
    requires D == Mul(x - tm, x - tm) + Mul(d, d) && Mul(th, th) == Mul(r, r) - Mul(d, d)
    requires x == tm + th || x == tm - th
    ensures D == Mul(r, r)
  {
    assert Mul(x - tm, x - tm) == Mul(th, th);
  }

  /** A point of the line is on the sphere exactly at the two roots. */
  lemma RootsComplete(sqrt: real -> real, s: Sphere, ray: Ray, t: real)
    requires IsSqrt(sqrt)
    requires !Missed(s, ray, ChordOf(sqrt, s, ray))
    ensures var k := ChordOf(sqrt, s, ray);
      OnSphere(s, GetPoint(ray, t)) <==> t == k.tm + k.th || t == k.tm - k.th
  {
    var k := ChordOf(sqrt, s, ray);
    AlongChord(sqrt, s, ray, t);
    SquareRoots(t - k.tm, k.th);
  }

  /** For 0 < h, x^2 = h^2 exactly when x is h or -h. */
  lemma SquareRoots(x: real, h: real)
    requires 0.0 < h
    ensures Mul(x, x) == Mul(h, h) <==> x == h || x == -h
  {
    assert Mul(x, x) - Mul(h, h) == (x - h) * (x + h);
    if x != h && x != -h {
      NonZeroProduct(x - h, x + h);
    }
  }

  lemma NonZeroProduct(a: real, b: real)
    requires a != 0.0 && b != 0.0
    ensures a * b != 0.0
  {
    if 0.0 < a {
      if 0.0 < b { MulPositive(a, b); } else { MulPositive(a, -b); }
    } else {
      if 0.0 < b { MulPositive(-a, b); } else { MulPositive(-a, -b); }
    }
  }

  /**
   * The rejection test loses only tangent points: on a rejected line, a point of
   * the sphere strictly ahead of the head is where the line touches the sphere.
   */
  lemma MissedOnlyTangent(sqrt: real -> real, s: Sphere, ray: Ray, t: real)
    requires IsSqrt(sqrt)
    requires 0.0 <= s.radius && s.center != ray.head
    requires Missed(s, ray, ChordOf(sqrt, s, ray))
    requires 0.0 < t && OnSphere(s, GetPoint(ray, t))
    ensures ChordOf(sqrt, s, ray).d == s.radius && t == ChordOf(sqrt, s, ray).tm
  {
    var k := ChordOf(sqrt, s, ray);
    var u := Minus(s.center, ray.head);
    AlongChord(sqrt, s, ray, t);
    AlongRay(ray, s.center, t);
    TangentOnly(t, k.tm, k.d, s.radius, LengthSquared(u), DistanceSquared(s.center, GetPoint(ray, t)));
  }

  /**
   * The arithmetic of MissedOnlyTangent: D is the squared distance at t, both
   * as (t - tm)^2 + d^2 and as t^2 - 2 t tm + L, and equals r^2.
   */
  lemma TangentOnly(t: real, tm: real, d: real, r: real, L: real, D: real)
    requires 0.0 <= r && 0.0 <= d && 0.0 < t
    requires D == Mul(t - tm, t - tm) + Mul(d, d) && D == Mul(t, t) - 2.0 * Mul(t, tm) + L && D == Mul(r, r)
    requires d >= r || (tm < 0.0 && L >= Mul(r, r))
    ensures d == r && t == tm
  {
    SquareNonNegative(t - tm);
    if d >= r {
      MulMonotone(r, d);
      if d != r {
        SquareStrictlyMonotone(r, d);
      }
      if t != tm {
        SquarePositive(t - tm);
      }
    } else {
      MulPositive(t, -tm);
      MulPositive(t, t);
    }
  }

  lemma MulMonotone(a: real, b: real)
    requires 0.0 <= a <= b
    ensures Mul(a, a) <= Mul(b, b)
  {
    if a < b {
      SquareStrictlyMonotone(a, b);
    }
  }

  /** Every returned point is on the sphere and, off the centre, strictly ahead within maxDistance. */
  lemma IntersectionsSound(sqrt: real -> real, s: Sphere, ray: Ray, maxDistance: ExtReal)
    requires IsSqrt(sqrt)
    ensures var r := Intersections(sqrt, s, ray, maxDistance);
      r.Some? ==> 1 <= |r.value| <= 2 && forall i :: 0 <= i < |r.value| ==> OnSphere(s, r.value[i])
    ensures var r := Intersections(sqrt, s, ray, maxDistance);
      var k := ChordOf(sqrt, s, ray);
      s.center != ray.head && r.Some? ==>
        forall i :: 0 <= i < |r.value| ==>
          AheadWithin(ray, r.value[i], k.tm + k.th, maxDistance) || AheadWithin(ray, r.value[i], k.tm - k.th, maxDistance)
  {
    if s.center == ray.head {
      GetPointDistance(ray, s.radius);
    } else if !Missed(s, ray, ChordOf(sqrt, s, ray)) {
      RootsOnSphere(sqrt, s, ray);
    }
  }

  /**
   * Every point of the sphere strictly ahead of a head other than the centre,
   * within maxDistance, is returned, unless the line only touches the sphere.
   */
  lemma IntersectionsComplete(sqrt: real -> real, s: Sphere, ray: Ray, maxDistance: ExtReal, t: real)
    requires IsSqrt(sqrt)
    requires 0.0 <= s.radius && s.center != ray.head
    requires InRange(t, maxDistance) && OnSphere(s, GetPoint(ray, t))
    ensures var r := Intersections(sqrt, s, ray, maxDistance);
      (r.Some? && GetPoint(ray, t) in r.value) || ChordOf(sqrt, s, ray).d == s.radius
  {
    if Missed(s, ray, ChordOf(sqrt, s, ray)) {
      MissedOnlyTangent(sqrt, s, ray, t);
    } else {
      RootsComplete(sqrt, s, ray, t);
    }
  }

  /** When two points are returned, the first is the farther from the head. */
  lemma IntersectionsFarFirst(sqrt: real -> real, s: Sphere, ray: Ray, maxDistance: ExtReal)
    requires IsSqrt(sqrt)
    ensures var r := Intersections(sqrt, s, ray, maxDistance);
      r.Some? && |r.value| == 2 ==>
        DistanceSquared(ray.head, r.value[1]) < DistanceSquared(ray.head, r.value[0])
  {
    var r := Intersections(sqrt, s, ray, maxDistance);
    if r.Some? && |r.value| == 2 {
      assert s.center != ray.head && !Missed(s, ray, ChordOf(sqrt, s, ray));
      var k := ChordOf(sqrt, s, ray);
      var far, near := k.tm + k.th, k.tm - k.th;
      assert InRange(far, maxDistance) && InRange(near, maxDistance);
      assert r.value == [GetPoint(ray, far), GetPoint(ray, near)];
      GetPointDistance(ray, far);
      GetPointDistance(ray, near);
      assert near < far;
      SquareStrictlyMonotone(near, far);
    }
  }
}
