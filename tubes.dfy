/**
 * geometries.Tube: an axis ray and a radius. The intersection routine reuses
 * the sphere's chord construction about the axis head, and the normal is
 * measured from the foot of the point on the axis.
 */
module Tubes {
  import opened Reals
  import opened Wrappers
  import opened Vectors
  import opened Rays
  import opened Spheres

  /** The constructor takes a float radius; the model keeps it as a real. */
  datatype Tube = Tube(radius: real, axis: Ray)

  /** The point of the axis at the parameter of p's projection onto it. */
  function Foot(tb: Tube, p: Point): Point {
    GetPoint(tb.axis, Dot(tb.axis.direction, Minus(p, tb.axis.head)))
  }

  /**
   * Tube.getNormal. It fails for a point on the axis line. When the point
   * projects onto the axis head it returns p - head without normalising it;
   * otherwise the normalised p - Foot(p). Either way the result is
   * orthogonal to the axis and points away from it.
   */
  function GetNormal(sqrt: real -> real, tb: Tube, p: Point): (r: Result<Vector>)
    requires IsSqrt(sqrt)
    ensures r.Ok? <==> p != Foot(tb, p)
    ensures r.Err? ==> r.error == ZeroVectorError
    ensures r.Ok? ==> Dot(tb.axis.direction, r.value) == 0.0 && Dot(Minus(p, Foot(tb, p)), r.value) > 0.0
    ensures r.Ok? && Dot(tb.axis.direction, Minus(p, tb.axis.head)) != 0.0 ==> LengthSquared(r.value) == 1.0
    ensures r.Ok? && Dot(tb.axis.direction, Minus(p, tb.axis.head)) == 0.0 ==> r.value == Minus(p, tb.axis.head)
  {
    var h, dir := tb.axis.head, tb.axis.direction;
    var v := Subtract(p, h);
    FootDifference(tb, p);
    if v.Err? then
      assert GetPoint(tb.axis, 0.0) == h;
      Err(v.error)
    else
      var t := Dot(dir, v.value);
      if t == 0.0 then
        assert GetPoint(tb.axis, 0.0) == h;
        DotSymmetric(v.value, v.value);
        LengthSquaredPositive(v.value);
        Ok(v.value)
      else
        var o := Add(h, Scale(dir, t).value);
        assert o == Foot(tb, p);
        var w := Subtract(p, o);
        if w.Err? then Err(w.error)
        else
          var n := Normalize(sqrt, w.value);
          NormalizeKeepsDotSign(sqrt, w.value, dir);
          NormalizeKeepsDotSign(sqrt, w.value, w.value);
          LengthSquaredPositive(w.value);
          DotSymmetric(w.value, w.value);
          Ok(n)
  }

  /** p - Foot(p) is orthogonal to the axis direction. */
  lemma FootDifference(tb: Tube, p: Point)
    ensures Dot(tb.axis.direction, Minus(p, Foot(tb, p))) == 0.0
  {
    var h, dir := tb.axis.head, tb.axis.direction;
    var t := Dot(dir, Minus(p, h));
    assert Minus(p, Foot(tb, p)) == Plus(Minus(p, h), Times(dir, -t));
    DotScaledRight(dir, dir, -t);
    DotSymmetric(dir, dir);
  }

  /** The sphere whose chord construction the tube reuses: the tube's radius about the axis head. */
  function AxisSphere(tb: Tube): Sphere {
    Sphere(tb.radius, tb.axis.head)
  }

  /**
   * Tube.findGeoIntersectionsHelper. A query ray that is the tube's own axis
   * object (sameObject) gets the point at parameter radius. Otherwise the
   * query head must differ from the axis head (the source throws), and unless
   * the sphere test about the axis head rejects the ray, it returns the near
   * root tm - th then the far root tm + th when the near one is positive, and
   * the far one alone otherwise. maxDistance is not consulted.
   */
  function Intersections(sqrt: real -> real, tb: Tube, ray: Ray, sameObject: bool, maxDistance: ExtReal): (r: Result<Option<seq<Point>>>)
    requires IsSqrt(sqrt)
    ensures sameObject ==> r == Ok(Some([GetPoint(ray, tb.radius)]))
    ensures !sameObject && tb.axis.head == ray.head ==> r == Err(ZeroVectorError)
    ensures !sameObject && tb.axis.head != ray.head ==>
      var k := ChordOf(sqrt, AxisSphere(tb), ray);
      r.Ok? &&
      (Missed(AxisSphere(tb), ray, k) ==> r.value.None?) &&
      (!Missed(AxisSphere(tb), ray, k) && k.tm - k.th > 0.0 ==>
        r.value == Some([GetPoint(ray, k.tm - k.th), GetPoint(ray, k.tm + k.th)])) &&
      (!Missed(AxisSphere(tb), ray, k) && k.tm - k.th <= 0.0 ==>
        r.value == Some([GetPoint(ray, k.tm + k.th)]))
  {
    if sameObject then Ok(Some([GetPoint(ray, tb.radius)]))
    else
      var u := Subtract(tb.axis.head, ray.head);
      if u.Err? then Err(u.error)
      else
        var k := ChordOf(sqrt, AxisSphere(tb), ray);
        if Missed(AxisSphere(tb), ray, k) then Ok(None)
        else if k.tm - k.th > 0.0 then Ok(Some([GetPoint(ray, k.tm - k.th), GetPoint(ray, k.tm + k.th)]))
        else Ok(Some([GetPoint(ray, k.tm + k.th)]))
  }

  /** The returned points are at distance |radius| from the axis head, not from the axis line. */
  lemma IntersectionsOnAxisSphere(sqrt: real -> real, tb: Tube, ray: Ray, maxDistance: ExtReal)
    requires IsSqrt(sqrt)
    ensures var r := Intersections(sqrt, tb, ray, false, maxDistance);
      r.Ok? && r.value.Some? ==>
        1 <= |r.value.value| <= 2 &&
        forall i :: 0 <= i < |r.value.value| ==> OnSphere(AxisSphere(tb), r.value.value[i])
  {
    var s := AxisSphere(tb);
    if tb.axis.head != ray.head && !Missed(s, ray, ChordOf(sqrt, s, ray)) {
      RootsOnSphere(sqrt, s, ray);
    }
  }

  /** The returned points are strictly ahead of the query head, although the far root is never tested. */
  lemma IntersectionsAhead(sqrt: real -> real, tb: Tube, ray: Ray, maxDistance: ExtReal)
    requires IsSqrt(sqrt)
    ensures var r := Intersections(sqrt, tb, ray, false, maxDistance);
      var k := ChordOf(sqrt, AxisSphere(tb), ray);
      r.Ok? && r.value.Some? ==>
        forall i :: 0 <= i < |r.value.value| ==>
          AheadWithin(ray, r.value.value[i], k.tm + k.th, PositiveInfinity) ||
          AheadWithin(ray, r.value.value[i], k.tm - k.th, PositiveInfinity)
  {
    var s := AxisSphere(tb);
    if tb.axis.head != ray.head && !Missed(s, ray, ChordOf(sqrt, s, ray)) {
      FarRootAhead(sqrt, s, ray);
    }
  }

  /** Two returned points come nearer first, the opposite of the sphere's order. */
  lemma IntersectionsNearFirst(sqrt: real -> real, tb: Tube, ray: Ray, maxDistance: ExtReal)
    requires IsSqrt(sqrt)
    ensures var r := Intersections(sqrt, tb, ray, false, maxDistance);
      r.Ok? && r.value.Some? && |r.value.value| == 2 ==>
        DistanceSquared(ray.head, r.value.value[0]) < DistanceSquared(ray.head, r.value.value[1])
  {
    var s := AxisSphere(tb);
    var k := ChordOf(sqrt, s, ray);
    if tb.axis.head != ray.head && !Missed(s, ray, k) && k.tm - k.th > 0.0 {
      var far, near := k.tm + k.th, k.tm - k.th;
      assert k.d < s.radius;
      assert Intersections(sqrt, tb, ray, false, maxDistance).value.value == [GetPoint(ray, near), GetPoint(ray, far)];
      GetPointDistance(ray, far);
      GetPointDistance(ray, near);
      assert near < far;
      SquareStrictlyMonotone(near, far);
    }
  }

  /** When the sphere test passes, the far root tm + th is positive. */
  lemma FarRootAhead(sqrt: real -> real, s: Sphere, ray: Ray)
    requires IsSqrt(sqrt)
    requires !Missed(s, ray, ChordOf(sqrt, s, ray))
    ensures 0.0 < ChordOf(sqrt, s, ray).tm + ChordOf(sqrt, s, ray).th
  {
    var k := ChordOf(sqrt, s, ray);
    assert k.d < s.radius;
    FarRootPositive(k.tm, k.th, k.d, s.radius, LengthSquared(Minus(s.center, ray.head)));
  }

  /**
   * The arithmetic of FarRootAhead: with tm negative the head is inside the
   * sphere (L < r^2), so th^2 = r^2 - L + tm^2 exceeds tm^2.
   */
  lemma FarRootPositive(tm: real, th: real, d: real, r: real, L: real)
    requires 0.0 < th && Mul(d, d) == L - Mul(tm, tm) && Mul(th, th) == Mul(r, r) - Mul(d, d)
    requires tm >= 0.0 || L < Mul(r, r)
    ensures 0.0 < tm + th
  {
    if tm < 0.0 {
      assert Mul(-tm, -tm) == Mul(tm, tm);
      assert Mul(-tm, -tm) < Mul(th, th);
      SquareStrictlyMonotone(-tm, th);
    }
  }

  /** The query ray being the axis object itself gives one point, radius along the query ray. */
  lemma SameObjectPoint(sqrt: real -> real, tb: Tube, ray: Ray, maxDistance: ExtReal)
    requires IsSqrt(sqrt)
    ensures var r := Intersections(sqrt, tb, ray, true, maxDistance);
      r.Ok? && r.value.Some? && |r.value.value| == 1 &&
      DistanceSquared(ray.head, r.value.value[0]) == Mul(tb.radius, tb.radius)
  {
    GetPointDistance(ray, tb.radius);
  }
}
