/**
 * geometries.Plane: a reference point and a unit normal, and the
 * intersection of a ray with the plane.
 */
module Planes {
  import opened Reals
  import opened Wrappers
  import opened Vectors
  import opened Rays

  datatype PlaneValue = Plane(point: Point, normal: Vector)

  /** Both Plane constructors normalise the normal. */
  type Plane = p: PlaneValue | LengthSquared(p.normal) == 1.0
    witness Plane(Origin, Point(0.0, 0.0, 1.0))

  /** p lies on the plane: the vector from the reference point to p is orthogonal to the normal. */
  predicate OnPlane(pl: PlaneValue, p: Point) {
    Dot(pl.normal, Minus(p, pl.point)) == 0.0
  }

  /**
   * Plane(p1, p2, p3): the plane through three points, with reference point p1
   * and the normalised (p2 - p1) x (p3 - p1) as normal. It fails with the
   * zero-vector error when two of the points coincide or the three are collinear.
   */
  function PlaneThrough(sqrt: real -> real, p1: Point, p2: Point, p3: Point): (r: Result<Plane>)
    requires IsSqrt(sqrt)
    ensures r.Ok? <==> p2 != p1 && p3 != p1 && !Parallel(Minus(p2, p1), Minus(p3, p1))
    ensures r.Err? ==> r.error == ZeroVectorError
    ensures r.Ok? ==> r.value.point == p1 && OnPlane(r.value, p1) && OnPlane(r.value, p2) && OnPlane(r.value, p3)
    ensures r.Ok? ==> r.value.normal == Normalize(sqrt, CrossOf(Minus(p2, p1), Minus(p3, p1)))
  {
    var p := Subtract(p2, p1);
    if p.Err? then Err(p.error)
    else
      var pp := Subtract(p3, p1);
      if pp.Err? then Err(pp.error)
      else
        var v := Cross(p.value, pp.value);
        if v.Err? then Err(v.error)
        else
          var n := Normalize(sqrt, v.value);
          NormalizeKeepsDotSign(sqrt, v.value, p.value);
          NormalizeKeepsDotSign(sqrt, v.value, pp.value);
          DotSymmetric(v.value, p.value);
          DotSymmetric(v.value, pp.value);
          DotSymmetric(n, p.value);
          DotSymmetric(n, pp.value);
          assert Minus(p1, p1) == Origin;
          Ok(Plane(p1, n))
  }

  /** Plane(point, vector): the given reference point and the normalised vector. */
  function PlaneOf(sqrt: real -> real, point: Point, vector: Vector): (r: Plane)
    requires IsSqrt(sqrt)
    ensures r.point == point && OnPlane(r, point)
    ensures r.normal == Normalize(sqrt, vector)
  {
    assert Minus(point, point) == Origin;
    Plane(point, Normalize(sqrt, vector))
  }

  /** Plane.getNormal: the stored unit normal, whatever the point. */
  function GetNormal(pl: Plane, p: Point): (r: Vector)
    ensures r == pl.normal && LengthSquared(r) == 1.0
  {
    pl.normal
  }

  /** The ray parameter at which the ray meets the plane, for a ray not parallel to it. */
  function PlaneParameter(pl: Plane, ray: Ray): real
    requires Dot(pl.normal, ray.direction) != 0.0
  {
    Dot(pl.normal, Minus(pl.point, ray.head)) / Dot(pl.normal, ray.direction)
  }

  /**
   * Plane.findGeoIntersectionsHelper: no hit for a parallel ray or a ray whose
   * head is on the plane; otherwise the single point where the ray meets the
   * plane, if that point lies strictly in front of the head and at most
   * maxDistance away.
   */
  function Intersections(pl: Plane, ray: Ray, maxDistance: ExtReal): (r: Option<seq<Point>>)
    ensures Dot(pl.normal, ray.direction) == 0.0 ==> r.None?
    ensures ray.head == pl.point ==> r.None?
    ensures OnPlane(pl, ray.head) ==> r.None?
    ensures r.Some? <==>
      Dot(pl.normal, ray.direction) != 0.0 && !OnPlane(pl, ray.head) &&
      0.0 < PlaneParameter(pl, ray) && AtMost(PlaneParameter(pl, ray), maxDistance)
    ensures r.Some? ==>
      r.value == [GetPoint(ray, PlaneParameter(pl, ray))] && OnPlane(pl, r.value[0])
  {
    if Dot(pl.normal, ray.direction) == 0.0 then None
    else if Equals(ray.head, pl.point) then None
    else if Dot(pl.normal, Subtract(pl.point, ray.head).value) == 0.0 then None
    else
      var qMinusP0 := Subtract(pl.point, ray.head).value;
      var nQMinusP0 := Dot(pl.normal, qMinusP0);
      var nv := Dot(pl.normal, ray.direction);
      var t := nQMinusP0 / nv;
      OnPlaneHead(pl, ray.head);
      if t > 0.0 && AtMost(t, maxDistance) then
        PlaneParameterUnique(pl, ray, t);
        Some([GetPoint(ray, t)])
      else None
  }

  /** The head is on the plane exactly when the vector from it to the reference point is orthogonal to the normal. */
  lemma OnPlaneHead(pl: Plane, head: Point)
    ensures OnPlane(pl, head) <==> Dot(pl.normal, Minus(pl.point, head)) == 0.0
  {
    var d := Minus(head, pl.point);
    assert Minus(pl.point, head) == Times(d, -1.0);
    ScaledDot(pl.normal, d, -1.0);
  }

  /** A ray not parallel to the plane meets it at exactly one parameter. */
  lemma PlaneParameterUnique(pl: Plane, ray: Ray, t: real)
    requires Dot(pl.normal, ray.direction) != 0.0
    ensures OnPlane(pl, GetPoint(ray, t)) <==> t == PlaneParameter(pl, ray)
  {
    var nv := Dot(pl.normal, ray.direction);
    var a := Dot(pl.normal, Minus(pl.point, ray.head));
    OffsetAlongRay(pl, ray, t);
    LinearRoot(t, nv, a);
  }

  /** How far the point at parameter t is from the plane, measured along the normal. */
  lemma OffsetAlongRay(pl: Plane, ray: Ray, t: real)
    ensures Dot(pl.normal, Minus(GetPoint(ray, t), pl.point))
         == t * Dot(pl.normal, ray.direction) - Dot(pl.normal, Minus(pl.point, ray.head))
  {
    var n := pl.normal;
    var p := GetPoint(ray, t);
    var back := Minus(pl.point, ray.head);
    var a := Times(ray.direction, t);
    assert Minus(p, pl.point) == Minus(a, back);
    DotOfMinus(n, a, back);
    DotScaledRight(n, ray.direction, t);
  }

  lemma DotOfMinus(n: Point, a: Point, b: Point)
    ensures Dot(n, Minus(a, b)) == Dot(n, a) - Dot(n, b)
  {
  }

  /** The root of t * c - a, for c other than 0. */
  lemma LinearRoot(t: real, c: real, a: real)
    requires c != 0.0
    ensures t * c - a == 0.0 <==> t == a / c
  {
    assert (a / c) * c == a;
    if t * c - a == 0.0 {
      MulCancel(t, a / c, c);
    }
  }

  /** A non-zero factor can be cancelled. */
  lemma MulCancel(x: real, y: real, c: real)
    requires c != 0.0 && x * c == y * c
    ensures x == y
  {
    assert (x - y) * c == 0.0;
    if x != y {
      if c > 0.0 {
        if x > y { MulPositive(x - y, c); } else { MulPositive(y - x, c); }
      } else {
        if x > y { MulPositive(x - y, -c); } else { MulPositive(y - x, -c); }
      }
    }
  }

  /** When the cross product of the two edges is already a unit vector, it is the normal. */
  lemma UnitCrossIsNormal(sqrt: real -> real, p1: Point, p2: Point, p3: Point)
    requires IsSqrt(sqrt)
    requires p2 != p1 && p3 != p1
    requires LengthSquared(CrossOf(Minus(p2, p1), Minus(p3, p1))) == 1.0
    ensures PlaneThrough(sqrt, p1, p2, p3).Ok?
    ensures PlaneThrough(sqrt, p1, p2, p3).value.normal == CrossOf(Minus(p2, p1), Minus(p3, p1))
  {
    var c := CrossOf(Minus(p2, p1), Minus(p3, p1));
    assert c != Origin;
    NormalizeUnit(sqrt, c);
  }

  /** The edges (1, 0, 0) and (0, 1, 0) from the origin have the unit cross product (0, 0, 1). */
  lemma UnitCross()
    ensures CrossOf(Minus(Point(1.0, 0.0, 0.0), Origin), Minus(Point(0.0, 1.0, 0.0), Origin)) == Point(0.0, 0.0, 1.0)
    ensures LengthSquared(Point(0.0, 0.0, 1.0)) == 1.0
  {
  }
}
