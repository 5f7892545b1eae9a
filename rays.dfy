/**
 * primitives.Ray: a head point and a unit direction, and the search for the
 * intersection closest to the head. Intersectable.GeoPoint, a point tagged
 * with the geometry it lies on, lives here as well, generic in the geometry,
 * so that the closest-point search does not depend on the geometries.
 */
module Rays {
  import opened Reals
  import opened Wrappers
  import opened Vectors

  datatype RayValue = Ray(head: Point, direction: Vector)

  /** Both Ray constructors normalise the direction, so it always has unit length. */
  type Ray = r: RayValue | LengthSquared(r.direction) == 1.0
    witness Ray(Origin, Point(1.0, 0.0, 0.0))

  /** Ray.DELTA: the distance the offset constructor moves the head along the normal. */
  const Delta: real := 0.1

  /** Ray(point, vector): keeps the head and stores the normalised direction. */
  function NewRay(sqrt: real -> real, head: Point, direction: Vector): (r: Ray)
    requires IsSqrt(sqrt)
    ensures r.head == head
    ensures r.direction == Normalize(sqrt, direction)
    ensures Parallel(r.direction, direction) && Dot(r.direction, direction) > 0.0
  {
    Ray(head, Normalize(sqrt, direction))
  }

  /**
   * Ray(head, direction, normal): the head is moved by Delta along the normal,
   * towards the side of the surface the direction points to; a direction
   * tangent to the surface leaves the head where it is.
   */
  function NewOffsetRay(sqrt: real -> real, head: Point, direction: Vector, normal: Vector): (r: Ray)
    requires IsSqrt(sqrt)
    ensures Dot(direction, normal) == 0.0 ==> r.head == head
    ensures Dot(direction, normal) > 0.0 ==> r.head == Plus(head, Times(normal, Delta))
    ensures Dot(direction, normal) < 0.0 ==> r.head == Plus(head, Times(normal, -Delta))
    ensures r.direction == Normalize(sqrt, direction)
  {
    var nv := Dot(direction, normal);
    var p :=
      if nv == 0.0 then head
      else if nv > 0.0 then Add(head, Scale(normal, Delta).value)
      else Add(head, Scale(normal, -Delta).value);
    Ray(p, Normalize(sqrt, direction))
  }

  /** Ray.getPoint: the point at parameter t along the ray. */
  function GetPoint(r: Ray, t: real): (p: Point)
    ensures Minus(p, r.head) == Times(r.direction, t)
  {
    Point(r.head.x + t * r.direction.x, r.head.y + t * r.direction.y, r.head.z + t * r.direction.z)
  }

  /** Ray.equals: two rays are equal when their heads and their directions are. */
  function RayEquals(a: Ray, b: Ray): (r: bool)
    ensures r <==> a == b
  {
    Equals(a.head, b.head) && Equals(a.direction, b.direction)
  }

  /** Intersectable.GeoPoint. */
  datatype GeoPoint<G> = GeoPoint(geometry: G, point: Point)

  /** GeoPoint.equals: same geometry and same point. */
  function GeoPointEquals<G(==)>(a: GeoPoint<G>, b: GeoPoint<G>): (r: bool)
    ensures r <==> a == b
  {
    a.geometry == b.geometry && Equals(a.point, b.point)
  }

  /** The points of a list of GeoPoints, in order. */
  function PointsOf<G>(s: seq<GeoPoint<G>>): (ps: seq<Point>)
    ensures |ps| == |s|
    ensures forall i :: 0 <= i < |s| ==> ps[i] == s[i].point
  {
    if s == [] then [] else [s[0].point] + PointsOf(s[1..])
  }

  /**
   * The index of the first point of ps closest to head: no point is closer,
   * and every earlier point is strictly farther.
   */
  function FirstClosest(head: Point, ps: seq<Point>): (k: nat)
    requires |ps| > 0
    ensures k < |ps|
    ensures forall j :: 0 <= j < |ps| ==> DistanceSquared(head, ps[k]) <= DistanceSquared(head, ps[j])
    ensures forall j :: 0 <= j < k ==> DistanceSquared(head, ps[k]) < DistanceSquared(head, ps[j])
  {
    if |ps| == 1 then 0
    else
      var k := FirstClosest(head, ps[..|ps| - 1]);
      if DistanceSquared(head, ps[|ps| - 1]) < DistanceSquared(head, ps[k]) then |ps| - 1 else k
  }

  /** The first-closest index is determined by the two properties its contract states. */
  lemma FirstClosestUnique(head: Point, ps: seq<Point>, k: nat)
    requires k < |ps|
    requires forall j :: 0 <= j < |ps| ==> DistanceSquared(head, ps[k]) <= DistanceSquared(head, ps[j])
    requires forall j :: 0 <= j < k ==> DistanceSquared(head, ps[k]) < DistanceSquared(head, ps[j])
    ensures FirstClosest(head, ps) == k
  {
  }

  /** One more point: it becomes the closest only when strictly closer than the closest so far. */
  lemma FirstClosestNext(head: Point, ps: seq<Point>, i: nat)
    requires i < |ps|
    ensures i == 0 ==> FirstClosest(head, ps[..i + 1]) == 0
    ensures 0 < i ==> var k := FirstClosest(head, ps[..i]);
      FirstClosest(head, ps[..i + 1]) ==
        if DistanceSquared(head, ps[i]) < DistanceSquared(head, ps[k]) then i else k
  {
    assert ps[..i + 1][..i] == ps[..i];
  }

  /** The loop's step: point i replaces the closest point k so far exactly when its distance is smaller. */
  lemma NextClosest(sqrt: real -> real, head: Point, ps: seq<Point>, i: nat, k: nat)
    requires IsSqrt(sqrt) && i < |ps| && k < |ps|
    requires 0 < i ==> k == FirstClosest(head, ps[..i])
    requires i == 0 ==> k == 0
    ensures var closer := Abs(Distance(sqrt, head, ps[i])) < Abs(Distance(sqrt, head, ps[k]));
      FirstClosest(head, ps[..i + 1]) == if closer then i else k
  {
    DistanceLessIff(sqrt, head, ps[i], ps[k]);
    FirstClosestNext(head, ps, i);
  }

  /** Comparing distances to the head is comparing squared distances. */
  lemma DistanceLessIff(sqrt: real -> real, head: Point, p: Point, q: Point)
    requires IsSqrt(sqrt)
    ensures Abs(Distance(sqrt, head, p)) < Abs(Distance(sqrt, head, q))
        <==> DistanceSquared(head, p) < DistanceSquared(head, q)
  {
    DistanceSquaredProperties(head, p);
    DistanceSquaredProperties(head, q);
    SqrtStrictlyMonotone(sqrt, DistanceSquared(head, p), DistanceSquared(head, q));
  }

  /**
   * Ray.findClosestGeoPoint: None for a missing list, a NoSuchElement failure
   * for an empty one (getFirst), and otherwise the earliest element at the
   * least distance from the head.
   */
  method FindClosestGeoPoint<G>(sqrt: real -> real, ray: Ray, list: Option<seq<GeoPoint<G>>>)
      returns (r: Result<Option<GeoPoint<G>>>)
    requires IsSqrt(sqrt)
    ensures list.None? ==> r == Ok(None)
    ensures list.Some? && list.value == [] ==> r == Err(NoSuchElement)
    ensures list.Some? && list.value != [] ==>
      r == Ok(Some(list.value[FirstClosest(ray.head, PointsOf(list.value))]))
    ensures r.Ok? && r.value.Some? ==>
      list.Some? && r.value.value in list.value &&
      forall g :: g in list.value ==>
        DistanceSquared(ray.head, r.value.value.point) <= DistanceSquared(ray.head, g.point)
  {
    if list.None? {
      return Ok(None);
    }
    var s := list.value;
    if s == [] {
      return Err(NoSuchElement);
    }
    var ps := PointsOf(s);
    var closest := s[0];
    var k := 0;
    for i := 0 to |s|
      invariant k < |s| && closest == s[k]
      invariant 0 < i ==> k == FirstClosest(ray.head, ps[..i])
      invariant i == 0 ==> k == 0
    {
      NextClosest(sqrt, ray.head, ps, i, k);
      if Abs(Distance(sqrt, ray.head, s[i].point)) < Abs(Distance(sqrt, ray.head, closest.point)) {
        closest := s[i];
        k := i;
      }
    }
    assert ps[..|s|] == ps;
    r := Ok(Some(closest));
    ClosestIsNearest(ray.head, s);
  }

  /** The first-closest element of a non-empty list is no farther than any element of it. */
  lemma ClosestIsNearest<G>(head: Point, s: seq<GeoPoint<G>>)
    requires s != []
    ensures var c := s[FirstClosest(head, PointsOf(s))];
      c in s && forall g :: g in s ==> DistanceSquared(head, c.point) <= DistanceSquared(head, g.point)
  {
    var ps := PointsOf(s);
    var c := s[FirstClosest(head, ps)];
    forall g | g in s
      ensures DistanceSquared(head, c.point) <= DistanceSquared(head, g.point)
    {
      var j :| 0 <= j < |s| && s[j] == g;
      assert ps[j] == g.point;
    }
  }

  /** The GeoPoints of a list of points, with no geometry attached. */
  function Untagged(ps: seq<Point>): (s: seq<GeoPoint<()>>)
    ensures |s| == |ps|
    ensures forall i :: 0 <= i < |ps| ==> s[i] == GeoPoint((), ps[i])
  {
    if ps == [] then [] else [GeoPoint((), ps[0])] + Untagged(ps[1..])
  }

  /** Ray.findClosestPoint: findClosestGeoPoint on the points with no geometry attached. */
  method FindClosestPoint(sqrt: real -> real, ray: Ray, list: Option<seq<Point>>)
      returns (r: Result<Option<Point>>)
    requires IsSqrt(sqrt)
    ensures list.None? ==> r == Ok(None)
    ensures list.Some? && list.value == [] ==> r == Err(NoSuchElement)
    ensures list.Some? && list.value != [] ==>
      r == Ok(Some(list.value[FirstClosest(ray.head, list.value)]))
  {
    if list.None? {
      return Ok(None);
    }
    var gs := Untagged(list.value);
    assert PointsOf(gs) == list.value;
    var g := FindClosestGeoPoint(sqrt, ray, Some(gs));
    if g.Err? {
      return Err(g.error);
    }
    r := Ok(Some(g.value.value.point));
  }

  /** Where the parameter t leads: distance |t| from the head, signed projection t on the direction. */
  lemma GetPointDistance(r: Ray, t: real)
    ensures GetPoint(r, 0.0) == r.head
    ensures DistanceSquared(r.head, GetPoint(r, t)) == Mul(t, t)
    ensures Dot(Minus(GetPoint(r, t), r.head), r.direction) == t
  {
    ScaledLengthSquared(r.direction, t);
    ScaledDot(r.direction, r.direction, t);
  }

  /** The offset head lies Delta times the normal's length away, on the side the direction points to. */
  lemma OffsetSide(sqrt: real -> real, head: Point, direction: Vector, normal: Vector)
    requires IsSqrt(sqrt)
    ensures var r := NewOffsetRay(sqrt, head, direction, normal);
      var nv := Dot(direction, normal);
      var side := Dot(Minus(r.head, head), normal);
      (nv > 0.0 ==> side > 0.0) && (nv < 0.0 ==> side < 0.0) && (nv == 0.0 ==> side == 0.0)
  {
    var nv := Dot(direction, normal);
    var r := NewOffsetRay(sqrt, head, direction, normal);
    LengthSquaredPositive(normal);
    if nv > 0.0 {
      assert Minus(r.head, head) == Times(normal, Delta);
      ScaledDot(normal, normal, Delta);
    } else if nv < 0.0 {
      assert Minus(r.head, head) == Times(normal, -Delta);
      ScaledDot(normal, normal, -Delta);
    } else {
      assert Minus(r.head, head) == Origin;
    }
  }

  /** Three points at squared distances 6, 1 and 48 from the head, in each order of the unit test. */
  lemma ClosestOfThree(h: Point, near: Point, mid: Point, far: Point)
    requires DistanceSquared(h, near) == 1.0
    requires DistanceSquared(h, mid) == 6.0
    requires DistanceSquared(h, far) == 48.0
    ensures FirstClosest(h, [mid, near, far]) == 1
    ensures FirstClosest(h, [near, mid, far]) == 0
    ensures FirstClosest(h, [mid, far, near]) == 2
  {
    FirstClosestUnique(h, [mid, near, far], 1);
    FirstClosestUnique(h, [near, mid, far], 0);
    FirstClosestUnique(h, [mid, far, near], 2);
  }

  lemma DistanceNear()
    ensures DistanceSquared(Point(1.0, 1.0, 1.0), Point(1.0, 0.0, 1.0)) == 1.0
  {
  }

  lemma DistanceMid()
    ensures DistanceSquared(Point(1.0, 1.0, 1.0), Point(2.0, 0.0, 3.0)) == 6.0
  {
  }

  lemma DistanceFar()
    ensures DistanceSquared(Point(1.0, 1.0, 1.0), Point(5.0, 5.0, 5.0)) == 48.0
  {
  }

  /** The unit test of findClosestPoint: (1, 0, 1) is closest to (1, 1, 1) in every order. */
  lemma ClosestPointExamples()
    ensures FirstClosest(Point(1.0, 1.0, 1.0), [Point(2.0, 0.0, 3.0), Point(1.0, 0.0, 1.0), Point(5.0, 5.0, 5.0)]) == 1
    ensures FirstClosest(Point(1.0, 1.0, 1.0), [Point(1.0, 0.0, 1.0), Point(2.0, 0.0, 3.0), Point(5.0, 5.0, 5.0)]) == 0
    ensures FirstClosest(Point(1.0, 1.0, 1.0), [Point(2.0, 0.0, 3.0), Point(5.0, 5.0, 5.0), Point(1.0, 0.0, 1.0)]) == 2
  {
    DistanceNear();
    DistanceMid();
    DistanceFar();
    ClosestOfThree(Point(1.0, 1.0, 1.0), Point(1.0, 0.0, 1.0), Point(2.0, 0.0, 3.0), Point(5.0, 5.0, 5.0));
  }
}
