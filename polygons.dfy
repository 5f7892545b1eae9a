/**
 * geometries.Polygon: a convex planar polygon, given by its vertices in edge
 * order, together with the plane of its first three vertices. The constructor
 * validates the vertices; its checks are stated here twice, once as the
 * recursion the constructor's loop follows and once as a condition on the
 * vertices alone (ValidPolygon), and the two are proved to agree.
 */
module Polygons {
  import opened Reals
  import opened Wrappers
  import opened Vectors
  import opened Rays
  import opened Planes

  datatype PolygonValue = Polygon(vertices: seq<Point>, plane: Plane)

  /**
   * What every constructed polygon satisfies: at least three vertices, the
   * first three not collinear, the plane through the first vertex and every
   * vertex on the plane.
   */
  predicate PolygonShaped(p: PolygonValue) {
    |p.vertices| >= 3 &&
    !Parallel(Minus(p.vertices[1], p.vertices[0]), Minus(p.vertices[2], p.vertices[0])) &&
    p.plane.point == p.vertices[0] &&
    forall j :: 0 <= j < |p.vertices| ==> OnPlane(p.plane, p.vertices[j])
  }

  type Polygon = p: PolygonValue | PolygonShaped(p)
    witness Polygon([Origin, Point(1.0, 0.0, 0.0), Point(0.0, 1.0, 0.0)], Plane(Origin, Point(0.0, 0.0, 1.0)))

  const FewVerticesError: Error := IllegalArgument("A polygon can't have less than 3 vertices")
  const NotPlanarError: Error := IllegalArgument("All vertices of a polygon must lay in the same plane")
  const NotConvexError: Error := IllegalArgument("All vertices must be ordered, and the polygon must be convex")

  // The vertices alone: edges, turns and the condition they must meet.

  /** Edge j ends at vertex j; edge 0 closes the polygon from the last vertex. */
  function Edge(vs: seq<Point>, j: nat): Point
    requires j < |vs|
  {
    if j == 0 then Minus(vs[0], vs[|vs| - 1]) else Minus(vs[j], vs[j - 1])
  }

  /** The turn at the start of edge j: the cross product of the edge before it and edge j. */
  function Turn(vs: seq<Point>, j: nat): Point
    requires j < |vs|
  {
    CrossOf(Edge(vs, if j == 0 then |vs| - 1 else j - 1), Edge(vs, j))
  }

  /** The normal of the first three vertices, before normalisation. */
  function RawNormal(vs: seq<Point>): Point
    requires |vs| >= 3
  {
    CrossOf(Minus(vs[1], vs[0]), Minus(vs[2], vs[0]))
  }

  /** The orientation every turn must share: that of the turn at vertex 0. */
  predicate Positive(vs: seq<Point>)
    requires |vs| >= 3
  {
    Dot(Turn(vs, 0), RawNormal(vs)) > 0.0
  }

  /**
   * Vertex j (j >= 1) passes the constructor's checks: it differs from vertex 0
   * and lies in the plane of the first three, the edge ending at it is not zero,
   * and the turn before it is not straight and has the common orientation.
   */
  predicate VertexOk(vs: seq<Point>, j: nat)
    requires 1 <= j < |vs| && |vs| >= 3
  {
    vs[j] != vs[0] &&
    Dot(Minus(vs[j], vs[0]), RawNormal(vs)) == 0.0 &&
    Edge(vs, j) != Origin &&
    !Parallel(Edge(vs, j - 1), Edge(vs, j)) &&
    (Dot(Turn(vs, j), RawNormal(vs)) > 0.0) == Positive(vs)
  }

  /** The vertices the Polygon constructor accepts. */
  predicate ValidPolygon(vs: seq<Point>) {
    |vs| >= 3 &&
    vs[1] != vs[0] && vs[2] != vs[0] && !Parallel(Minus(vs[1], vs[0]), Minus(vs[2], vs[0])) &&
    (|vs| > 3 ==>
      Edge(vs, |vs| - 1) != Origin && Edge(vs, 0) != Origin &&
      !Parallel(Edge(vs, |vs| - 1), Edge(vs, 0)) &&
      forall j :: 1 <= j < |vs| ==> VertexOk(vs, j))
  }

  // The constructor's checks in the order the source makes them.

  /** The checks of the constructor's loop from vertex i on, with e the edge ending at vertex i - 1. */
  function CheckFrom(vs: seq<Point>, n: Vector, positive: bool, e: Vector, i: nat): Result<()>
    requires 1 <= i <= |vs|
    decreases |vs| - i
  {
    if i == |vs| then Ok(())
    else
      var d := Subtract(vs[i], vs[0]);
      if d.Err? then Err(d.error)
      else if Dot(d.value, n) != 0.0 then Err(NotPlanarError)
      else
        var e2 := Subtract(vs[i], vs[i - 1]);
        if e2.Err? then Err(e2.error)
        else
          var c := Cross(e, e2.value);
          if c.Err? then Err(c.error)
          else if positive != (Dot(c.value, n) > 0.0) then Err(NotConvexError)
          else CheckFrom(vs, n, positive, e2.value, i + 1)
  }

  /** The Polygon constructor, as a function of the vertices. */
  function PolygonCheck(sqrt: real -> real, vs: seq<Point>): (r: Result<PolygonValue>)
    requires IsSqrt(sqrt)
  {
    if |vs| < 3 then Err(FewVerticesError)
    else
      var pl := PlaneThrough(sqrt, vs[0], vs[1], vs[2]);
      if pl.Err? then Err(pl.error)
      else if |vs| == 3 then Ok(Polygon(vs, pl.value))
      else
        var n := pl.value.normal;
        var e1 := Subtract(vs[|vs| - 1], vs[|vs| - 2]);
        if e1.Err? then Err(e1.error)
        else
          var e2 := Subtract(vs[0], vs[|vs| - 1]);
          if e2.Err? then Err(e2.error)
          else
            var c := Cross(e1.value, e2.value);
            if c.Err? then Err(c.error)
            else
              var check := CheckFrom(vs, n, Dot(c.value, n) > 0.0, e2.value, 1);
              if check.Err? then Err(check.error) else Ok(Polygon(vs, pl.value))
  }

  /**
   * Polygon(vertices...): validates the vertices and builds the polygon. It
   * succeeds exactly for valid vertices, fails first for fewer than three, and
   * every vertex of the result lies on its plane.
   */
  method NewPolygon(sqrt: real -> real, vs: seq<Point>) returns (r: Result<Polygon>)
    requires IsSqrt(sqrt)
    ensures r == PolygonCheck(sqrt, vs)
    ensures r.Ok? <==> ValidPolygon(vs)
    ensures |vs| < 3 ==> r == Err(FewVerticesError)
    ensures r.Ok? ==> r.value.vertices == vs && r.value.plane == PlaneThrough(sqrt, vs[0], vs[1], vs[2]).value
  {
    PolygonCheckIff(sqrt, vs);
    if |vs| < 3 {
      return Err(FewVerticesError);
    }
    var plane := PlaneThrough(sqrt, vs[0], vs[1], vs[2]);
    if plane.Err? {
      return Err(plane.error);
    }
    if |vs| == 3 {
      PolygonCoplanar(sqrt, vs);
      return Ok(Polygon(vs, plane.value));
    }
    var n := plane.value.normal;
    var edge1 := Subtract(vs[|vs| - 1], vs[|vs| - 2]);
    if edge1.Err? {
      return Err(edge1.error);
    }
    var edge2 := Subtract(vs[0], vs[|vs| - 1]);
    if edge2.Err? {
      return Err(edge2.error);
    }
    var c := Cross(edge1.value, edge2.value);
    if c.Err? {
      return Err(c.error);
    }
    var positive := Dot(c.value, n) > 0.0;
    ghost var first := edge2.value;
    var e2 := edge2.value;
    for i := 1 to |vs|
      invariant CheckFrom(vs, n, positive, first, 1) == CheckFrom(vs, n, positive, e2, i)
    {
      var d := Subtract(vs[i], vs[0]);
      if d.Err? {
        return Err(d.error);
      }
      if Dot(d.value, n) != 0.0 {
        return Err(NotPlanarError);
      }
      var e1 := e2;
      var next := Subtract(vs[i], vs[i - 1]);
      if next.Err? {
        return Err(next.error);
      }
      e2 := next.value;
      var turn := Cross(e1, e2);
      if turn.Err? {
        return Err(turn.error);
      }
      if positive != (Dot(turn.value, n) > 0.0) {
        return Err(NotConvexError);
      }
    }
    PolygonCoplanar(sqrt, vs);
    r := Ok(Polygon(vs, plane.value));
  }

  /** Every vertex of an accepted polygon lies on its plane. */
  lemma PolygonCoplanar(sqrt: real -> real, vs: seq<Point>)
    requires IsSqrt(sqrt)
    requires PolygonCheck(sqrt, vs).Ok?
    ensures PolygonShaped(PolygonCheck(sqrt, vs).value)
  {
    PolygonCheckIff(sqrt, vs);
    var p := PolygonCheck(sqrt, vs).value;
    var raw := RawNormal(vs);
    assert p.plane == PlaneThrough(sqrt, vs[0], vs[1], vs[2]).value;
    forall j | 0 <= j < |vs|
      ensures OnPlane(p.plane, vs[j])
    {
      if 3 <= j {
        assert VertexOk(vs, j);
        NormalizeKeepsDotSign(sqrt, raw, Minus(vs[j], vs[0]));
        DotSymmetric(p.plane.normal, Minus(vs[j], vs[0]));
      }
    }
  }

  /** The constructor accepts exactly the valid vertices. */
  lemma PolygonCheckIff(sqrt: real -> real, vs: seq<Point>)
    requires IsSqrt(sqrt)
    ensures PolygonCheck(sqrt, vs).Ok? <==> ValidPolygon(vs)
    ensures PolygonCheck(sqrt, vs).Ok? ==>
      PolygonCheck(sqrt, vs).value.vertices == vs &&
      PolygonCheck(sqrt, vs).value.plane == PlaneThrough(sqrt, vs[0], vs[1], vs[2]).value
  {
    if |vs| > 3 {
      var pl := PlaneThrough(sqrt, vs[0], vs[1], vs[2]);
      if pl.Ok? && Edge(vs, |vs| - 1) != Origin && Edge(vs, 0) != Origin &&
         !Parallel(Edge(vs, |vs| - 1), Edge(vs, 0)) {
        var n := pl.value.normal;
        var raw := RawNormal(vs);
        var e1 := Subtract(vs[|vs| - 1], vs[|vs| - 2]).value;
        var e2 := Subtract(vs[0], vs[|vs| - 1]).value;
        assert e1 == Edge(vs, |vs| - 1);
        assert e2 == Edge(vs, 0);
        var c := Cross(e1, e2).value;
        assert c == Turn(vs, 0);
        NormalizeKeepsDotSign(sqrt, raw, c);
        assert (Dot(c, n) > 0.0) == Positive(vs);
        CheckFromIff(sqrt, vs, n, Positive(vs), e2, 1);
      }
    }
  }

  /** The loop's checks from vertex i on pass exactly when every vertex from i on is OK. */
  lemma {:induction false} CheckFromIff(sqrt: real -> real, vs: seq<Point>, n: Vector, positive: bool, e: Vector, i: nat)
    requires IsSqrt(sqrt)
    requires 3 < |vs| && 1 <= i <= |vs|
    requires RawNormal(vs) != Origin && n == Normalize(sqrt, RawNormal(vs))
    requires positive == Positive(vs)
    requires e == Edge(vs, i - 1)
    ensures CheckFrom(vs, n, positive, e, i).Ok? <==> forall j :: i <= j < |vs| ==> VertexOk(vs, j)
    decreases |vs| - i
  {
    if i < |vs| {
      CheckStep(sqrt, vs, n, positive, e, i);
      if VertexOk(vs, i) {
        CheckFromIff(sqrt, vs, n, positive, Subtract(vs[i], vs[i - 1]).value, i + 1);
      }
    }
  }

  /** One iteration of the constructor's loop passes exactly when vertex i is OK. */
  lemma CheckStep(sqrt: real -> real, vs: seq<Point>, n: Vector, positive: bool, e: Vector, i: nat)
    requires IsSqrt(sqrt)
    requires 3 < |vs| && 1 <= i < |vs|
    requires RawNormal(vs) != Origin && n == Normalize(sqrt, RawNormal(vs))
    requires positive == Positive(vs)
    requires e == Edge(vs, i - 1)
    ensures CheckFrom(vs, n, positive, e, i).Ok? <==>
      VertexOk(vs, i) && CheckFrom(vs, n, positive, Subtract(vs[i], vs[i - 1]).value, i + 1).Ok?
  {
    var raw := RawNormal(vs);
    NormalizeKeepsDotSign(sqrt, raw, Minus(vs[i], vs[0]));
    if vs[i] != vs[i - 1] {
      var e2 := Subtract(vs[i], vs[i - 1]).value;
      assert e2 == Edge(vs, i);
      NormalizeKeepsDotSign(sqrt, raw, CrossOf(e, e2));
    }
  }

  /** Polygon.getNormal: the unit normal of the polygon's plane, for any point. */
  function GetNormal(p: Polygon, point: Point): (r: Vector)
    ensures r == p.plane.normal && LengthSquared(r) == 1.0
    ensures forall j :: 0 <= j < |p.vertices| ==> Dot(r, Minus(p.vertices[j], p.vertices[0])) == 0.0
  {
    Planes.GetNormal(p.plane, point)
  }

  /** Polygon.findGeoIntersectionsHelper: a stub that never reports a hit. */
  function Intersections(p: Polygon, ray: Ray, maxDistance: ExtReal): (r: Option<seq<Point>>)
    ensures r.None?
  {
    None
  }

  // The cases of the Polygon constructor's unit test, stated on ValidPolygon,
  // which PolygonCheckIff ties to the constructor.

  /** A vertex on the side through the first and third vertex is refused. */
  lemma VertexOnSideRefused()
    ensures !ValidPolygon([Point(0.0, 0.0, 1.0), Point(1.0, 0.0, 0.0), Point(0.0, 1.0, 0.0), Point(0.0, 0.5, 0.5)])
  {
    var vs := [Point(0.0, 0.0, 1.0), Point(1.0, 0.0, 0.0), Point(0.0, 1.0, 0.0), Point(0.0, 0.5, 0.5)];
    assert Parallel(Edge(vs, 3), Edge(vs, 0));
  }

  /** A last vertex equal to the first, or two co-located vertices, are refused. */
  lemma RepeatedVertexRefused()
    ensures !ValidPolygon([Point(0.0, 0.0, 1.0), Point(1.0, 0.0, 0.0), Point(0.0, 1.0, 0.0), Point(0.0, 0.0, 1.0)])
    ensures !ValidPolygon([Point(0.0, 0.0, 1.0), Point(1.0, 0.0, 0.0), Point(0.0, 1.0, 0.0), Point(0.0, 1.0, 0.0)])
  {
    var vs := [Point(0.0, 0.0, 1.0), Point(1.0, 0.0, 0.0), Point(0.0, 1.0, 0.0), Point(0.0, 0.0, 1.0)];
    assert Edge(vs, 0) == Origin;
    var ws := [Point(0.0, 0.0, 1.0), Point(1.0, 0.0, 0.0), Point(0.0, 1.0, 0.0), Point(0.0, 1.0, 0.0)];
    assert Edge(ws, 3) == Origin;
  }
}
