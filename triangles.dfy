/**
 * geometries.Triangle: a three-vertex polygon whose intersection is the
 * plane's hit, kept when the ray passes strictly inside the three edges.
 */
module Triangles {
  import opened Reals
  import opened Wrappers
  import opened Vectors
  import opened Rays
  import opened Planes
  import opened Polygons

  type Triangle = p: Polygon | |p.vertices| == 3
    witness Polygon([Origin, Point(1.0, 0.0, 0.0), Point(0.0, 1.0, 0.0)], Plane(Origin, Point(0.0, 0.0, 1.0)))

  /** Triangle(p1, p2, p3): the polygon constructor on three vertices, which only builds the plane. */
  function NewTriangle(sqrt: real -> real, p1: Point, p2: Point, p3: Point): (r: Result<Triangle>)
    requires IsSqrt(sqrt)
    ensures r.Ok? <==> p2 != p1 && p3 != p1 && !Parallel(Minus(p2, p1), Minus(p3, p1))
    ensures r.Err? ==> r.error == ZeroVectorError
    ensures r.Ok? ==> r.value.vertices == [p1, p2, p3] && r.value.plane == PlaneThrough(sqrt, p1, p2, p3).value
  {
    var vs := [p1, p2, p3];
    var c := PolygonCheck(sqrt, vs);
    if c.Err? then Err(c.error)
    else
      PolygonCoplanar(sqrt, vs);
      Ok(c.value)
  }

  /** Triangle.getNormal: the polygon's unit normal, orthogonal to the triangle's sides. */
  function GetNormal(t: Triangle, point: Point): (r: Vector)
    ensures r == t.plane.normal && LengthSquared(r) == 1.0
    ensures Dot(r, Minus(t.vertices[1], t.vertices[0])) == 0.0
    ensures Dot(r, Minus(t.vertices[2], t.vertices[0])) == 0.0
  {
    Polygons.GetNormal(t, point)
  }

  /** All three strictly negative or all three strictly positive. */
  predicate SameStrictSign(a: real, b: real, c: real) {
    (a < 0.0 && b < 0.0 && c < 0.0) || (a > 0.0 && b > 0.0 && c > 0.0)
  }

  /**
   * The ray passes strictly inside the triangle's three edges: its direction
   * has a dot product of one strict sign with the three side normals
   * (vi - head) x (vi+1 - head).
   */
  predicate Inside(t: Triangle, ray: Ray) {
    var h, vs, d := ray.head, t.vertices, ray.direction;
    SameStrictSign(
      Dot(d, CrossOf(Minus(vs[0], h), Minus(vs[1], h))),
      Dot(d, CrossOf(Minus(vs[1], h), Minus(vs[2], h))),
      Dot(d, CrossOf(Minus(vs[2], h), Minus(vs[0], h))))
  }

  /**
   * Triangle.findGeoIntersectionsHelper: the plane's hit, kept exactly when
   * the ray passes strictly inside the three edges. It never fails: once the
   * plane is hit, the head is off the plane, so no side vector is zero and no
   * two of them are parallel.
   */
  function Intersections(sqrt: real -> real, t: Triangle, ray: Ray, maxDistance: ExtReal): (r: Result<Option<seq<Point>>>)
    requires IsSqrt(sqrt)
    ensures r.Ok?
    ensures r.value.Some? <==> Planes.Intersections(t.plane, ray, maxDistance).Some? && Inside(t, ray)
    ensures r.value.Some? ==> r.value.value == Planes.Intersections(t.plane, ray, maxDistance).value
  {
    var pts := Planes.Intersections(t.plane, ray, maxDistance);
    if pts.None? then Ok(None)
    else
      var geoPoints := [pts.value[0]];
      var h := ray.head;
      SidesNeverFail(t, ray, maxDistance);
      var v1 := Subtract(t.vertices[0], h);
      var v2 := Subtract(t.vertices[1], h);
      var v3 := Subtract(t.vertices[2], h);
      if v1.Err? then Err(ZeroVectorError)
      else if v2.Err? then Err(ZeroVectorError)
      else if v3.Err? then Err(ZeroVectorError)
      else
        var c1 := Cross(v1.value, v2.value);
        var c2 := Cross(v2.value, v3.value);
        var c3 := Cross(v3.value, v1.value);
        if c1.Err? then Err(ZeroVectorError)
        else if c2.Err? then Err(ZeroVectorError)
        else if c3.Err? then Err(ZeroVectorError)
        else
          var n1 := Normalize(sqrt, c1.value);
          var n2 := Normalize(sqrt, c2.value);
          var n3 := Normalize(sqrt, c3.value);
          var proDot1 := Dot(ray.direction, n1);
          var proDot2 := Dot(ray.direction, n2);
          var proDot3 := Dot(ray.direction, n3);
          NormalizeKeepsDotSign(sqrt, c1.value, ray.direction);
          NormalizeKeepsDotSign(sqrt, c2.value, ray.direction);
          NormalizeKeepsDotSign(sqrt, c3.value, ray.direction);
          if proDot3 < 0.0 && proDot1 < 0.0 && proDot2 < 0.0 then Ok(Some(geoPoints))
          else if proDot3 > 0.0 && proDot1 > 0.0 && proDot2 > 0.0 then Ok(Some(geoPoints))
          else Ok(None)
  }

  /** After a plane hit, the vectors from the head to the vertices are non-zero and pairwise non-parallel. */
  lemma SidesNeverFail(t: Triangle, ray: Ray, maxDistance: ExtReal)
    requires Planes.Intersections(t.plane, ray, maxDistance).Some?
    ensures forall i :: 0 <= i < 3 ==> t.vertices[i] != ray.head
    ensures !Parallel(Minus(t.vertices[0], ray.head), Minus(t.vertices[1], ray.head))
    ensures !Parallel(Minus(t.vertices[1], ray.head), Minus(t.vertices[2], ray.head))
    ensures !Parallel(Minus(t.vertices[2], ray.head), Minus(t.vertices[0], ray.head))
  {
    var vs, h := t.vertices, ray.head;
    assert !OnPlane(t.plane, h);
    assert OnPlane(t.plane, vs[0]) && OnPlane(t.plane, vs[1]) && OnPlane(t.plane, vs[2]);
    DistinctVertices(vs[0], vs[1], vs[2]);
    SideNotParallel(t.plane, vs[0], vs[1], h);
    SideNotParallel(t.plane, vs[1], vs[2], h);
    SideNotParallel(t.plane, vs[2], vs[0], h);
  }

  /** Three non-collinear points are pairwise distinct. */
  lemma DistinctVertices(p0: Point, p1: Point, p2: Point)
    requires !Parallel(Minus(p1, p0), Minus(p2, p0))
    ensures p0 != p1 && p1 != p2 && p2 != p0
  {
    if p1 == p2 {
      CrossSelf(Minus(p1, p0));
    }
  }

  lemma CrossSelf(u: Point)
    ensures CrossOf(u, u) == Origin
  {
  }

  /**
   * For two distinct points p and q of a plane and a head h off it, the vectors
   * p - h and q - h are not parallel.
   */
  lemma SideNotParallel(pl: Plane, p: Point, q: Point, h: Point)
    requires OnPlane(pl, p) && OnPlane(pl, q) && !OnPlane(pl, h)
    requires p != q
    ensures p != h && q != h
    ensures !Parallel(Minus(p, h), Minus(q, h))
  {
    var n := pl.normal;
    var a, c := Minus(p, h), Minus(q, p);
    assert Minus(q, h) == Plus(a, c);
    CrossAddSelf(a, c);
    var dh := Dot(n, Minus(h, pl.point));
    assert Dot(a, n) == -dh by {
      DotOfDifference(n, p, h, pl.point);
    }
    assert Dot(c, n) == 0.0 by {
      DotOfDifference(n, q, p, pl.point);
    }
    assert c != Origin;
    CrossOffPlane(a, c, n);
  }

  /** A vector a off the plane orthogonal to n is not parallel to a non-zero c in that plane. */
  lemma CrossOffPlane(a: Point, c: Point, n: Point)
    requires c != Origin && Dot(c, n) == 0.0 && Dot(a, n) != 0.0
    ensures CrossOf(a, c) != Origin
  {
    BinetCauchy(a, c, n, c);
    LengthSquaredPositive(c);
    assert Dot(c, c) == LengthSquared(c);
    NonZeroBinet(Dot(CrossOf(a, c), CrossOf(n, c)), Dot(a, n), Dot(c, c), Dot(a, c), Dot(c, n));
  }

  /** The sign argument of SideNotParallel on plain numbers: (a.n)(c.c) - (a.c)(c.n) with c.n == 0 and a.n != 0 is not 0. */
  lemma NonZeroBinet(bc: real, an: real, cc: real, ac: real, cn: real)
    requires bc == Mul(an, cc) - Mul(ac, cn) && an != 0.0 && cn == 0.0 && 0.0 < cc
    ensures bc != 0.0
  {
    if an > 0.0 {
      MulPositive(an, cc);
    } else {
      MulPositive(-an, cc);
      assert Mul(an, cc) == -Mul(-an, cc);
    }
  }

  /** n . (p - r) - n . (q - r) = n . (p - q), written with the dot on the right. */
  lemma DotOfDifference(n: Point, p: Point, q: Point, r: Point)
    ensures Dot(Minus(p, q), n) == Dot(n, Minus(p, r)) - Dot(n, Minus(q, r))
  {
  }

  /** a x (a + c) = a x c. */
  lemma CrossAddSelf(a: Point, c: Point)
    ensures CrossOf(a, Plus(a, c)) == CrossOf(a, c)
  {
  }

  /** The Binet-Cauchy identity (a x b) . (c x d) = (a . c)(b . d) - (a . d)(b . c). */
  lemma BinetCauchy(a: Point, b: Point, c: Point, d: Point)
    ensures Dot(CrossOf(a, b), CrossOf(c, d)) == Mul(Dot(a, c), Dot(b, d)) - Mul(Dot(a, d), Dot(b, c))
  {
  }
}
