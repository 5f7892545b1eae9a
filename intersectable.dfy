/**
 * geometries.Geometry and geometries.Intersectable: a geometry is a shape
 * with an emission colour and a material; its intersection routine tags the
 * shape's hit points with the geometry, and findIntersections projects them
 * back to points. The Java class hierarchy becomes one tagged union of shapes.
 */
module Intersectable {
  import opened Reals
  import opened Wrappers
  import opened Triples
  import opened Vectors
  import opened Rays
  import Planes
  import Polygons
  import Triangles
  import Spheres
  import Tubes

  /**
   * primitives.Material with the transparency (kT) and reflection (kR)
   * coefficients that the ray tracer reads; all four coefficients default to
   * zero and the shininess to 0.
   */
  datatype Material = Material(kD: Double3, kS: Double3, kT: Double3, kR: Double3, shininess: int)

  const DefaultMaterial: Material := Material(Zero3, Zero3, Zero3, Zero3, 0)

  datatype Shape =
    | PlaneShape(plane: Planes.Plane)
    | SphereShape(sphere: Spheres.Sphere)
    | TriangleShape(triangle: Triangles.Triangle)
    | PolygonShape(polygon: Polygons.Polygon)
    | TubeShape(tube: Tubes.Tube)

  datatype Geometry = Geometry(shape: Shape, emission: Color, material: Material)

  /** A freshly constructed geometry: black emission and the default material. */
  function NewGeometry(shape: Shape): (g: Geometry)
    ensures g.shape == shape && g.emission == Black && g.material == DefaultMaterial
  {
    Geometry(shape, Black, DefaultMaterial)
  }

  /** Geometry.setEmission: only the emission changes. */
  function SetEmission(g: Geometry, emission: Color): (r: Geometry)
    ensures r.emission == emission && r.shape == g.shape && r.material == g.material
  {
    g.(emission := emission)
  }

  /** Geometry.setMaterial: only the material changes. */
  function SetMaterial(g: Geometry, material: Material): (r: Geometry)
    ensures r.material == material && r.shape == g.shape && r.emission == g.emission
  {
    g.(material := material)
  }

  /**
   * The shapes' findGeoIntersectionsHelper overrides, on points. Only a tube
   * can fail, and a list that is present has one or two points. The model's
   * rays are values without identity, so the dispatch always queries a tube
   * as though the ray were not its axis object; the identity case is stated
   * by Tubes.Intersections alone.
   */
  function ShapeIntersections(sqrt: real -> real, shape: Shape, ray: Ray, maxDistance: ExtReal): (r: Result<Option<seq<Point>>>)
    requires IsSqrt(sqrt)
    ensures r.Err? ==> shape.TubeShape? && r.error == ZeroVectorError
    ensures r.Ok? && r.value.Some? ==> 1 <= |r.value.value| <= 2
    ensures shape.PolygonShape? ==> r == Ok(None)
  {
    match shape
    case PlaneShape(pl) => Ok(Planes.Intersections(pl, ray, maxDistance))
    case SphereShape(s) =>
      Spheres.IntersectionsSound(sqrt, s, ray, maxDistance);
      Ok(Spheres.Intersections(sqrt, s, ray, maxDistance))
    case TriangleShape(t) => Triangles.Intersections(sqrt, t, ray, maxDistance)
    case PolygonShape(p) => Ok(Polygons.Intersections(p, ray, maxDistance))
    case TubeShape(tb) =>
      Tubes.IntersectionsOnAxisSphere(sqrt, tb, ray, maxDistance);
      Tubes.Intersections(sqrt, tb, ray, false, maxDistance)
  }

  /** The points tagged with the geometry they were found on. */
  function Tagged(g: Geometry, pts: Option<seq<Point>>): (r: Option<seq<GeoPoint<Geometry>>>)
    ensures r.None? <==> pts.None?
    ensures r.Some? ==> |r.value| == |pts.value| && forall i :: 0 <= i < |r.value| ==> r.value[i] == GeoPoint(g, pts.value[i])
  {
    if pts.None? then None
    else Some(seq(|pts.value|, i requires 0 <= i < |pts.value| => GeoPoint(g, pts.value[i])))
  }

  /**
   * Intersectable.findGeoIntersections(ray, maxDistance): exactly the shape's
   * result, every point tagged with this geometry.
   */
  function FindGeoIntersections(sqrt: real -> real, g: Geometry, ray: Ray, maxDistance: ExtReal): (r: Result<Option<seq<GeoPoint<Geometry>>>>)
    requires IsSqrt(sqrt)
    ensures var s := ShapeIntersections(sqrt, g.shape, ray, maxDistance);
      (r.Err? <==> s.Err?) && (r.Err? ==> r.error == s.error) &&
      (r.Ok? ==> r.value == Tagged(g, s.value))
    ensures r.Ok? && r.value.Some? ==> 1 <= |r.value.value| <= 2
    ensures r.Ok? && r.value.Some? ==> forall i :: 0 <= i < |r.value.value| ==> r.value.value[i].geometry == g
  {
    var s := ShapeIntersections(sqrt, g.shape, ray, maxDistance);
    if s.Err? then Err(s.error) else Ok(Tagged(g, s.value))
  }

  /** Intersectable.findGeoIntersections(ray): the bounded search with an infinite maximum distance. */
  function FindGeoIntersectionsUnbounded(sqrt: real -> real, g: Geometry, ray: Ray): (r: Result<Option<seq<GeoPoint<Geometry>>>>)
    requires IsSqrt(sqrt)
    ensures r == FindGeoIntersections(sqrt, g, ray, PositiveInfinity)
  {
    FindGeoIntersections(sqrt, g, ray, PositiveInfinity)
  }

  /**
   * Intersectable.findIntersections: null when the GeoPoint list is null,
   * otherwise that list's points in the same order.
   */
  function FindIntersections(sqrt: real -> real, g: Geometry, ray: Ray): (r: Result<Option<seq<Point>>>)
    requires IsSqrt(sqrt)
    ensures var geo := FindGeoIntersectionsUnbounded(sqrt, g, ray);
      (r.Err? <==> geo.Err?) &&
      (r.Ok? ==> (r.value.None? <==> geo.value.None?)) &&
      (r.Ok? && r.value.Some? ==> r.value.value == PointsOf(geo.value.value))
  {
    var geoList := FindGeoIntersectionsUnbounded(sqrt, g, ray);
    if geoList.Err? then Err(geoList.error)
    else if geoList.value.None? then Ok(None)
    else Ok(Some(PointsOf(geoList.value.value)))
  }

  /** Tagging and projecting back gives the shape's own points. */
  lemma FindIntersectionsIsShapeResult(sqrt: real -> real, g: Geometry, ray: Ray)
    requires IsSqrt(sqrt)
    ensures FindIntersections(sqrt, g, ray) == ShapeIntersections(sqrt, g.shape, ray, PositiveInfinity)
  {
    var s := ShapeIntersections(sqrt, g.shape, ray, PositiveInfinity);
    if s.Ok? && s.value.Some? {
      var geo := FindGeoIntersectionsUnbounded(sqrt, g, ray).value.value;
      assert PointsOf(geo) == s.value.value;
    }
  }

  /**
   * Geometry.getNormal, by shape. Flat shapes return their stored unit normal;
   * a sphere fails at its centre and a tube on its axis. Every normal except
   * the tube's border case has unit length.
   */
  function GetNormal(sqrt: real -> real, g: Geometry, p: Point): (r: Result<Vector>)
    requires IsSqrt(sqrt)
    ensures r.Err? ==> (g.shape.SphereShape? || g.shape.TubeShape?) && r.error == ZeroVectorError
    ensures r.Ok? && !g.shape.TubeShape? ==> LengthSquared(r.value) == 1.0
    ensures g.shape.PlaneShape? ==> r == Ok(g.shape.plane.normal)
    ensures g.shape.PolygonShape? ==> r == Ok(g.shape.polygon.plane.normal)
    ensures g.shape.TriangleShape? ==> r == Ok(g.shape.triangle.plane.normal)
    ensures g.shape.SphereShape? ==> (r.Ok? <==> p != g.shape.sphere.center)
  {
    match g.shape
    case PlaneShape(pl) => Ok(Planes.GetNormal(pl, p))
    case SphereShape(s) => Spheres.GetNormal(sqrt, s, p)
    case TriangleShape(t) => Ok(Triangles.GetNormal(t, p))
    case PolygonShape(pg) => Ok(Polygons.GetNormal(pg, p))
    case TubeShape(tb) => Tubes.GetNormal(sqrt, tb, p)
  }
}
