/**
 * renderer.SimpleRayTracer and scene.Scene: the colour seen along a ray is
 * the closest hit's local lighting (emission plus, per light, diffuse and
 * specular terms weighted by how much of the light reaches the point), plus
 * reflected and refracted light found by recursion of bounded depth; the
 * top level adds the ambient light. The shadow factor of a point or spot
 * light, with soft shadows on, averages the transparency towards the
 * samples of the light's blackboard, whose grid the first such query builds.
 * The lights are therefore state: every colour comes with the lights after it.
 */
module Tracer {
  import opened Reals
  import opened Wrappers
  import opened Triples
  import opened Vectors
  import opened Rays
  import opened Intersectable
  import opened Composite
  import opened Lights
  import opened Boards

  const MaxCalcColorLevel: nat := 10
  const MinCalcColorK: real := 0.001
  const InitialK: Double3 := One3

  // The scene

  /** scene.Scene: a name, a background colour, the ambient light, the geometries and the light sources. */
  datatype Scene = Scene(name: string, background: Color, ambientLight: AmbientLight,
                         geometries: seq<Geometry>, lights: seq<LightSource>)

  /** Scene(name): a black background, no ambient light, no geometries and no lights. */
  function NewScene(name: string): (s: Scene)
    ensures s.name == name && s.background == Black
    ensures s.ambientLight == NoAmbientLight
    ensures s.geometries == [] && s.lights == []
  {
    Scene(name, Black, NoAmbientLight, [], [])
  }

  /**
   * What stays fixed while the tracer works: the scene's geometries and
   * background, whether soft shadows are used, and the random jitter each
   * light's blackboard would draw, by the light's index.
   */
  datatype Setting = Setting(geometries: seq<Geometry>, background: Color, useSoftShadows: bool, jitter: nat -> Jitter)

  /** A colour together with the light sources as they are afterwards. */
  datatype Shade = Shade(color: Color, lights: seq<LightSource>)

  // How the lights may change: only an unbuilt blackboard gets its grid

  /** b is a, or a with its blackboard's grid built for the first time. */
  predicate BoardStep(a: LightSource, b: LightSource) {
    a == b ||
    (BoardOf(a).Some? && BoardOf(b).Some? && BoardOf(a).value.grid.None? && BoardOf(b).value.grid.Some? &&
     BoardOf(b).value == BoardOf(a).value.(grid := BoardOf(b).value.grid) && b == WithBoard(a, BoardOf(b).value))
  }

  /** The same lights, each unchanged or with its grid built. */
  predicate Evolved(before: seq<LightSource>, after: seq<LightSource>) {
    |after| == |before| && forall j :: 0 <= j < |before| ==> BoardStep(before[j], after[j])
  }

  lemma EvolvedReflexive(lights: seq<LightSource>)
    ensures Evolved(lights, lights)
  {
  }

  /** A grid is built at most once, so two evolutions in a row are one. */
  lemma EvolvedTransitive(a: seq<LightSource>, b: seq<LightSource>, c: seq<LightSource>)
    requires Evolved(a, b) && Evolved(b, c)
    ensures Evolved(a, c)
  {
    forall j | 0 <= j < |a|
      ensures BoardStep(a[j], c[j])
    {
    }
  }

  /**
   * Tracing never changes what a light answers: the intensity, direction and
   * distance of every light at every point are those it had before, and a
   * light whose grid was built is exactly as it was.
   */
  lemma EvolvedKeepsLights(sqrt: real -> real, before: seq<LightSource>, after: seq<LightSource>, j: nat, p: Point)
    requires IsSqrt(sqrt)
    requires Evolved(before, after) && j < |before|
    ensures GetIntensity(sqrt, after[j], p) == GetIntensity(sqrt, before[j], p)
    ensures GetL(sqrt, after[j], p) == GetL(sqrt, before[j], p)
    ensures GetDistance(sqrt, after[j], p) == GetDistance(sqrt, before[j], p)
    ensures BoardOf(before[j]).Some? && BoardOf(before[j]).value.grid.Some? ==> after[j] == before[j]
  {
    if before[j] != after[j] {
      WithBoardKeepsLight(sqrt, before[j], BoardOf(after[j]).value, p);
    }
  }

  // Finding the closest hit

  /** The hits the scene's geometries report along a ray, up to a maximal distance. */
  function SceneHits(sqrt: real -> real, geometries: seq<Geometry>, ray: Ray, maxDistance: ExtReal): Result<Option<seq<GeoPoint<Geometry>>>>
    requires IsSqrt(sqrt)
  {
    Aggregate(sqrt, geometries, ray, maxDistance)
  }

  /**
   * findClosestIntersection: no hit when the geometries report none, and
   * otherwise the first of the reported hits nearest to the ray's head.
   */
  function FindClosestIntersection(sqrt: real -> real, geometries: seq<Geometry>, ray: Ray): (r: Result<Option<GeoPoint<Geometry>>>)
    requires IsSqrt(sqrt)
    ensures var hits := SceneHits(sqrt, geometries, ray, PositiveInfinity);
      (r.Err? <==> hits.Err?) && (r.Err? ==> r.error == hits.error) &&
      (r.Ok? ==> (r.value.None? <==> hits.value.None?)) &&
      (r.Ok? && r.value.Some? ==> (r.value.value in hits.value.value &&
        (forall g :: g in hits.value.value ==> DistanceSquared(ray.head, r.value.value.point) <= DistanceSquared(ray.head, g.point)) &&
        r.value.value == hits.value.value[FirstClosest(ray.head, PointsOf(hits.value.value))]))
  {
    var hits := SceneHits(sqrt, geometries, ray, PositiveInfinity);
    if hits.Err? then Err(hits.error)
    else if hits.value.None? then Ok(None)
    else
      var list := hits.value.value;
      AggregateNonEmpty(sqrt, geometries, ray, PositiveInfinity);
      var k := FirstClosest(ray.head, PointsOf(list));
      ClosestIsNearest(ray.head, list);
      Ok(Some(list[k]))
  }

  /** A list of hits the composite reports is never empty, so the search for the closest one never fails. */
  lemma {:induction false} AggregateNonEmpty(sqrt: real -> real, gs: seq<Geometry>, ray: Ray, maxDistance: ExtReal)
    requires IsSqrt(sqrt)
    ensures var a := Aggregate(sqrt, gs, ray, maxDistance); a.Ok? && a.value.Some? ==> |a.value.value| > 0
    decreases |gs|
  {
    if gs != [] {
      AggregateNonEmpty(sqrt, gs[..|gs| - 1], ray, maxDistance);
    }
  }

  /** Every hit the composite reports lies on one of its geometries. */
  lemma {:induction false} AggregateFromMembers(sqrt: real -> real, gs: seq<Geometry>, ray: Ray, maxDistance: ExtReal)
    requires IsSqrt(sqrt)
    ensures var a := Aggregate(sqrt, gs, ray, maxDistance);
      a.Ok? && a.value.Some? ==> forall h :: h in a.value.value ==> h.geometry in gs
    decreases |gs|
  {
    if gs != [] {
      var init := gs[..|gs| - 1];
      AggregateFromMembers(sqrt, init, ray, maxDistance);
      var before := Aggregate(sqrt, init, ray, maxDistance);
      var hits := Intersectable.FindGeoIntersections(sqrt, gs[|gs| - 1], ray, maxDistance);
      if before.Ok? && hits.Ok? && hits.value.Some? {
        assert forall g :: g in init ==> g in gs;
        var joined := Join(before.value, hits.value);
        forall h | h in joined.value
          ensures h.geometry in gs
        {
          var prior := if before.value.None? then [] else before.value.value;
          if h in prior {
          } else {
            assert h in hits.value.value;
            var i :| 0 <= i < |hits.value.value| && hits.value.value[i] == h;
          }
        }
      }
    }
  }

  // Secondary rays

  /**
   * constructReflectedRay: the mirror image d - 2(n.d)n of the incoming
   * direction, through the normal-offset constructor; no ray when the
   * incoming direction is tangent (n.d == 0).
   */
  function ConstructReflectedRay(sqrt: real -> real, point: Point, direction: Vector, normal: Vector): (r: Result<Option<Ray>>)
    requires IsSqrt(sqrt)
    ensures r.Ok? && r.value.None? <==> Dot(normal, direction) == 0.0
    ensures r.Err? ==> r.error == ZeroVectorError
    ensures LengthSquared(normal) == 1.0 ==> r.Ok?
    ensures r.Ok? && r.value.Some? ==>
      var m := Minus(direction, Times(normal, 2.0 * Dot(normal, direction)));
      Parallel(r.value.value.direction, m) && Dot(r.value.value.direction, m) > 0.0 &&
      (Dot(m, normal) == 0.0 ==> r.value.value.head == point) &&
      (Dot(m, normal) > 0.0 ==> r.value.value.head == Plus(point, Times(normal, Delta))) &&
      (Dot(m, normal) < 0.0 ==> r.value.value.head == Plus(point, Times(normal, -Delta)))
  {
    var nv := Dot(normal, direction);
    if nv == 0.0 then Ok(None)
    else
      var mirrored := Subtract(direction, Vectors.Scale(normal, 2.0 * nv).value);
      if mirrored.Err? then Err(mirrored.error)
      else
        MirrorOfUnitNormal(normal, direction);
        Ok(Some(NewOffsetRay(sqrt, point, mirrored.value, normal)))
  }

  /**
   * The law of reflection: mirroring d at a unit normal n flips the
   * component along n and keeps the length; in particular the mirror image
   * of a non-tangent d is never 0.
   */
  lemma MirrorOfUnitNormal(n: Point, d: Point)
    ensures var m := Minus(d, Times(n, 2.0 * Dot(n, d)));
      LengthSquared(n) == 1.0 ==> (Dot(n, m) == -Dot(n, d) && LengthSquared(m) == LengthSquared(d) &&
        (Dot(n, d) != 0.0 ==> d != Times(n, 2.0 * Dot(n, d))))
  {
    var c := Dot(n, d);
    var m := Minus(d, Times(n, 2.0 * c));
    if LengthSquared(n) == 1.0 {
      assert Dot(n, m) == c - 2.0 * c * LengthSquared(n);
      assert LengthSquared(m) == LengthSquared(d) - 4.0 * c * c + 4.0 * c * c * LengthSquared(n);
    }
  }

  /** constructRefractedRay: the incoming direction itself, through the normal-offset constructor. */
  function ConstructRefractedRay(sqrt: real -> real, point: Point, direction: Vector, normal: Vector): (r: Ray)
    requires IsSqrt(sqrt)
    ensures LengthSquared(direction) == 1.0 ==> r.direction == direction
    ensures Dot(direction, normal) == 0.0 ==> r.head == point
    ensures Dot(direction, normal) > 0.0 ==> r.head == Plus(point, Times(normal, Delta))
    ensures Dot(direction, normal) < 0.0 ==> r.head == Plus(point, Times(normal, -Delta))
  {
    if LengthSquared(direction) == 1.0 then
      NormalizeUnit(sqrt, direction);
      NewOffsetRay(sqrt, point, direction, normal)
    else
      NewOffsetRay(sqrt, point, direction, normal)
  }

  // Diffuse and specular terms

  /** calcDiffusive: kD scaled by |n.l|, so the sign of n.l does not matter. */
  function CalcDiffusive(material: Material, nl: real): (r: Double3)
    ensures AllNonNegative(material.kD) ==> AllNonNegative(r)
    ensures AllNonNegative(material.kD) && Abs(nl) <= 1.0 ==> AtMostComponents(r, material.kD)
  {
    ScaleWithin(material.kD, Abs(nl));
    Triples.Scale(material.kD, Abs(nl))
  }

  /** Light from either side of the surface is diffused alike. */
  lemma DiffusiveSymmetric(material: Material, nl: real)
    ensures CalcDiffusive(material, -nl) == CalcDiffusive(material, nl)
  {
  }

  predicate AllNonNegative(a: Double3) {
    0.0 <= a.d1 && 0.0 <= a.d2 && 0.0 <= a.d3
  }

  /** Scaling a non-negative triple by f in [0, 1] keeps it non-negative and below itself. */
  lemma ScaleWithin(a: Double3, f: real)
    ensures AllNonNegative(a) && 0.0 <= f ==> AllNonNegative(Triples.Scale(a, f))
    ensures AllNonNegative(a) && 0.0 <= f <= 1.0 ==> AtMostComponents(Triples.Scale(a, f), a)
  {
    if AllNonNegative(a) && 0.0 <= f {
      MulNonNegative(a.d1, f);
      MulNonNegative(a.d2, f);
      MulNonNegative(a.d3, f);
      if f <= 1.0 {
        MulNonNegative(a.d1, 1.0 - f);
        MulNonNegative(a.d2, 1.0 - f);
        MulNonNegative(a.d3, 1.0 - f);
      }
    }
  }

  /**
   * Math.pow(x, n) for x >= 0 and an integer n: a negative exponent divides
   * by the power, and 0 to a negative power is infinite (NonFinite).
   */
  function PowerOf(x: real, n: int): (r: Result<real>)
    requires 0.0 <= x
    ensures r.Err? <==> n < 0 && x == 0.0
    ensures r.Err? ==> r.error == NonFinite
    ensures r.Ok? ==> 0.0 <= r.value
    ensures r.Ok? && 0 <= n ==> r.value == Power(x, n)
    ensures r.Ok? && n < 0 ==> r.value * Power(x, -n) == 1.0
  {
    PowerNonNegative(x, if n < 0 then -n else n);
    if 0 <= n then Ok(Power(x, n))
    else if x == 0.0 then Err(NonFinite)
    else
      PowerPositive(x, -n);
      Ok(1.0 / Power(x, -n))
  }

  lemma {:induction false} PowerPositive(x: real, n: nat)
    requires 0.0 < x
    ensures 0.0 < Power(x, n)
  {
    if n > 0 {
      PowerPositive(x, n - 1);
      MulPositive(x, Power(x, n - 1));
    }
  }

  /** A power of a number in [0, 1] stays in [0, 1]. */
  lemma {:induction false} PowerAtMostOne(x: real, n: nat)
    requires 0.0 <= x <= 1.0
    ensures 0.0 <= Power(x, n) <= 1.0
  {
    if n > 0 {
      PowerAtMostOne(x, n - 1);
      var p := Power(x, n - 1);
      MulNonNegative(x, p);
      MulNonNegative(1.0 - x, p);
      MulNonNegative(x, 1.0 - p);
      assert Power(x, n) == Mul(x, p);
    }
  }

  /**
   * calcSpecular: kS scaled by max(0, -v.r)^shininess, r = l - 2(n.l)n the
   * mirrored light direction. n.scale(2 nl) fails for nl == 0, l.subtract
   * fails when r would be 0, and a negative shininess is infinite at 0.
   */
  function CalcSpecular(material: Material, n: Vector, l: Vector, nl: real, v: Vector): (r: Result<Double3>)
    ensures r.Err? <==> (nl == 0.0 || l == Times(n, 2.0 * nl) ||
      (material.shininess < 0 && 0.0 <= Dot(v, Minus(l, Times(n, 2.0 * nl)))))
    ensures r.Ok? ==> exists f :: 0.0 <= f && r.value == Triples.Scale(material.kS, f)
  {
    var s := Vectors.Scale(n, 2.0 * nl);
    if s.Err? then Err(s.error)
    else
      var mirrored := Subtract(l, s.value);
      if mirrored.Err? then Err(mirrored.error)
      else
        var f := PowerOf(Max(0.0, -Dot(v, mirrored.value)), material.shininess);
        if f.Err? then Err(f.error)
        else Ok(Triples.Scale(material.kS, f.value))
  }

  /**
   * For unit n, l and v, a non-negative shininess and a non-negative kS the
   * specular term lies between 0 and kS: the mirrored direction is a unit
   * vector, so -v.r is at most 1.
   */
  lemma SpecularAtMostKs(material: Material, n: Vector, l: Vector, v: Vector)
    requires LengthSquared(n) == 1.0 && LengthSquared(l) == 1.0 && LengthSquared(v) == 1.0
    requires 0 <= material.shininess && AllNonNegative(material.kS)
    ensures var r := CalcSpecular(material, n, l, Dot(n, l), v);
      r.Ok? ==> AllNonNegative(r.value) && AtMostComponents(r.value, material.kS)
  {
    var nl := Dot(n, l);
    var r := CalcSpecular(material, n, l, nl, v);
    if r.Ok? {
      var m := Minus(l, Times(n, 2.0 * nl));
      MirrorOfUnitNormal(n, l);
      assert Subtract(l, Vectors.Scale(n, 2.0 * nl).value).value == m;
      CauchySchwarz(v, m);
      UnitDotBound(Dot(v, m));
      var x := Max(0.0, -Dot(v, m));
      PowerAtMostOne(x, material.shininess);
      ScaleWithin(material.kS, Power(x, material.shininess));
    }
  }

  /** A number whose square is at most 1 lies in [-1, 1]. */
  lemma UnitDotBound(d: real)
    requires Mul(d, d) <= Mul(1.0, 1.0)
    ensures -1.0 <= d <= 1.0
  {
    if d > 1.0 {
      SquareStrictlyMonotone(1.0, d);
    } else if d < -1.0 {
      SquareStrictlyMonotone(1.0, -d);
    }
  }

  // Shadows

  /** The product of the kT coefficients of the hits, in list order. */
  function KtProduct(hits: seq<GeoPoint<Geometry>>): Double3
    decreases |hits|
  {
    if hits == [] then One3
    else Product(KtProduct(hits[..|hits| - 1]), hits[|hits| - 1].geometry.material.kT)
  }

  /** Once the running product is ZERO it stays ZERO, whatever follows. */
  lemma {:induction false} ZeroAbsorbs(hits: seq<GeoPoint<Geometry>>, n: nat, m: nat)
    requires n <= m <= |hits| && KtProduct(hits[..n]) == Zero3
    ensures KtProduct(hits[..m]) == Zero3
    decreases m - n
  {
    if n < m {
      assert hits[..n + 1][..n] == hits[..n];
      ZeroAbsorbs(hits, n + 1, m);
    }
  }

  /**
   * The kT loop of transparency: the running product over the hits, leaving
   * the loop early once it is exactly ZERO; the early exit does not change
   * the result, which is the product over all hits.
   */
  method ShadowProduct(hits: seq<GeoPoint<Geometry>>) returns (ktr: Double3)
    ensures ktr == KtProduct(hits)
  {
    ktr := One3;
    var i := 0;
    while i < |hits|
      invariant 0 <= i <= |hits|
      invariant ktr == KtProduct(hits[..i])
    {
      assert hits[..i + 1][..i] == hits[..i];
      ktr := Product(ktr, hits[i].geometry.material.kT);
      if ktr == Zero3 {
        ZeroAbsorbs(hits, i + 1, |hits|);
        assert hits[..|hits|] == hits;
        return;
      }
      i := i + 1;
    }
    assert hits[..i] == hits;
  }

  /** Light passing only geometries whose kT is in [0, 1] keeps a factor in [0, 1]. */
  lemma {:induction false} KtProductInUnitRange(hits: seq<GeoPoint<Geometry>>)
    requires forall h :: h in hits ==> InUnitRange(h.geometry.material.kT)
    ensures InUnitRange(KtProduct(hits))
    decreases |hits|
  {
    if hits != [] {
      var init := hits[..|hits| - 1];
      assert forall h :: h in init ==> h in hits;
      KtProductInUnitRange(init);
      UnitRangeProduct(KtProduct(init), hits[|hits| - 1].geometry.material.kT);
    }
  }

  /** A hit on an opaque geometry (kT == ZERO) blocks the light completely. */
  lemma OpaqueBlocks(hits: seq<GeoPoint<Geometry>>, i: nat)
    requires i < |hits| && hits[i].geometry.material.kT == Zero3
    ensures KtProduct(hits) == Zero3
  {
    assert hits[..i + 1][..i] == hits[..i];
    ZeroAbsorbs(hits, i + 1, |hits|);
    assert hits[..|hits|] == hits;
  }

  lemma UnitRangeProduct(a: Double3, b: Double3)
    requires InUnitRange(a) && InUnitRange(b)
    ensures InUnitRange(Product(a, b))
  {
    UnitProduct(a.d1, b.d1);
    UnitProduct(a.d2, b.d2);
    UnitProduct(a.d3, b.d3);
  }

  lemma UnitProduct(x: real, y: real)
    requires 0.0 <= x <= 1.0 && 0.0 <= y <= 1.0
    ensures 0.0 <= x * y <= 1.0
  {
    MulNonNegative(x, y);
    MulNonNegative(1.0 - x, y);
  }

  /**
   * The share of light that passes along one shadow ray: ONE when nothing
   * is hit before maxDistance, otherwise the product of the hits' kT.
   */
  function RayTransmission(sqrt: real -> real, geometries: seq<Geometry>, ray: Ray, maxDistance: ExtReal): (r: Result<Double3>)
    requires IsSqrt(sqrt)
    ensures var hits := SceneHits(sqrt, geometries, ray, maxDistance);
      (r.Err? <==> hits.Err?) && (r.Err? ==> r.error == hits.error) &&
      (r.Ok? ==> (hits.value.None? ==> r.value == One3) && (hits.value.Some? ==> r.value == KtProduct(hits.value.value)))
    ensures r.Ok? && (forall g :: g in geometries ==> InUnitRange(g.material.kT)) ==> InUnitRange(r.value)
  {
    var hits := SceneHits(sqrt, geometries, ray, maxDistance);
    if hits.Err? then Err(hits.error)
    else if hits.value.None? then Ok(One3)
    else
      AggregateFromMembers(sqrt, geometries, ray, maxDistance);
      if forall g :: g in geometries ==> InUnitRange(g.material.kT) then
        KtProductInUnitRange(hits.value.value);
        Ok(KtProduct(hits.value.value))
      else
        Ok(KtProduct(hits.value.value))
  }

  /**
   * The shadow ray of the hard-shadow path: from the point towards the
   * light, along the unit vector opposite to l, its head moved off the
   * surface to the light's side.
   */
  function ShadowRay(sqrt: real -> real, p: Point, l: Vector, n: Vector): (r: Ray)
    requires IsSqrt(sqrt)
    ensures r.direction == Times(Normalize(sqrt, l), -1.0)
    ensures Dot(l, n) < 0.0 ==> r.head == Plus(p, Times(n, Delta))
    ensures Dot(l, n) > 0.0 ==> r.head == Plus(p, Times(n, -Delta))
    ensures Dot(l, n) == 0.0 ==> r.head == p
  {
    var lightDirection := Vectors.Scale(l, -1.0).value;
    NormalizeOpposite(sqrt, l);
    assert Dot(lightDirection, n) == -Dot(l, n);
    NewOffsetRay(sqrt, p, lightDirection, n)
  }

  /** The hard-shadow factor: what passes along the shadow ray up to the light's distance. */
  function HardShadow(sqrt: real -> real, geometries: seq<Geometry>, light: LightSource, p: Point, l: Vector, n: Vector): Result<Double3>
    requires IsSqrt(sqrt)
  {
    RayTransmission(sqrt, geometries, ShadowRay(sqrt, p, l, n), GetDistance(sqrt, light, p))
  }

  /** The direction runs along the x axis, one way or the other. */
  predicate OnXAxis(d: Point) {
    d == Point(1.0, 0.0, 0.0) || d == Point(-1.0, 0.0, 0.0)
  }

  /**
   * The direction crossed with the x axis, or with the z axis when the
   * direction is the x axis itself (CrossWithAxes shows these are those
   * cross products).
   */
  function SampleUp(d: Point): Point {
    if OnXAxis(d) then Point(d.y, -d.x, 0.0) else Point(0.0, d.z, -d.y)
  }

  /**
   * The two vectors spanning the sample grid around a light: vUp is the
   * direction to the light crossed with the x axis (with the z axis when it
   * is the x axis itself), vTo the direction crossed with vUp.
   */
  function SampleFrame(d: Vector): (r: Result<(Vector, Vector)>)
    ensures r.Err? ==> r.error == ZeroVectorError
    ensures r.Ok? ==> Dot(r.value.0, d) == 0.0 && Dot(r.value.1, d) == 0.0 && Dot(r.value.1, r.value.0) == 0.0
  {
    var vUp := NewVector(SampleUp(d));
    if vUp.Err? then Err(vUp.error)
    else
      SampleUpOrthogonal(d);
      var vTo := Cross(d, vUp.value);
      if vTo.Err? then Err(vTo.error)
      else Ok((vUp.value, vTo.value))
  }

  lemma SampleUpOrthogonal(d: Point)
    ensures Dot(SampleUp(d), d) == 0.0
  {
  }

  /** A unit vector parallel to the x axis is the x axis or its opposite, so the frame never fails for it. */
  lemma SampleFrameOfUnit(d: Vector)
    requires LengthSquared(d) == 1.0
    ensures SampleFrame(d).Ok?
  {
    if !OnXAxis(d) {
      OffAxisCross(d);
    }
    SampleFrameOffAxis(d);
  }

  /** The frame exists for the x axis, its opposite, and every vector with a non-zero y or z component. */
  lemma SampleFrameOffAxis(d: Vector)
    requires OnXAxis(d) || d.y != 0.0 || d.z != 0.0
    ensures SampleFrame(d).Ok?
  {
    var up := SampleUp(d);
    assert up != Origin;
    SampleUpOrthogonal(d);
    DotSymmetric(up, d);
    OrthogonalNotParallel(d, up);
  }

  lemma CrossWithAxes(d: Point)
    ensures CrossOf(d, Point(0.0, 0.0, 1.0)) == Point(d.y, -d.x, 0.0)
    ensures CrossOf(d, Point(1.0, 0.0, 0.0)) == Point(0.0, d.z, -d.y)
  {
  }

  /** Off the x axis, a unit vector has a non-zero y or z component. */
  lemma OffAxisCross(d: Point)
    requires LengthSquared(d) == 1.0
    requires !OnXAxis(d)
    ensures d.y != 0.0 || d.z != 0.0
  {
    if d.y == 0.0 && d.z == 0.0 {
      UnitRoot(d.x);
    }
  }

  lemma UnitRoot(x: real)
    requires x * x == 1.0
    ensures x == 1.0 || x == -1.0
  {
    assert (x - 1.0) * (x + 1.0) == 0.0;
  }

  /** What passes along the offset ray from the point to one sample of the grid; a sample at the point fails. */
  function SampleTransmission(sqrt: real -> real, geometries: seq<Geometry>, p: Point, n: Vector, maxDistance: ExtReal, sample: Point): (r: Result<Double3>)
    requires IsSqrt(sqrt)
    ensures sample == p ==> r == Err(ZeroVectorError)
    ensures sample != p ==> r == RayTransmission(sqrt, geometries, NewOffsetRay(sqrt, p, Subtract(sample, p).value, n), maxDistance)
  {
    var v := Subtract(sample, p);
    if v.Err? then Err(v.error)
    else RayTransmission(sqrt, geometries, NewOffsetRay(sqrt, p, v.value, n), maxDistance)
  }

  /** The transmissions towards the samples, added in grid order; the first failure is the result. */
  function SampleSum(sqrt: real -> real, geometries: seq<Geometry>, p: Point, n: Vector, maxDistance: ExtReal, grid: seq<Point>): Result<Double3>
    requires IsSqrt(sqrt)
    decreases |grid|
  {
    if grid == [] then Ok(Zero3)
    else
      var before := SampleSum(sqrt, geometries, p, n, maxDistance, grid[..|grid| - 1]);
      if before.Err? then before
      else
        var last := SampleTransmission(sqrt, geometries, p, n, maxDistance, grid[|grid| - 1]);
        if last.Err? then last else Ok(Triples.Add(before.value, last.value))
  }

  /**
   * The sample loop of the soft-shadow path: one offset ray per grid point,
   * each ray's kT product found by the product loop, added up.
   */
  method SampleShadows(sqrt: real -> real, geometries: seq<Geometry>, p: Point, n: Vector, maxDistance: ExtReal, grid: seq<Point>)
      returns (r: Result<Double3>)
    requires IsSqrt(sqrt)
    ensures r == SampleSum(sqrt, geometries, p, n, maxDistance, grid)
  {
    var ktr := Zero3;
    for i := 0 to |grid|
      invariant SampleSum(sqrt, geometries, p, n, maxDistance, grid[..i]) == Ok(ktr)
    {
      assert grid[..i + 1][..i] == grid[..i];
      var v := Subtract(grid[i], p);
      if v.Err? {
        SampleFailureSticks(sqrt, geometries, p, n, maxDistance, grid, i + 1, |grid|);
        assert grid[..|grid|] == grid;
        return Err(v.error);
      }
      var ray := NewOffsetRay(sqrt, p, v.value, n);
      var intersections := SceneHits(sqrt, geometries, ray, maxDistance);
      if intersections.Err? {
        SampleFailureSticks(sqrt, geometries, p, n, maxDistance, grid, i + 1, |grid|);
        assert grid[..|grid|] == grid;
        return Err(intersections.error);
      }
      if intersections.value.None? {
        ktr := Triples.Add(ktr, One3);
      } else {
        var ktrTemp := ShadowProduct(intersections.value.value);
        ktr := Triples.Add(ktr, ktrTemp);
      }
    }
    assert grid[..|grid|] == grid;
    return Ok(ktr);
  }

  /** Once a sample fails, the sum fails with that error, whatever samples follow. */
  lemma {:induction false} SampleFailureSticks(sqrt: real -> real, geometries: seq<Geometry>, p: Point, n: Vector, maxDistance: ExtReal,
                                               grid: seq<Point>, i: nat, m: nat)
    requires IsSqrt(sqrt)
    requires i <= m <= |grid| && SampleSum(sqrt, geometries, p, n, maxDistance, grid[..i]).Err?
    ensures SampleSum(sqrt, geometries, p, n, maxDistance, grid[..m]) == SampleSum(sqrt, geometries, p, n, maxDistance, grid[..i])
    decreases m - i
  {
    if i < m {
      assert grid[..i + 1][..i] == grid[..i];
      SampleFailureSticks(sqrt, geometries, p, n, maxDistance, grid, i + 1, m);
    }
  }

  /** Every component lies between 0 and c. */
  predicate WithinCount(a: Double3, c: real) {
    0.0 <= a.d1 <= c && 0.0 <= a.d2 <= c && 0.0 <= a.d3 <= c
  }

  /** With every kT in [0, 1], each component of the sum over a grid lies between 0 and the grid's size. */
  lemma {:induction false} SampleSumBounded(sqrt: real -> real, geometries: seq<Geometry>, p: Point, n: Vector, maxDistance: ExtReal, grid: seq<Point>)
    requires IsSqrt(sqrt)
    requires forall g :: g in geometries ==> InUnitRange(g.material.kT)
    ensures var s := SampleSum(sqrt, geometries, p, n, maxDistance, grid);
      s.Ok? ==> WithinCount(s.value, |grid| as real)
    decreases |grid|
  {
    if grid != [] {
      var init := grid[..|grid| - 1];
      SampleSumBounded(sqrt, geometries, p, n, maxDistance, init);
      var before := SampleSum(sqrt, geometries, p, n, maxDistance, init);
      var last := SampleTransmission(sqrt, geometries, p, n, maxDistance, grid[|grid| - 1]);
      if before.Ok? && last.Ok? {
        WithinCountStep(before.value, last.value, |init| as real);
      }
    }
  }

  lemma WithinCountStep(a: Double3, b: Double3, c: real)
    requires WithinCount(a, c) && InUnitRange(b)
    ensures WithinCount(Triples.Add(a, b), c + 1.0)
  {
  }

  /** A light's position: where its grid is centred. */
  function PositionOf(light: LightSource): (p: Point)
    requires !light.Directional?
    ensures light.Positional? ==> p == light.point.position
    ensures light.Spot? ==> p == light.spot.light.position
  {
    if light.Positional? then light.point.position else light.spot.light.position
  }

  /**
   * The soft-shadow factor of a point or spot light: its grid is built, if
   * it has none yet, around the light's position in the plane orthogonal to
   * the direction to the light; the factor is the sum over the grid's
   * samples divided by their number, and an empty grid makes that 0/0.
   */
  function SoftShadow(sqrt: real -> real, setting: Setting, light: LightSource, index: nat, p: Point, l: Vector, n: Vector)
      : (r: Result<(Double3, LightSource)>)
    requires IsSqrt(sqrt) && !light.Directional?
    ensures r.Ok? ==> BoardStep(light, r.value.1) && BoardOf(r.value.1).Some? && BoardOf(r.value.1).value.grid.Some?
    ensures r.Ok? ==> var grid := BoardOf(r.value.1).value.grid.value;
      |grid| > 0 &&
      SampleSum(sqrt, setting.geometries, p, n, GetDistance(sqrt, light, p), grid) == Ok(Triples.Scale(r.value.0, |grid| as real))
    ensures r.Ok? && BoardOf(light).value.grid.Some? ==> r.value.1 == light
    ensures var frame := SampleFrame(Vectors.Scale(l, -1.0).value);
      (frame.Err? ==> r == Err(frame.error)) &&
      (frame.Ok? ==>
        var built := SetGridSpec(BoardOf(light).value, PositionOf(light), frame.value.0, frame.value.1, setting.jitter(index));
        (built.1.Some? ==> r == Err(built.1.value)) &&
        (built.1.None? ==>
          var grid := built.0.grid.value;
          var sum := SampleSum(sqrt, setting.geometries, p, n, GetDistance(sqrt, light, p), grid);
          (sum.Err? ==> r == Err(sum.error)) &&
          (sum.Ok? && |grid| == 0 ==> r == Err(NonFinite)) &&
          (sum.Ok? && |grid| > 0 ==> r.Ok?) &&
          (r.Ok? ==> BoardOf(r.value.1) == Some(built.0))))
  {
    var lightDirection := Vectors.Scale(l, -1.0).value;
    var frame := SampleFrame(lightDirection);
    if frame.Err? then Err(frame.error)
    else
      var board := BoardOf(light).value;
      var (built, failure) := SetGridSpec(board, PositionOf(light), frame.value.0, frame.value.1, setting.jitter(index));
      if failure.Some? then Err(failure.value)
      else
        var grid := built.grid.value;
        var sum := SampleSum(sqrt, setting.geometries, p, n, GetDistance(sqrt, light, p), grid);
        if sum.Err? then Err(sum.error)
        else if |grid| == 0 then Err(NonFinite)
        else
          var ktr := Triples.Scale(sum.value, 1.0 / (|grid| as real));
          AverageScalesBack(sum.value, |grid| as real);
          GridBuilt(light, built);
          Ok((ktr, if board.grid.Some? then light else WithBoard(light, built)))
  }

  /** Storing a board that differs only in its now-present grid is one board step, and keeps that grid. */
  lemma GridBuilt(light: LightSource, built: BoardState)
    requires !light.Directional? && built.grid.Some?
    requires built == BoardOf(light).value.(grid := built.grid)
    requires BoardOf(light).value.grid.Some? ==> built == BoardOf(light).value
    ensures var after := if BoardOf(light).value.grid.Some? then light else WithBoard(light, built);
      BoardStep(light, after) && BoardOf(after) == Some(built)
  {
  }

  lemma AverageScalesBack(s: Double3, c: real)
    requires c != 0.0
    ensures Triples.Scale(Triples.Scale(s, 1.0 / c), c) == s
  {
  }

  /**
   * The soft-shadow factor lies in [0, 1] when every kT does: it is an
   * average of per-sample products in [0, 1].
   */
  lemma SoftShadowInUnitRange(sqrt: real -> real, setting: Setting, light: LightSource, index: nat, p: Point, l: Vector, n: Vector)
    requires IsSqrt(sqrt) && !light.Directional?
    requires forall g :: g in setting.geometries ==> InUnitRange(g.material.kT)
    ensures var r := SoftShadow(sqrt, setting, light, index, p, l, n); r.Ok? ==> InUnitRange(r.value.0)
  {
    var r := SoftShadow(sqrt, setting, light, index, p, l, n);
    if r.Ok? {
      var grid := BoardOf(r.value.1).value.grid.value;
      var c := |grid| as real;
      SampleSumBounded(sqrt, setting.geometries, p, n, GetDistance(sqrt, light, p), grid);
      AverageInUnitRange(r.value.0, c);
    }
  }

  lemma AverageInUnitRange(a: Double3, c: real)
    requires 0.0 < c
    requires WithinCount(Triples.Scale(a, c), c)
    ensures InUnitRange(a)
  {
    AveragedComponent(a.d1, c);
    AveragedComponent(a.d2, c);
    AveragedComponent(a.d3, c);
  }

  lemma AveragedComponent(x: real, c: real)
    requires 0.0 < c && 0.0 <= x * c <= 1.0 * c
    ensures 0.0 <= x <= 1.0
  {
    if x < 0.0 {
      MulPositive(-x, c);
    } else if 1.0 < x {
      MulPositive(x - 1.0, c);
    }
  }

  /**
   * transparency: a directional light, or soft shadows off, takes the
   * hard-shadow path; a point or spot light with soft shadows on takes the
   * soft-shadow path and may get its grid built. Only light i can change.
   */
  function TransparencyOf(sqrt: real -> real, setting: Setting, lights: seq<LightSource>, i: nat, p: Point, l: Vector, n: Vector)
      : (r: Result<(Double3, seq<LightSource>)>)
    requires IsSqrt(sqrt) && i < |lights|
    ensures r.Ok? ==> Evolved(lights, r.value.1) && r.value.1[..i] == lights[..i] && r.value.1[i + 1..] == lights[i + 1..]
    ensures lights[i].Directional? || !setting.useSoftShadows ==>
      (r.Err? <==> HardShadow(sqrt, setting.geometries, lights[i], p, l, n).Err?) &&
      (r.Err? ==> r.error == HardShadow(sqrt, setting.geometries, lights[i], p, l, n).error) &&
      (r.Ok? ==> r.value == (HardShadow(sqrt, setting.geometries, lights[i], p, l, n).value, lights))
    ensures !lights[i].Directional? && setting.useSoftShadows ==>
      var soft := SoftShadow(sqrt, setting, lights[i], i, p, l, n);
      (r.Err? <==> soft.Err?) && (r.Err? ==> r.error == soft.error) &&
      (r.Ok? ==> r.value == (soft.value.0, lights[i := soft.value.1]))
    ensures r.Ok? && (forall g :: g in setting.geometries ==> InUnitRange(g.material.kT)) ==> InUnitRange(r.value.0)
  {
    var light := lights[i];
    if light.Directional? || !setting.useSoftShadows then
      var h := HardShadow(sqrt, setting.geometries, light, p, l, n);
      if h.Err? then Err(h.error) else Ok((h.value, lights))
    else
      var soft := SoftShadow(sqrt, setting, light, i, p, l, n);
      if soft.Err? then Err(soft.error)
      else
        EvolvedAt(lights, i, soft.value.1);
        if forall g :: g in setting.geometries ==> InUnitRange(g.material.kT) then
          SoftShadowInUnitRange(sqrt, setting, light, i, p, l, n);
          Ok((soft.value.0, lights[i := soft.value.1]))
        else
          Ok((soft.value.0, lights[i := soft.value.1]))
  }

  /** Replacing one light by a board step of it is an evolution that leaves the others in place. */
  lemma EvolvedAt(lights: seq<LightSource>, i: nat, after: LightSource)
    requires i < |lights| && BoardStep(lights[i], after)
    ensures var next := lights[i := after];
      Evolved(lights, next) && next[..i] == lights[..i] && next[i + 1..] == lights[i + 1..]
  {
    var next := lights[i := after];
    forall j | 0 <= j < |lights|
      ensures BoardStep(lights[j], next[j])
    {
    }
  }
}
