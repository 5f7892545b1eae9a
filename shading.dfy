/**
 * renderer.SimpleRayTracer, the colour computation: the local effects of
 * every light at a hit, the reflected and refracted rays followed to a
 * bounded depth, and traceRay with the ambient light on top. The functions
 * state what the tracer computes; the methods compute it step by step, as
 * the tracer's loops and recursive calls do, threading the light sources
 * whose blackboards may get their grids built.
 */
module Shading {
  import opened Reals
  import opened Wrappers
  import opened Triples
  import opened Vectors
  import opened Rays
  import opened Intersectable
  import opened Composite
  import opened Lights
  import opened Boards
  import opened Tracer

  // Local effects

  /**
   * One iteration of the light loop of calcLocalEffects: a light on the
   * other side of the surface from the viewer (n.l and n.v not of the same
   * sign) adds nothing; so does a light whose transparency, times k, is below
   * MIN_CALC_COLOR_K in every component; otherwise the light's intensity,
   * scaled by its transparency, weights the diffuse plus specular term.
   */
  function LightStep(sqrt: real -> real, setting: Setting, lights: seq<LightSource>, i: nat,
                     p: Point, n: Vector, v: Vector, nv: real, material: Material, k: Double3, color: Color)
      : (r: Result<Shade>)
    requires IsSqrt(sqrt) && i < |lights|
    ensures r.Ok? ==> Evolved(lights, r.value.lights) && r.value.lights[..i] == lights[..i] && r.value.lights[i + 1..] == lights[i + 1..]
  {
    var l := GetL(sqrt, lights[i], p);
    if l.Err? then Err(l.error)
    else
      var nl := Dot(n, l.value);
      if !(nl * nv > 0.0) then
        EvolvedReflexive(lights);
        Ok(Shade(color, lights))
      else
        var t := TransparencyOf(sqrt, setting, lights, i, p, l.value, n);
        if t.Err? then Err(t.error)
        else
          LitStep(sqrt, t.value.1, i, p, n, l.value, nl, v, material, k, color, t.value.0)
  }

  /**
   * The rest of one light's step once its transparency ktr is known and the
   * lights are after: a light too weak to matter adds nothing, otherwise its
   * diffuse and specular terms are added. An infinite intensity (a zero
   * attenuation) surfaces only once the specular term is known, so a failing
   * specular term is the error reported.
   */
  function LitStep(sqrt: real -> real, after: seq<LightSource>, i: nat, p: Point, n: Vector, l: Vector, nl: real,
                   v: Vector, material: Material, k: Double3, color: Color, ktr: Double3): (r: Result<Shade>)
    requires IsSqrt(sqrt) && i < |after|
    ensures r.Ok? ==> r.value.lights == after
    ensures LowerThan(Product(ktr, k), MinCalcColorK) ==> r == Ok(Shade(color, after))
    ensures !LowerThan(Product(ktr, k), MinCalcColorK) ==>
      var specular := CalcSpecular(material, n, l, nl, v);
      var intensity := GetIntensity(sqrt, after[i], p);
      (r.Err? <==> specular.Err? || intensity.Err?) &&
      (specular.Err? ==> r.error == specular.error) &&
      (specular.Ok? && intensity.Err? ==> r.error == intensity.error)
  {
    if LowerThan(Product(ktr, k), MinCalcColorK) then Ok(Shade(color, after))
    else
      var intensity := GetIntensity(sqrt, after[i], p);
      var specular := CalcSpecular(material, n, l, nl, v);
      if specular.Err? then Err(specular.error)
      else if intensity.Err? then Err(intensity.error)
      else
        var iL := Product(intensity.value, ktr);
        Ok(Shade(Triples.Add(color, Product(iL, Triples.Add(CalcDiffusive(material, nl), specular.value))), after))
  }

  /** The light loop from light i on, the colour so far being color; the first failure ends it. */
  function LightsFrom(sqrt: real -> real, setting: Setting, lights: seq<LightSource>, i: nat,
                      p: Point, n: Vector, v: Vector, nv: real, material: Material, k: Double3, color: Color)
      : (r: Result<Shade>)
    requires IsSqrt(sqrt) && i <= |lights|
    ensures r.Ok? ==> Evolved(lights, r.value.lights)
    decreases |lights| - i
  {
    if i == |lights| then
      EvolvedReflexive(lights);
      Ok(Shade(color, lights))
    else
      var s := LightStep(sqrt, setting, lights, i, p, n, v, nv, material, k, color);
      if s.Err? then Err(s.error)
      else
        var rest := LightsFrom(sqrt, setting, s.value.lights, i + 1, p, n, v, nv, material, k, s.value.color);
        if rest.Err? then rest
        else
          EvolvedTransitive(lights, s.value.lights, rest.value.lights);
          rest
  }

  /**
   * calcLocalEffects: the geometry's emission alone when the view is tangent
   * to the surface (n.v == 0), otherwise the emission plus every light's
   * contribution, in the order of the scene's lights.
   */
  function LocalEffects(sqrt: real -> real, setting: Setting, lights: seq<LightSource>, gp: GeoPoint<Geometry>, ray: Ray, k: Double3)
      : (r: Result<Shade>)
    requires IsSqrt(sqrt)
    ensures var normal := GetNormal(sqrt, gp.geometry, gp.point);
      r.Err? <==> (normal.Err? ||
        (Dot(normal.value, ray.direction) != 0.0 &&
         LightsFrom(sqrt, setting, lights, 0, gp.point, normal.value, ray.direction,
                    Dot(normal.value, ray.direction), gp.geometry.material, k, gp.geometry.emission).Err?))
    ensures r.Ok? ==> Evolved(lights, r.value.lights)
  {
    var normal := GetNormal(sqrt, gp.geometry, gp.point);
    if normal.Err? then Err(normal.error)
    else
      var nv := Dot(normal.value, ray.direction);
      if nv == 0.0 then
        EvolvedReflexive(lights);
        Ok(Shade(gp.geometry.emission, lights))
      else
        LightsFrom(sqrt, setting, lights, 0, gp.point, normal.value, ray.direction, nv, gp.geometry.material, k, gp.geometry.emission)
  }

  /** Seen edge-on, a surface shows its emission alone, whatever the lights. */
  lemma TangentViewShowsEmission(sqrt: real -> real, setting: Setting, lights: seq<LightSource>, gp: GeoPoint<Geometry>, ray: Ray, k: Double3)
    requires IsSqrt(sqrt)
    requires GetNormal(sqrt, gp.geometry, gp.point).Ok? && Dot(GetNormal(sqrt, gp.geometry, gp.point).value, ray.direction) == 0.0
    ensures LocalEffects(sqrt, setting, lights, gp, ray, k) == Ok(Shade(gp.geometry.emission, lights))
  {
  }

  /** A scene without lights shows every surface in its emission. */
  lemma NoLightsShowEmission(sqrt: real -> real, setting: Setting, gp: GeoPoint<Geometry>, ray: Ray, k: Double3)
    requires IsSqrt(sqrt) && GetNormal(sqrt, gp.geometry, gp.point).Ok?
    ensures LocalEffects(sqrt, setting, [], gp, ray, k) == Ok(Shade(gp.geometry.emission, []))
  {
  }

  /** A light on the far side of the surface from the viewer leaves the colour as it was. */
  lemma LightBehindAddsNothing(sqrt: real -> real, setting: Setting, lights: seq<LightSource>, i: nat,
                               p: Point, n: Vector, v: Vector, nv: real, material: Material, k: Double3, color: Color)
    requires IsSqrt(sqrt) && i < |lights|
    requires GetL(sqrt, lights[i], p).Ok? && Mul(Dot(n, GetL(sqrt, lights[i], p).value), nv) <= 0.0
    ensures LightStep(sqrt, setting, lights, i, p, n, v, nv, material, k, color) == Ok(Shade(color, lights))
  {
  }

  /**
   * With hard shadows, a light whose shadow ray meets an opaque geometry
   * (kT == ZERO) before reaching the light leaves the colour as it was.
   */
  lemma OpaqueOccluderAddsNothing(sqrt: real -> real, setting: Setting, lights: seq<LightSource>, i: nat,
                                  p: Point, n: Vector, v: Vector, nv: real, material: Material, k: Double3, color: Color, j: nat)
    requires IsSqrt(sqrt) && i < |lights|
    requires lights[i].Directional? || !setting.useSoftShadows
    requires GetL(sqrt, lights[i], p).Ok?
    requires var hits := SceneHits(sqrt, setting.geometries, ShadowRay(sqrt, p, GetL(sqrt, lights[i], p).value, n), GetDistance(sqrt, lights[i], p));
      hits.Ok? && hits.value.Some? && j < |hits.value.value| && hits.value.value[j].geometry.material.kT == Zero3
    ensures LightStep(sqrt, setting, lights, i, p, n, v, nv, material, k, color) == Ok(Shade(color, lights))
  {
    var l := GetL(sqrt, lights[i], p).value;
    var hits := SceneHits(sqrt, setting.geometries, ShadowRay(sqrt, p, l, n), GetDistance(sqrt, lights[i], p));
    OpaqueBlocks(hits.value.value, j);
    ZeroBelowThreshold(k);
  }

  lemma ZeroBelowThreshold(k: Double3)
    ensures LowerThan(Product(Zero3, k), MinCalcColorK)
  {
  }

  /** A light whose transparency times k is below MIN_CALC_COLOR_K in every component leaves the colour as it was. */
  lemma WeakLightAddsNothing(sqrt: real -> real, after: seq<LightSource>, i: nat, p: Point, n: Vector, l: Vector, nl: real,
                             v: Vector, material: Material, k: Double3, color: Color, ktr: Double3)
    requires IsSqrt(sqrt) && i < |after|
    requires LowerThan(Product(ktr, k), MinCalcColorK)
    ensures LitStep(sqrt, after, i, p, n, l, nl, v, material, k, color, ktr) == Ok(Shade(color, after))
  {
  }

  // Global effects: the recursion

  /** A null ray reaches every member of the composite; all but a polygon dereference it. */
  predicate DereferencesRay(geometries: seq<Geometry>) {
    exists g :: g in geometries && !g.shape.PolygonShape?
  }

  /**
   * calcColor(gp, ray, level, k): the local effects, plus at every level
   * above 1 the global effects of the same hit.
   */
  function ColorAt(sqrt: real -> real, setting: Setting, lights: seq<LightSource>, gp: GeoPoint<Geometry>, ray: Ray, level: nat, k: Double3)
      : (r: Result<Shade>)
    requires IsSqrt(sqrt) && 1 <= level
    ensures r.Ok? ==> Evolved(lights, r.value.lights)
    decreases level, 2
  {
    var local := LocalEffects(sqrt, setting, lights, gp, ray, k);
    if local.Err? then local
    else if level == 1 then local
    else
      var global := GlobalEffects(sqrt, setting, local.value.lights, gp, ray, level, k);
      if global.Err? then global
      else
        EvolvedTransitive(lights, local.value.lights, global.value.lights);
        Ok(Shade(Triples.Add(local.value.color, global.value.color), global.value.lights))
  }

  /**
   * calcGlobalEffects: the refracted ray's effect first, then the reflected
   * ray's. The refracted one is weighted by the material's kT and the
   * reflected one by kR, each together with the accumulated k.
   */
  function GlobalEffects(sqrt: real -> real, setting: Setting, lights: seq<LightSource>, gp: GeoPoint<Geometry>, ray: Ray, level: nat, k: Double3)
      : (r: Result<Shade>)
    requires IsSqrt(sqrt) && 2 <= level
    ensures r.Ok? ==> Evolved(lights, r.value.lights)
    decreases level, 1
  {
    var material := gp.geometry.material;
    var normal := GetNormal(sqrt, gp.geometry, gp.point);
    if normal.Err? then Err(normal.error)
    else
      var refracted := ConstructRefractedRay(sqrt, gp.point, ray.direction, normal.value);
      var first := GlobalEffect(sqrt, setting, lights, Some(refracted), level, material.kT, k);
      if first.Err? then first
      else
        var reflected := ConstructReflectedRay(sqrt, gp.point, ray.direction, normal.value);
        if reflected.Err? then Err(reflected.error)
        else
          var second := GlobalEffect(sqrt, setting, first.value.lights, reflected.value, level, material.kR, k);
          if second.Err? then second
          else
            EvolvedTransitive(lights, first.value.lights, second.value.lights);
            Ok(Shade(Triples.Add(first.value.color, second.value.color), second.value.lights))
  }

  /**
   * calcGlobalEffect(ray, level, k, kx): black once k * kx is below
   * MIN_CALC_COLOR_K in every component; otherwise the colour of the
   * closest hit along the ray one level down with k * kx (the background
   * when nothing is hit), scaled by kx. A missing (null) ray fails on the
   * first geometry that is not a polygon.
   */
  function GlobalEffect(sqrt: real -> real, setting: Setting, lights: seq<LightSource>, ray: Option<Ray>, level: nat, k: Double3, kx: Double3)
      : (r: Result<Shade>)
    requires IsSqrt(sqrt) && 2 <= level
    ensures r.Ok? ==> Evolved(lights, r.value.lights)
    decreases level, 0
  {
    EvolvedReflexive(lights);
    var kkx := Product(k, kx);
    if LowerThan(kkx, MinCalcColorK) then Ok(Shade(Black, lights))
    else if ray.None? then
      if DereferencesRay(setting.geometries) then Err(NullPointer)
      else Ok(Shade(Product(setting.background, kx), lights))
    else
      var closest := FindClosestIntersection(sqrt, setting.geometries, ray.value);
      if closest.Err? then Err(closest.error)
      else if closest.value.None? then Ok(Shade(Product(setting.background, kx), lights))
      else
        var c := ColorAt(sqrt, setting, lights, closest.value.value, ray.value, level - 1, kkx);
        if c.Err? then c
        else Ok(Shade(Product(c.value.color, kx), c.value.lights))
  }

  /**
   * traceRay: the background when the ray hits nothing, otherwise the
   * colour of the closest hit at the top level MAX_CALC_COLOR_LEVEL with
   * k == INITIAL_K, plus the ambient light's intensity.
   */
  function TraceRayOf(sqrt: real -> real, setting: Setting, ambientLight: AmbientLight, lights: seq<LightSource>, ray: Ray)
      : (r: Result<Shade>)
    requires IsSqrt(sqrt)
    ensures r.Ok? ==> Evolved(lights, r.value.lights)
    ensures var closest := FindClosestIntersection(sqrt, setting.geometries, ray);
      (closest.Err? ==> r == Err(closest.error)) &&
      (closest.Ok? && closest.value.None? ==> r == Ok(Shade(setting.background, lights)))
  {
    var closest := FindClosestIntersection(sqrt, setting.geometries, ray);
    if closest.Err? then Err(closest.error)
    else if closest.value.None? then
      EvolvedReflexive(lights);
      Ok(Shade(setting.background, lights))
    else
      var c := ColorAt(sqrt, setting, lights, closest.value.value, ray, MaxCalcColorLevel, InitialK);
      if c.Err? then c
      else Ok(Shade(Triples.Add(c.value.color, ambientLight.intensity), c.value.lights))
  }

  /** A surface that neither transmits (kT == ZERO) nor reflects (kR == ZERO) shows its local effects alone, at every level. */
  lemma MatteShowsLocalEffects(sqrt: real -> real, setting: Setting, lights: seq<LightSource>, gp: GeoPoint<Geometry>, ray: Ray, level: nat, k: Double3)
    requires IsSqrt(sqrt) && 1 <= level
    requires gp.geometry.material.kT == Zero3 && gp.geometry.material.kR == Zero3 && !gp.geometry.shape.TubeShape?
    ensures ColorAt(sqrt, setting, lights, gp, ray, level, k) == LocalEffects(sqrt, setting, lights, gp, ray, k)
  {
    var local := LocalEffects(sqrt, setting, lights, gp, ray, k);
    if local.Ok? && level > 1 {
      var after := local.value.lights;
      MatteHasNoGlobalEffects(sqrt, setting, after, gp, ray, level, k);
      AddNothing(local.value.color);
    }
  }

  /** Neither secondary ray of a matte, non-tube surface contributes: both are weighted by ZERO. */
  lemma MatteHasNoGlobalEffects(sqrt: real -> real, setting: Setting, lights: seq<LightSource>, gp: GeoPoint<Geometry>, ray: Ray, level: nat, k: Double3)
    requires IsSqrt(sqrt) && 2 <= level
    requires gp.geometry.material.kT == Zero3 && gp.geometry.material.kR == Zero3 && !gp.geometry.shape.TubeShape?
    requires GetNormal(sqrt, gp.geometry, gp.point).Ok?
    ensures var g := GlobalEffects(sqrt, setting, lights, gp, ray, level, k);
      g.Ok? && g.value.lights == lights && g.value.color == Triples.Add(Black, Black)
  {
    var normal := GetNormal(sqrt, gp.geometry, gp.point).value;
    var refracted := ConstructRefractedRay(sqrt, gp.point, ray.direction, normal);
    WeightZeroIsBlack(sqrt, setting, lights, Some(refracted), level, gp.geometry.material.kT, k);
    FlatNormalReflects(sqrt, gp, ray.direction);
    var reflected := ConstructReflectedRay(sqrt, gp.point, ray.direction, normal);
    WeightZeroIsBlack(sqrt, setting, lights, reflected.value, level, gp.geometry.material.kR, k);
    BlackEffects(sqrt, setting, lights, gp, ray, level, k, normal);
  }

  lemma BlackEffects(sqrt: real -> real, setting: Setting, lights: seq<LightSource>, gp: GeoPoint<Geometry>, ray: Ray, level: nat, k: Double3, normal: Vector)
    requires IsSqrt(sqrt) && 2 <= level
    requires GetNormal(sqrt, gp.geometry, gp.point) == Ok(normal)
    requires GlobalEffect(sqrt, setting, lights, Some(ConstructRefractedRay(sqrt, gp.point, ray.direction, normal)), level, gp.geometry.material.kT, k) == Ok(Shade(Black, lights))
    requires ConstructReflectedRay(sqrt, gp.point, ray.direction, normal).Ok?
    requires GlobalEffect(sqrt, setting, lights, ConstructReflectedRay(sqrt, gp.point, ray.direction, normal).value, level, gp.geometry.material.kR, k) == Ok(Shade(Black, lights))
    ensures var g := GlobalEffects(sqrt, setting, lights, gp, ray, level, k);
      g.Ok? && g.value.lights == lights && g.value.color == Triples.Add(Black, Black)
  {
  }

  /** At level 1 calcColor returns the local effects alone: no secondary ray is traced. */
  lemma LevelOneIsLocal(sqrt: real -> real, setting: Setting, lights: seq<LightSource>, gp: GeoPoint<Geometry>, ray: Ray, k: Double3)
    requires IsSqrt(sqrt)
    ensures ColorAt(sqrt, setting, lights, gp, ray, 1, k) == LocalEffects(sqrt, setting, lights, gp, ray, k)
  {
  }

  /** A secondary ray whose weight k * kx is below MIN_CALC_COLOR_K in every component is black, and no light changes. */
  lemma NegligibleRayIsBlack(sqrt: real -> real, setting: Setting, lights: seq<LightSource>, ray: Option<Ray>, level: nat, k: Double3, kx: Double3)
    requires IsSqrt(sqrt) && 2 <= level
    requires LowerThan(Product(k, kx), MinCalcColorK)
    ensures GlobalEffect(sqrt, setting, lights, ray, level, k, kx) == Ok(Shade(Black, lights))
  {
  }

  /** A secondary ray that hits nothing shows the background scaled by the accumulated kx. */
  lemma MissShowsBackground(sqrt: real -> real, setting: Setting, lights: seq<LightSource>, ray: Ray, level: nat, k: Double3, kx: Double3)
    requires IsSqrt(sqrt) && 2 <= level
    requires !LowerThan(Product(k, kx), MinCalcColorK)
    requires FindClosestIntersection(sqrt, setting.geometries, ray) == Ok(None)
    ensures GlobalEffect(sqrt, setting, lights, Some(ray), level, k, kx) == Ok(Shade(Product(setting.background, kx), lights))
  {
  }

  /** A secondary ray weighted by ZERO contributes black, without being traced. */
  lemma WeightZeroIsBlack(sqrt: real -> real, setting: Setting, lights: seq<LightSource>, ray: Option<Ray>, level: nat, w: Double3, k: Double3)
    requires IsSqrt(sqrt) && 2 <= level && w == Zero3
    ensures GlobalEffect(sqrt, setting, lights, ray, level, w, k) == Ok(Shade(Black, lights))
  {
    ZeroBelowThreshold(k);
    NegligibleRayIsBlack(sqrt, setting, lights, ray, level, w, k);
  }

  /** At a surface other than a tube the normal is a unit vector, so the reflected ray is always built. */
  lemma FlatNormalReflects(sqrt: real -> real, gp: GeoPoint<Geometry>, direction: Vector)
    requires IsSqrt(sqrt) && !gp.geometry.shape.TubeShape? && GetNormal(sqrt, gp.geometry, gp.point).Ok?
    ensures ConstructReflectedRay(sqrt, gp.point, direction, GetNormal(sqrt, gp.geometry, gp.point).value).Ok?
  {
  }

  lemma AddNothing(c: Color)
    ensures Triples.Add(c, Triples.Add(Black, Black)) == c
  {
  }

  /**
   * With no light sources, a ray that first hits a matte surface shows that
   * surface's emission plus the ambient light, and no light changes.
   */
  lemma UnlitMatteHit(sqrt: real -> real, setting: Setting, ambientLight: AmbientLight, ray: Ray, gp: GeoPoint<Geometry>)
    requires IsSqrt(sqrt)
    requires FindClosestIntersection(sqrt, setting.geometries, ray) == Ok(Some(gp))
    requires gp.geometry.material.kT == Zero3 && gp.geometry.material.kR == Zero3 && !gp.geometry.shape.TubeShape?
    requires GetNormal(sqrt, gp.geometry, gp.point).Ok?
    ensures TraceRayOf(sqrt, setting, ambientLight, [], ray) == Ok(Shade(Triples.Add(gp.geometry.emission, ambientLight.intensity), []))
  {
    MatteShowsLocalEffects(sqrt, setting, [], gp, ray, MaxCalcColorLevel, InitialK);
    NoLightsShowEmission(sqrt, setting, gp, ray, InitialK);
  }

  // The tracer's methods: loops and recursive calls, threading the lights

  /** findClosestIntersection: the composite's hits up to infinity, then the ray's closest-point search on them. */
  method ClosestHit(sqrt: real -> real, geometries: seq<Geometry>, ray: Ray) returns (r: Result<Option<GeoPoint<Geometry>>>)
    requires IsSqrt(sqrt)
    ensures r == FindClosestIntersection(sqrt, geometries, ray)
  {
    var list := SceneHits(sqrt, geometries, ray, PositiveInfinity);
    if list.Err? {
      return Err(list.error);
    }
    AggregateNonEmpty(sqrt, geometries, ray, PositiveInfinity);
    r := FindClosestGeoPoint(sqrt, ray, list.value);
  }

  /**
   * transparency, for light i: the hard-shadow path runs the kT loop over
   * the shadow ray's hits; the soft-shadow path builds the light's grid
   * (kept, as far as it got, even when building or sampling then fails)
   * and runs the sample loop over it.
   */
  method Transparency(sqrt: real -> real, setting: Setting, lights: seq<LightSource>, i: nat, p: Point, l: Vector, n: Vector)
      returns (r: Result<Double3>, after: seq<LightSource>)
    requires IsSqrt(sqrt) && i < |lights|
    ensures Evolved(lights, after) && after[..i] == lights[..i] && after[i + 1..] == lights[i + 1..]
    ensures var t := TransparencyOf(sqrt, setting, lights, i, p, l, n);
      (r.Err? <==> t.Err?) && (r.Err? ==> r.error == t.error) && (r.Ok? ==> (r.value, after) == t.value)
  {
    var light := lights[i];
    after := lights;
    EvolvedReflexive(lights);
    var lightDirection := Vectors.Scale(l, -1.0).value;
    if light.Directional? || !setting.useSoftShadows {
      var ray := ShadowRay(sqrt, p, l, n);
      var intersections := SceneHits(sqrt, setting.geometries, ray, GetDistance(sqrt, light, p));
      if intersections.Err? {
        return Err(intersections.error), lights;
      }
      if intersections.value.None? {
        return Ok(One3), lights;
      }
      var ktr := ShadowProduct(intersections.value.value);
      return Ok(ktr), lights;
    }
    var frame := SampleFrame(lightDirection);
    if frame.Err? {
      return Err(frame.error), lights;
    }
    var board := BoardOf(light).value;
    var (built, failure) := SetGridSpec(board, PositionOf(light), frame.value.0, frame.value.1, setting.jitter(i));
    GridBuilt(light, built);
    var stored := if board.grid.Some? then light else WithBoard(light, built);
    EvolvedAt(lights, i, stored);
    after := lights[i := stored];
    if failure.Some? {
      return Err(failure.value), after;
    }
    var grid := built.grid.value;
    var sum := SampleShadows(sqrt, setting.geometries, p, n, GetDistance(sqrt, light, p), grid);
    if sum.Err? {
      return Err(sum.error), after;
    }
    if |grid| == 0 {
      return Err(NonFinite), after;
    }
    r := Ok(Triples.Scale(sum.value, 1.0 / (|grid| as real)));
  }

  /**
   * calcLocalEffects: the light loop, light by light in the scene's order,
   * each light's transparency computed by the transparency method.
   */
  method CalcLocalEffects(sqrt: real -> real, setting: Setting, lights: seq<LightSource>, gp: GeoPoint<Geometry>, ray: Ray, k: Double3)
      returns (r: Result<Color>, after: seq<LightSource>)
    requires IsSqrt(sqrt)
    ensures Evolved(lights, after)
    ensures var s := LocalEffects(sqrt, setting, lights, gp, ray, k);
      (r.Err? <==> s.Err?) && (r.Err? ==> r.error == s.error) && (r.Ok? ==> Shade(r.value, after) == s.value)
  {
    after := lights;
    EvolvedReflexive(lights);
    var normal := GetNormal(sqrt, gp.geometry, gp.point);
    if normal.Err? {
      return Err(normal.error), lights;
    }
    var n := normal.value;
    var v := ray.direction;
    var color := gp.geometry.emission;
    var material := gp.geometry.material;
    var nv := Dot(n, v);
    if nv == 0.0 {
      return Ok(color), lights;
    }
    ghost var whole := LightsFrom(sqrt, setting, lights, 0, gp.point, n, v, nv, material, k, color);
    var i := 0;
    while i < |after|
      invariant i <= |after| && Evolved(lights, after)
      invariant whole == LightsFrom(sqrt, setting, after, i, gp.point, n, v, nv, material, k, color)
      decreases |after| - i
    {
      var l := GetL(sqrt, after[i], gp.point);
      if l.Err? {
        return Err(l.error), after;
      }
      var nl := Dot(n, l.value);
      if nl * nv > 0.0 {
        var ktr, next := Transparency(sqrt, setting, after, i, gp.point, l.value, n);
        EvolvedTransitive(lights, after, next);
        if ktr.Err? {
          return Err(ktr.error), next;
        }
        after := next;
        if !LowerThan(Product(ktr.value, k), MinCalcColorK) {
          var intensity := GetIntensity(sqrt, after[i], gp.point);
          var specular := CalcSpecular(material, n, l.value, nl, v);
          if specular.Err? {
            return Err(specular.error), after;
          }
          if intensity.Err? {
            return Err(intensity.error), after;
          }
          var iL := Product(intensity.value, ktr.value);
          color := Triples.Add(color, Product(iL, Triples.Add(CalcDiffusive(material, nl), specular.value)));
        }
      }
      i := i + 1;
    }
    return Ok(color), after;
  }

  /** calcColor(gp, ray, level, k): the local effects, and above level 1 the global effects added to them. */
  method CalcColor(sqrt: real -> real, setting: Setting, lights: seq<LightSource>, gp: GeoPoint<Geometry>, ray: Ray, level: nat, k: Double3)
      returns (r: Result<Color>, after: seq<LightSource>)
    requires IsSqrt(sqrt) && 1 <= level
    ensures Evolved(lights, after)
    ensures var s := ColorAt(sqrt, setting, lights, gp, ray, level, k);
      (r.Err? <==> s.Err?) && (r.Err? ==> r.error == s.error) && (r.Ok? ==> Shade(r.value, after) == s.value)
    decreases level, 2
  {
    var color, local := CalcLocalEffects(sqrt, setting, lights, gp, ray, k);
    if color.Err? || level == 1 {
      return color, local;
    }
    var global, next := CalcGlobalEffects(sqrt, setting, local, gp, ray, level, k);
    EvolvedTransitive(lights, local, next);
    if global.Err? {
      return Err(global.error), next;
    }
    return Ok(Triples.Add(color.value, global.value)), next;
  }

  /** calcGlobalEffects: the refracted ray's effect, then the reflected ray's, added. */
  method CalcGlobalEffects(sqrt: real -> real, setting: Setting, lights: seq<LightSource>, gp: GeoPoint<Geometry>, ray: Ray, level: nat, k: Double3)
      returns (r: Result<Color>, after: seq<LightSource>)
    requires IsSqrt(sqrt) && 2 <= level
    ensures Evolved(lights, after)
    ensures var s := GlobalEffects(sqrt, setting, lights, gp, ray, level, k);
      (r.Err? <==> s.Err?) && (r.Err? ==> r.error == s.error) && (r.Ok? ==> Shade(r.value, after) == s.value)
    decreases level, 1
  {
    EvolvedReflexive(lights);
    var material := gp.geometry.material;
    var normal := GetNormal(sqrt, gp.geometry, gp.point);
    if normal.Err? {
      return Err(normal.error), lights;
    }
    var refracted := ConstructRefractedRay(sqrt, gp.point, ray.direction, normal.value);
    var first, middle := CalcGlobalEffect(sqrt, setting, lights, Some(refracted), level, material.kT, k);
    if first.Err? {
      return first, middle;
    }
    var reflected := ConstructReflectedRay(sqrt, gp.point, ray.direction, normal.value);
    if reflected.Err? {
      return Err(reflected.error), middle;
    }
    var second, last := CalcGlobalEffect(sqrt, setting, middle, reflected.value, level, material.kR, k);
    EvolvedTransitive(lights, middle, last);
    if second.Err? {
      return second, last;
    }
    return Ok(Triples.Add(first.value, second.value)), last;
  }

  /** calcGlobalEffect(ray, level, k, kx): black below the threshold, otherwise the closest hit's colour one level down, scaled by kx. */
  method CalcGlobalEffect(sqrt: real -> real, setting: Setting, lights: seq<LightSource>, ray: Option<Ray>, level: nat, k: Double3, kx: Double3)
      returns (r: Result<Color>, after: seq<LightSource>)
    requires IsSqrt(sqrt) && 2 <= level
    ensures Evolved(lights, after)
    ensures var s := GlobalEffect(sqrt, setting, lights, ray, level, k, kx);
      (r.Err? <==> s.Err?) && (r.Err? ==> r.error == s.error) && (r.Ok? ==> Shade(r.value, after) == s.value)
    decreases level, 0
  {
    EvolvedReflexive(lights);
    var kkx := Product(k, kx);
    if LowerThan(kkx, MinCalcColorK) {
      return Ok(Black), lights;
    }
    if ray.None? {
      if DereferencesRay(setting.geometries) {
        return Err(NullPointer), lights;
      }
      return Ok(Product(setting.background, kx)), lights;
    }
    var closest := ClosestHit(sqrt, setting.geometries, ray.value);
    if closest.Err? {
      return Err(closest.error), lights;
    }
    if closest.value.None? {
      return Ok(Product(setting.background, kx)), lights;
    }
    var color, next := CalcColor(sqrt, setting, lights, closest.value.value, ray.value, level - 1, kkx);
    if color.Err? {
      return color, next;
    }
    return Ok(Product(color.value, kx)), next;
  }

  /** The fixed part of the tracer's work, taken from the scene: its geometries and background. */
  function SettingOf(scene: Scene, useSoftShadows: bool, jitter: nat -> Jitter): (s: Setting)
    ensures s.geometries == scene.geometries && s.background == scene.background
    ensures s.useSoftShadows == useSoftShadows && s.jitter == jitter
  {
    Setting(scene.geometries, scene.background, useSoftShadows, jitter)
  }

  /**
   * renderer.SimpleRayTracer over its scene. traceRay records the
   * soft-shadow choice, and the blackboards of the scene's lights keep the
   * grids the trace builds.
   */
  class SimpleRayTracer {
    var scene: Scene
    var useTheSoftShadows: bool

    /** SimpleRayTracer(scene): soft shadows on until the first trace says otherwise. */
    constructor (scene: Scene)
      ensures this.scene == scene && useTheSoftShadows
    {
      this.scene := scene;
      useTheSoftShadows := true;
    }

    /**
     * traceRay(ray, useSoftShadows): the background when nothing is hit,
     * otherwise the closest hit's colour plus the ambient light. Only the
     * lights' grids change in the scene, and on success they are those of
     * the specification.
     */
    method TraceRay(sqrt: real -> real, jitter: nat -> Jitter, ray: Ray, useSoftShadows: bool) returns (r: Result<Color>)
      requires IsSqrt(sqrt)
      modifies this
      ensures useTheSoftShadows == useSoftShadows
      ensures scene == old(scene).(lights := scene.lights) && Evolved(old(scene).lights, scene.lights)
      ensures var t := TraceRayOf(sqrt, SettingOf(old(scene), useSoftShadows, jitter), old(scene).ambientLight, old(scene).lights, ray);
        (r.Err? <==> t.Err?) && (r.Err? ==> r.error == t.error) && (r.Ok? ==> r.value == t.value.color && scene.lights == t.value.lights)
    {
      useTheSoftShadows := useSoftShadows;
      var setting := SettingOf(scene, useSoftShadows, jitter);
      EvolvedReflexive(scene.lights);
      var closest := ClosestHit(sqrt, scene.geometries, ray);
      if closest.Err? {
        return Err(closest.error);
      }
      if closest.value.None? {
        return Ok(scene.background);
      }
      var color, after := CalcColor(sqrt, setting, scene.lights, closest.value.value, ray, MaxCalcColorLevel, InitialK);
      scene := scene.(lights := after);
      if color.Err? {
        return Err(color.error);
      }
      return Ok(Triples.Add(color.value, scene.ambientLight.intensity));
    }
  }
}
