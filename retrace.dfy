/**
 * Tracing again: a blackboard's grid is built once and then reused, so
 * the only state traceRay changes is settled by the first trace. Every
 * step of the colour computation, started from lights that already carry
 * some of the grids a run builds (and no others), gives that run's colour
 * and ends with lights between that run's and the final ones. In
 * particular a second trace of the same ray gives the same colour and
 * changes no light.
 */
module Retrace {
  import opened Reals
  import opened Wrappers
  import opened Triples
  import opened Vectors
  import opened Rays
  import opened Intersectable
  import opened Lights
  import opened Boards
  import opened Tracer
  import opened Shading

  /** m has some of the grids that z has beyond a, and no others. */
  predicate Within(a: seq<LightSource>, m: seq<LightSource>, z: seq<LightSource>) {
    Evolved(a, m) && Evolved(m, z)
  }

  /** A grid, once built, is never removed, so two evolutions that undo each other change nothing. */
  lemma EvolvedAntisymmetric(a: seq<LightSource>, b: seq<LightSource>)
    requires Evolved(a, b) && Evolved(b, a)
    ensures a == b
  {
    forall j | 0 <= j < |a|
      ensures a[j] == b[j]
    {
    }
  }

  /** Replacing light i by what a step made of it keeps the state within the final lights. */
  lemma WithinAt(a: seq<LightSource>, m: seq<LightSource>, z: seq<LightSource>, i: nat, x: LightSource)
    requires Within(a, m, z) && i < |a| && BoardStep(a[i], x) && BoardStep(x, z[i])
    requires m[i] == a[i] || m[i] == x
    ensures Within(a[i := x], m[i := x], z)
  {
    var a', m' := a[i := x], m[i := x];
    forall j | 0 <= j < |a|
      ensures BoardStep(a'[j], m'[j]) && BoardStep(m'[j], z[j])
    {
    }
  }

  /**
   * The soft-shadow factor of a light whose grid the first query built:
   * asked again with that grid in place, the light gives the same factor
   * and stays as it is.
   */
  lemma SoftShadowReplays(sqrt: real -> real, setting: Setting, light: LightSource, index: nat, p: Point, l: Vector, n: Vector)
    requires IsSqrt(sqrt) && !light.Directional? && BoardOf(light).value.grid.None?
    requires SoftShadow(sqrt, setting, light, index, p, l, n).Ok?
    ensures var s := SoftShadow(sqrt, setting, light, index, p, l, n);
      var u := SoftShadow(sqrt, setting, s.value.1, index, p, l, n);
      u.Ok? && u.value.0 == s.value.0 && u.value.1 == s.value.1
  {
    var s := SoftShadow(sqrt, setting, light, index, p, l, n);
    var built := BoardOf(s.value.1).value;
    assert s.value.1 == WithBoard(light, built);
    WithBoardKeepsLight(sqrt, light, built, p);
    assert PositionOf(s.value.1) == PositionOf(light);
    var frame := SampleFrame(Vectors.Scale(l, -1.0).value);
    assert SetGridSpec(built, PositionOf(light), frame.value.0, frame.value.1, setting.jitter(index)) == (built, None);
  }

  /** transparency, asked again part-way to the final lights: the same factor, and the lights stay within. */
  lemma TransparencyReplays(sqrt: real -> real, setting: Setting, a: seq<LightSource>, i: nat, p: Point, l: Vector, n: Vector,
                            m: seq<LightSource>, z: seq<LightSource>)
    requires IsSqrt(sqrt) && i < |a|
    requires TransparencyOf(sqrt, setting, a, i, p, l, n).Ok?
    requires Within(a, m, z) && Evolved(TransparencyOf(sqrt, setting, a, i, p, l, n).value.1, z)
    ensures var t, u := TransparencyOf(sqrt, setting, a, i, p, l, n), TransparencyOf(sqrt, setting, m, i, p, l, n);
      u.Ok? && u.value.0 == t.value.0 && Within(t.value.1, u.value.1, z)
  {
    EvolvedKeepsLights(sqrt, a, m, i, p);
    if !(a[i].Directional? || !setting.useSoftShadows) {
      assert !m[i].Directional?;
      SoftTransparencyReplays(sqrt, setting, a, i, p, l, n, m, z);
    }
  }

  /** The soft-shadow branch of TransparencyReplays, apart from the rest of transparency. */
  lemma SoftTransparencyReplays(sqrt: real -> real, setting: Setting, a: seq<LightSource>, i: nat, p: Point, l: Vector, n: Vector,
                                m: seq<LightSource>, z: seq<LightSource>)
    requires IsSqrt(sqrt) && i < |a| && !a[i].Directional? && Within(a, m, z)
    requires SoftShadow(sqrt, setting, a[i], i, p, l, n).Ok?
    requires Evolved(a[i := SoftShadow(sqrt, setting, a[i], i, p, l, n).value.1], z)
    ensures !m[i].Directional?
    ensures var s, u := SoftShadow(sqrt, setting, a[i], i, p, l, n), SoftShadow(sqrt, setting, m[i], i, p, l, n);
      u.Ok? && u.value.0 == s.value.0 && Within(a[i := s.value.1], m[i := u.value.1], z)
  {
    var s := SoftShadow(sqrt, setting, a[i], i, p, l, n);
    assert BoardStep(a[i], m[i]);
    assert BoardStep(s.value.1, z[i]);
    if m[i] == a[i] {
      WithinAt(a, m, z, i, s.value.1);
    } else {
      SoftShadowReplays(sqrt, setting, a[i], i, p, l, n);
      assert m[i] == s.value.1;
      WithinAt(a, m, z, i, s.value.1);
      assert m[i := s.value.1] == m;
    }
  }

  /** One light of the light loop, taken again part-way to the final lights: the same colour, and the lights stay within. */
  lemma LightStepReplays(sqrt: real -> real, setting: Setting, a: seq<LightSource>, i: nat,
                         p: Point, n: Vector, v: Vector, nv: real, material: Material, k: Double3, color: Color,
                         m: seq<LightSource>, z: seq<LightSource>)
    requires IsSqrt(sqrt) && i < |a|
    requires LightStep(sqrt, setting, a, i, p, n, v, nv, material, k, color).Ok?
    requires Within(a, m, z) && Evolved(LightStep(sqrt, setting, a, i, p, n, v, nv, material, k, color).value.lights, z)
    ensures var t, u := LightStep(sqrt, setting, a, i, p, n, v, nv, material, k, color), LightStep(sqrt, setting, m, i, p, n, v, nv, material, k, color);
      u.Ok? && u.value.color == t.value.color && Within(t.value.lights, u.value.lights, z)
  {
    EvolvedKeepsLights(sqrt, a, m, i, p);
    var l := GetL(sqrt, a[i], p).value;
    if Dot(n, l) * nv > 0.0 {
      var t := TransparencyOf(sqrt, setting, a, i, p, l, n);
      TransparencyReplays(sqrt, setting, a, i, p, l, n, m, z);
      var u := TransparencyOf(sqrt, setting, m, i, p, l, n);
      EvolvedKeepsLights(sqrt, t.value.1, u.value.1, i, p);
      LitStepAgrees(sqrt, t.value.1, u.value.1, i, p, n, l, Dot(n, l), v, material, k, color, t.value.0);
    }
  }

  /** The tail of a light's step depends on the lights only through that light's intensity. */
  lemma LitStepAgrees(sqrt: real -> real, x: seq<LightSource>, y: seq<LightSource>, i: nat, p: Point, n: Vector, l: Vector, nl: real,
                      v: Vector, material: Material, k: Double3, color: Color, ktr: Double3)
    requires IsSqrt(sqrt) && i < |x| && i < |y| && GetIntensity(sqrt, x[i], p) == GetIntensity(sqrt, y[i], p)
    ensures var s, t := LitStep(sqrt, x, i, p, n, l, nl, v, material, k, color, ktr), LitStep(sqrt, y, i, p, n, l, nl, v, material, k, color, ktr);
      s.Ok? == t.Ok? && (s.Ok? ==> s.value.color == t.value.color)
  {
  }

  /** The light loop from light i on, run again part-way to the final lights: the same colour, and the lights stay within. */
  lemma {:induction false} LightsFromReplays(sqrt: real -> real, setting: Setting, a: seq<LightSource>, i: nat,
                                             p: Point, n: Vector, v: Vector, nv: real, material: Material, k: Double3, color: Color,
                                             m: seq<LightSource>, z: seq<LightSource>)
    requires IsSqrt(sqrt) && i <= |a|
    requires LightsFrom(sqrt, setting, a, i, p, n, v, nv, material, k, color).Ok?
    requires Within(a, m, z) && Evolved(LightsFrom(sqrt, setting, a, i, p, n, v, nv, material, k, color).value.lights, z)
    ensures var t, u := LightsFrom(sqrt, setting, a, i, p, n, v, nv, material, k, color), LightsFrom(sqrt, setting, m, i, p, n, v, nv, material, k, color);
      u.Ok? && u.value.color == t.value.color && Within(t.value.lights, u.value.lights, z)
    decreases |a| - i
  {
    if i < |a| {
      var s := LightStep(sqrt, setting, a, i, p, n, v, nv, material, k, color);
      var rest := LightsFrom(sqrt, setting, s.value.lights, i + 1, p, n, v, nv, material, k, s.value.color);
      EvolvedTransitive(s.value.lights, rest.value.lights, z);
      LightStepReplays(sqrt, setting, a, i, p, n, v, nv, material, k, color, m, z);
      var s' := LightStep(sqrt, setting, m, i, p, n, v, nv, material, k, color);
      LightsFromReplays(sqrt, setting, s.value.lights, i + 1, p, n, v, nv, material, k, s.value.color, s'.value.lights, z);
    }
  }

  /** calcLocalEffects, run again part-way to the final lights: the same colour, and the lights stay within. */
  lemma LocalEffectsReplays(sqrt: real -> real, setting: Setting, a: seq<LightSource>, gp: GeoPoint<Geometry>, ray: Ray, k: Double3,
                            m: seq<LightSource>, z: seq<LightSource>)
    requires IsSqrt(sqrt)
    requires LocalEffects(sqrt, setting, a, gp, ray, k).Ok?
    requires Within(a, m, z) && Evolved(LocalEffects(sqrt, setting, a, gp, ray, k).value.lights, z)
    ensures var t, u := LocalEffects(sqrt, setting, a, gp, ray, k), LocalEffects(sqrt, setting, m, gp, ray, k);
      u.Ok? && u.value.color == t.value.color && Within(t.value.lights, u.value.lights, z)
  {
    var normal := GetNormal(sqrt, gp.geometry, gp.point).value;
    var nv := Dot(normal, ray.direction);
    if nv != 0.0 {
      LightsFromReplays(sqrt, setting, a, 0, gp.point, normal, ray.direction, nv, gp.geometry.material, k, gp.geometry.emission, m, z);
    }
  }

  /** calcColor, run again part-way to the final lights: the same colour, and the lights stay within. */
  lemma ColorAtReplays(sqrt: real -> real, setting: Setting, a: seq<LightSource>, gp: GeoPoint<Geometry>, ray: Ray, level: nat, k: Double3,
                       m: seq<LightSource>, z: seq<LightSource>)
    requires IsSqrt(sqrt) && 1 <= level
    requires ColorAt(sqrt, setting, a, gp, ray, level, k).Ok?
    requires Within(a, m, z) && Evolved(ColorAt(sqrt, setting, a, gp, ray, level, k).value.lights, z)
    ensures var t, u := ColorAt(sqrt, setting, a, gp, ray, level, k), ColorAt(sqrt, setting, m, gp, ray, level, k);
      u.Ok? && u.value.color == t.value.color && Within(t.value.lights, u.value.lights, z)
    decreases level, 2
  {
    var local := LocalEffects(sqrt, setting, a, gp, ray, k);
    if level > 1 {
      var global := GlobalEffects(sqrt, setting, local.value.lights, gp, ray, level, k);
      EvolvedTransitive(local.value.lights, global.value.lights, z);
      LocalEffectsReplays(sqrt, setting, a, gp, ray, k, m, z);
      var local' := LocalEffects(sqrt, setting, m, gp, ray, k);
      GlobalEffectsReplays(sqrt, setting, local.value.lights, gp, ray, level, k, local'.value.lights, z);
    } else {
      LocalEffectsReplays(sqrt, setting, a, gp, ray, k, m, z);
    }
  }

  /** calcGlobalEffects, run again part-way to the final lights: the same colour, and the lights stay within. */
  lemma GlobalEffectsReplays(sqrt: real -> real, setting: Setting, a: seq<LightSource>, gp: GeoPoint<Geometry>, ray: Ray, level: nat, k: Double3,
                             m: seq<LightSource>, z: seq<LightSource>)
    requires IsSqrt(sqrt) && 2 <= level
    requires GlobalEffects(sqrt, setting, a, gp, ray, level, k).Ok?
    requires Within(a, m, z) && Evolved(GlobalEffects(sqrt, setting, a, gp, ray, level, k).value.lights, z)
    ensures var t, u := GlobalEffects(sqrt, setting, a, gp, ray, level, k), GlobalEffects(sqrt, setting, m, gp, ray, level, k);
      u.Ok? && u.value.color == t.value.color && Within(t.value.lights, u.value.lights, z)
    decreases level, 1
  {
    var material := gp.geometry.material;
    var normal := GetNormal(sqrt, gp.geometry, gp.point).value;
    var refracted := Some(ConstructRefractedRay(sqrt, gp.point, ray.direction, normal));
    var reflected := ConstructReflectedRay(sqrt, gp.point, ray.direction, normal).value;
    var first := GlobalEffect(sqrt, setting, a, refracted, level, material.kT, k);
    var second := GlobalEffect(sqrt, setting, first.value.lights, reflected, level, material.kR, k);
    EvolvedTransitive(first.value.lights, second.value.lights, z);
    GlobalEffectReplays(sqrt, setting, a, refracted, level, material.kT, k, m, z);
    var first' := GlobalEffect(sqrt, setting, m, refracted, level, material.kT, k);
    GlobalEffectReplays(sqrt, setting, first.value.lights, reflected, level, material.kR, k, first'.value.lights, z);
  }

  /** calcGlobalEffect, run again part-way to the final lights: the same colour, and the lights stay within. */
  lemma GlobalEffectReplays(sqrt: real -> real, setting: Setting, a: seq<LightSource>, ray: Option<Ray>, level: nat, k: Double3, kx: Double3,
                            m: seq<LightSource>, z: seq<LightSource>)
    requires IsSqrt(sqrt) && 2 <= level
    requires GlobalEffect(sqrt, setting, a, ray, level, k, kx).Ok?
    requires Within(a, m, z) && Evolved(GlobalEffect(sqrt, setting, a, ray, level, k, kx).value.lights, z)
    ensures var t, u := GlobalEffect(sqrt, setting, a, ray, level, k, kx), GlobalEffect(sqrt, setting, m, ray, level, k, kx);
      u.Ok? && u.value.color == t.value.color && Within(t.value.lights, u.value.lights, z)
    decreases level, 0
  {
    if !LowerThan(Product(k, kx), MinCalcColorK) && ray.Some? {
      var closest := FindClosestIntersection(sqrt, setting.geometries, ray.value);
      if closest.value.Some? {
        ColorAtReplays(sqrt, setting, a, closest.value.value, ray.value, level - 1, Product(k, kx), m, z);
      }
    }
  }

  /** traceRay, run again part-way to the final lights: the same colour, and the lights stay within. */
  lemma TraceRayReplays(sqrt: real -> real, setting: Setting, ambientLight: AmbientLight, a: seq<LightSource>, ray: Ray,
                        m: seq<LightSource>, z: seq<LightSource>)
    requires IsSqrt(sqrt)
    requires TraceRayOf(sqrt, setting, ambientLight, a, ray).Ok?
    requires Within(a, m, z) && Evolved(TraceRayOf(sqrt, setting, ambientLight, a, ray).value.lights, z)
    ensures var t, u := TraceRayOf(sqrt, setting, ambientLight, a, ray), TraceRayOf(sqrt, setting, ambientLight, m, ray);
      u.Ok? && u.value.color == t.value.color && Within(t.value.lights, u.value.lights, z)
  {
    var closest := FindClosestIntersection(sqrt, setting.geometries, ray);
    if closest.value.Some? {
      ColorAtReplays(sqrt, setting, a, closest.value.value, ray, MaxCalcColorLevel, InitialK, m, z);
    }
  }

  /**
   * Tracing a ray a second time, with the lights the first trace left,
   * gives the same colour and leaves every light as it is.
   */
  lemma TraceRayIdempotent(sqrt: real -> real, setting: Setting, ambientLight: AmbientLight, lights: seq<LightSource>, ray: Ray)
    requires IsSqrt(sqrt)
    ensures var t := TraceRayOf(sqrt, setting, ambientLight, lights, ray);
      t.Ok? ==> TraceRayOf(sqrt, setting, ambientLight, t.value.lights, ray) == t
  {
    var t := TraceRayOf(sqrt, setting, ambientLight, lights, ray);
    if t.Ok? {
      var after := t.value.lights;
      EvolvedReflexive(after);
      TraceRayReplays(sqrt, setting, ambientLight, lights, ray, after, after);
      var u := TraceRayOf(sqrt, setting, ambientLight, after, ray);
      EvolvedAntisymmetric(after, u.value.lights);
    }
  }
}
