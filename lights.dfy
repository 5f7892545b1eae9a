/**
 * lighting: directional, point and spot light sources and the ambient light.
 * Every light source answers three questions about a point p: the colour it
 * sends to p, the unit direction from the light to p, and the distance to p.
 */
module Lights {
  import opened Reals
  import opened Wrappers
  import opened Triples
  import opened Vectors
  import opened Boards

  // Ambient light

  /** AmbientLight: its intensity is the colour IA scaled by the factor KA. */
  datatype AmbientLight = AmbientLight(intensity: Color)

  function NewAmbientLight(ia: Color, ka: Double3): (a: AmbientLight)
    ensures a.intensity == Product(ia, ka)
  {
    AmbientLight(Product(ia, ka))
  }

  /** AmbientLight.NONE: no ambient light at all. */
  const NoAmbientLight: AmbientLight := AmbientLight(Black)

  /** AmbientLight.NONE is built as black scaled by 0, which is black. */
  lemma NoAmbientLightIsBlackScaled()
    ensures NewAmbientLight(Black, Zero3) == NoAmbientLight
  {
  }

  // Directional light

  /** DirectionalLight: a colour and a direction, the direction stored normalised. */
  datatype DirectionalLight = DirectionalLight(intensity: Color, direction: Vector)

  function NewDirectionalLight(sqrt: real -> real, intensity: Color, direction: Vector): (l: DirectionalLight)
    requires IsSqrt(sqrt)
    ensures l.intensity == intensity
    ensures LengthSquared(l.direction) == 1.0 && Parallel(l.direction, direction) && Dot(l.direction, direction) > 0.0
  {
    DirectionalLight(intensity, Normalize(sqrt, direction))
  }

  /** DirectionalLight.getIntensity: the same colour at every point. */
  function DirectionalIntensity(l: DirectionalLight, p: Point): (c: Color)
    ensures c == l.intensity
  {
    l.intensity
  }

  /** DirectionalLight.getL: the stored direction normalised again, the same unit vector at every point. */
  function DirectionalL(sqrt: real -> real, l: DirectionalLight, p: Point): (v: Vector)
    requires IsSqrt(sqrt)
    ensures LengthSquared(v) == 1.0
    ensures LengthSquared(l.direction) == 1.0 ==> v == l.direction
  {
    if LengthSquared(l.direction) == 1.0 then
      NormalizeUnit(sqrt, l.direction);
      Normalize(sqrt, l.direction)
    else
      Normalize(sqrt, l.direction)
  }

  /** DirectionalLight.getDistance: the light is infinitely far away. */
  function DirectionalDistance(l: DirectionalLight, p: Point): (d: ExtReal)
    ensures d == PositiveInfinity
  {
    PositiveInfinity
  }

  // Point light

  /** The fields of a PointLight: colour, position, the attenuation coefficients and its blackboard. */
  datatype PointSource = PointSource(intensity: Color, position: Point, kC: real, kL: real, kQ: real, board: BoardState)

  /** The blackboard a new point light installs: Blackboard(0, 0, 0) followed by width 4, height 4, k 9. */
  const PointLightBoard: BoardState := BoardState(9.0, 4.0, 4.0, None, true)

  /** kC + kL d + kQ d^2 for the distance d from p to the light. */
  function Attenuation(sqrt: real -> real, l: PointSource, p: Point): real
    requires IsSqrt(sqrt)
  {
    l.kC + l.kL * Distance(sqrt, p, l.position) + l.kQ * DistanceSquared(p, l.position)
  }

  /**
   * PointLight.getIntensity: the colour divided by the attenuation; a zero
   * attenuation, an infinite colour in the source, is NonFinite.
   */
  function PointIntensity(sqrt: real -> real, l: PointSource, p: Point): (c: Result<Color>)
    requires IsSqrt(sqrt)
    ensures c.Ok? <==> Attenuation(sqrt, l, p) != 0.0
    ensures c.Err? ==> c.error == NonFinite
    ensures c.Ok? ==> Triples.Scale(c.value, Attenuation(sqrt, l, p)) == l.intensity
  {
    var a := Attenuation(sqrt, l, p);
    if a == 0.0 then Err(NonFinite)
    else
      var c := Triples.Scale(l.intensity, 1.0 / a);
      ScaleInverse(l.intensity, a);
      Ok(c)
  }

  lemma ScaleInverse(c: Color, a: real)
    requires a != 0.0
    ensures Triples.Scale(Triples.Scale(c, 1.0 / a), a) == c
  {
    var f := 1.0 / a;
    assert f * a == 1.0;
    assert c.d1 * f * a == c.d1 * (f * a);
    assert c.d2 * f * a == c.d2 * (f * a);
    assert c.d3 * f * a == c.d3 * (f * a);
  }

  /** With the default coefficients kC = 1, kL = 0, kQ = 0 the light reaches every point at full intensity. */
  lemma DefaultAttenuationIsNone(sqrt: real -> real, l: PointSource, p: Point)
    requires IsSqrt(sqrt)
    requires l.kC == 1.0 && l.kL == 0.0 && l.kQ == 0.0
    ensures PointIntensity(sqrt, l, p) == Ok(l.intensity)
  {
    assert Attenuation(sqrt, l, p) == 1.0;
    assert Triples.Scale(l.intensity, 1.0 / 1.0) == l.intensity;
  }

  /**
   * With kC >= 1 and kL, kQ >= 0 the light only dims with distance: every
   * non-negative component of the colour keeps between 0 and its base value.
   */
  lemma AttenuationDims(sqrt: real -> real, l: PointSource, p: Point)
    requires IsSqrt(sqrt)
    requires 1.0 <= l.kC && 0.0 <= l.kL && 0.0 <= l.kQ
    requires AtMostComponents(Zero3, l.intensity)
    ensures PointIntensity(sqrt, l, p).Ok?
    ensures AtMostComponents(Zero3, PointIntensity(sqrt, l, p).value)
    ensures AtMostComponents(PointIntensity(sqrt, l, p).value, l.intensity)
  {
    AttenuationAtLeastOne(sqrt, l, p);
    var a := Attenuation(sqrt, l, p);
    var f := 1.0 / a;
    assert 0.0 < f <= 1.0;
    assert PointIntensity(sqrt, l, p).value == Triples.Scale(l.intensity, f);
    ScaleFraction(l.intensity, f);
  }

  lemma AttenuationAtLeastOne(sqrt: real -> real, l: PointSource, p: Point)
    requires IsSqrt(sqrt)
    requires 1.0 <= l.kC && 0.0 <= l.kL && 0.0 <= l.kQ
    ensures 1.0 <= Attenuation(sqrt, l, p)
  {
    var d := Distance(sqrt, p, l.position);
    var ds := DistanceSquared(p, l.position);
    DistanceSquaredProperties(p, l.position);
    MulNonNegative(l.kL, d);
    MulNonNegative(l.kQ, ds);
    assert Attenuation(sqrt, l, p) == l.kC + Mul(l.kL, d) + Mul(l.kQ, ds);
  }

  /** A fraction of a non-negative colour stays between black and that colour. */
  lemma ScaleFraction(c: Color, f: real)
    requires AtMostComponents(Zero3, c) && 0.0 <= f <= 1.0
    ensures AtMostComponents(Zero3, Triples.Scale(c, f)) && AtMostComponents(Triples.Scale(c, f), c)
  {
    FractionOf(c.d1, f);
    FractionOf(c.d2, f);
    FractionOf(c.d3, f);
    var r := Triples.Scale(c, f);
    assert r.d1 == Mul(c.d1, f) && r.d2 == Mul(c.d2, f) && r.d3 == Mul(c.d3, f);
  }

  lemma FractionOf(x: real, f: real)
    requires 0.0 <= x && 0.0 <= f <= 1.0
    ensures 0.0 <= Mul(x, f) <= x
  {
    MulNonNegative(x, f);
    MulNonNegative(x, 1.0 - f);
    assert Mul(x, 1.0 - f) == x - Mul(x, f);
  }

  /**
   * PointLight.getL: the unit vector from the light's position towards p;
   * it fails at the position itself.
   */
  function PointL(sqrt: real -> real, l: PointSource, p: Point): (v: Result<Vector>)
    requires IsSqrt(sqrt)
    ensures v.Ok? <==> p != l.position
    ensures v.Err? ==> v.error == ZeroVectorError
    ensures v.Ok? ==>
      LengthSquared(v.value) == 1.0 && Parallel(v.value, Minus(p, l.position)) && Dot(v.value, Minus(p, l.position)) > 0.0
  {
    var d := Subtract(p, l.position);
    if d.Err? then Err(d.error) else Ok(Normalize(sqrt, d.value))
  }

  /** PointLight.getDistance: the absolute value of the Euclidean distance, which is that distance. */
  function PointDistance(sqrt: real -> real, l: PointSource, p: Point): (d: ExtReal)
    requires IsSqrt(sqrt)
    ensures d.Finite? && 0.0 <= d.value && Mul(d.value, d.value) == DistanceSquared(p, l.position)
    ensures d.value == 0.0 <==> p == l.position
  {
    var r := Distance(sqrt, p, l.position);
    DistanceRoot(p, l.position, r);
    Finite(Abs(r))
  }

  /** The non-negative root r of the squared distance is its own absolute value, and 0 only at the point itself. */
  lemma DistanceRoot(p: Point, q: Point, r: real)
    requires 0.0 <= r && r * r == DistanceSquared(p, q)
    ensures Abs(r) == r && Mul(r, r) == DistanceSquared(p, q)
    ensures r == 0.0 <==> p == q
  {
    DistanceSquaredProperties(p, q);
    SquareZero(r);
  }

  lemma SquareZero(r: real)
    ensures r * r == 0.0 <==> r == 0.0
  {
    if r != 0.0 {
      SquarePositive(r);
    }
  }

  // Spot light

  /** A SpotLight: a point light and a direction, stored normalised. */
  datatype SpotSource = SpotSource(light: PointSource, direction: Vector)

  /**
   * SpotLight.getIntensity: the point light's colour scaled by
   * max(0, direction . l) for the unit vector l from the light to p. The
   * zero-vector exception at the position itself takes precedence over a
   * non-finite colour, as in the source.
   */
  function SpotIntensity(sqrt: real -> real, s: SpotSource, p: Point): (c: Result<Color>)
    requires IsSqrt(sqrt)
    ensures p == s.light.position ==> c == Err(ZeroVectorError)
    ensures p != s.light.position ==>
      (c.Ok? <==> PointIntensity(sqrt, s.light, p).Ok?) &&
      (c.Err? ==> c.error == NonFinite)
    ensures c.Ok? ==> exists f :: 0.0 <= f && c.value == Triples.Scale(PointIntensity(sqrt, s.light, p).value, f)
  {
    var v := Subtract(p, s.light.position);
    if v.Err? then Err(v.error)
    else
      var base := PointIntensity(sqrt, s.light, p);
      if base.Err? then base
      else Ok(Triples.Scale(base.value, SpotFactor(sqrt, s, p)))
  }

  /** max(0, direction . normalize(p - position)), which is 0 exactly when p is not in front of the spot. */
  function SpotFactor(sqrt: real -> real, s: SpotSource, p: Point): (f: real)
    requires IsSqrt(sqrt)
    requires p != s.light.position
    ensures 0.0 <= f
    ensures f == 0.0 <==> Dot(s.direction, Minus(p, s.light.position)) <= 0.0
    ensures LengthSquared(s.direction) == 1.0 ==> f <= 1.0
  {
    var v: Vector := Minus(p, s.light.position);
    var l := Normalize(sqrt, v);
    NormalizeKeepsDotSign(sqrt, v, s.direction);
    UnitDotAtMostOne(s.direction, l);
    Max(0.0, Dot(s.direction, l))
  }

  /** The dot product of two unit vectors is at most 1. */
  lemma UnitDotAtMostOne(u: Point, w: Point)
    requires LengthSquared(w) == 1.0
    ensures LengthSquared(u) == 1.0 ==> Dot(u, w) <= 1.0
  {
    CauchySchwarz(u, w);
    var x := Dot(u, w);
    if 0.0 <= x {
      SquareStrictlyMonotone(1.0, x);
    }
  }

  /** Behind the spot (direction . (p - position) <= 0) the light sends black. */
  lemma SpotDarkBehind(sqrt: real -> real, s: SpotSource, p: Point)
    requires IsSqrt(sqrt)
    requires p != s.light.position && Dot(s.direction, Minus(p, s.light.position)) <= 0.0
    requires PointIntensity(sqrt, s.light, p).Ok?
    ensures SpotIntensity(sqrt, s, p) == Ok(Black)
  {
    assert SpotFactor(sqrt, s, p) == 0.0;
  }

  /** In front of a unit-direction spot the colour is a fraction of the point light's colour. */
  lemma SpotAtMostPoint(sqrt: real -> real, s: SpotSource, p: Point)
    requires IsSqrt(sqrt)
    requires LengthSquared(s.direction) == 1.0 && p != s.light.position
    requires PointIntensity(sqrt, s.light, p).Ok?
    requires AtMostComponents(Zero3, PointIntensity(sqrt, s.light, p).value)
    ensures SpotIntensity(sqrt, s, p).Ok?
    ensures AtMostComponents(Zero3, SpotIntensity(sqrt, s, p).value)
    ensures AtMostComponents(SpotIntensity(sqrt, s, p).value, PointIntensity(sqrt, s.light, p).value)
  {
    var base := PointIntensity(sqrt, s.light, p).value;
    var f := SpotFactor(sqrt, s, p);
    assert SpotIntensity(sqrt, s, p) == Ok(Triples.Scale(base, f));
    ScaleFraction(base, f);
  }

  /** SpotLight.getL is the point light's formula. */
  function SpotL(sqrt: real -> real, s: SpotSource, p: Point): (v: Result<Vector>)
    requires IsSqrt(sqrt)
    ensures v == PointL(sqrt, s.light, p)
  {
    var d := Subtract(p, s.light.position);
    if d.Err? then Err(d.error) else Ok(Normalize(sqrt, d.value))
  }

  /** SpotLight.getDistance delegates to the point light. */
  function SpotDistance(sqrt: real -> real, s: SpotSource, p: Point): (d: ExtReal)
    requires IsSqrt(sqrt)
    ensures d == PointDistance(sqrt, s.light, p)
  {
    PointDistance(sqrt, s.light, p)
  }

  // The LightSource interface

  /** A LightSource: a DirectionalLight, a PointLight (Positional) or a SpotLight. */
  datatype LightSource =
    | Directional(directional: DirectionalLight)
    | Positional(point: PointSource)
    | Spot(spot: SpotSource)

  /** LightSource.getIntensity, dispatched on the kind of light. */
  function GetIntensity(sqrt: real -> real, l: LightSource, p: Point): (c: Result<Color>)
    requires IsSqrt(sqrt)
    ensures l.Directional? ==> c == Ok(l.directional.intensity)
    ensures l.Positional? ==> c == PointIntensity(sqrt, l.point, p)
    ensures l.Spot? ==> c == SpotIntensity(sqrt, l.spot, p)
  {
    match l
    case Directional(d) => Ok(DirectionalIntensity(d, p))
    case Positional(pl) => PointIntensity(sqrt, pl, p)
    case Spot(s) => SpotIntensity(sqrt, s, p)
  }

  /** LightSource.getL: a unit vector, failing only at a point or spot light's position. */
  function GetL(sqrt: real -> real, l: LightSource, p: Point): (v: Result<Vector>)
    requires IsSqrt(sqrt)
    ensures v.Ok? ==> LengthSquared(v.value) == 1.0
    ensures v.Err? <==> (l.Positional? && p == l.point.position) || (l.Spot? && p == l.spot.light.position)
  {
    match l
    case Directional(d) => Ok(DirectionalL(sqrt, d, p))
    case Positional(pl) => PointL(sqrt, pl, p)
    case Spot(s) => SpotL(sqrt, s, p)
  }

  /** LightSource.getDistance: infinite for directional lights, otherwise the finite non-negative distance. */
  function GetDistance(sqrt: real -> real, l: LightSource, p: Point): (d: ExtReal)
    requires IsSqrt(sqrt)
    ensures d.PositiveInfinity? <==> l.Directional?
    ensures d.Finite? ==> 0.0 <= d.value
  {
    match l
    case Directional(dl) => DirectionalDistance(dl, p)
    case Positional(pl) => PointDistance(sqrt, pl, p)
    case Spot(s) => SpotDistance(sqrt, s, p)
  }

  /** The blackboard of a point or spot light. */
  function BoardOf(l: LightSource): (b: Option<BoardState>)
    ensures b.Some? <==> !l.Directional?
  {
    match l
    case Directional(_) => None
    case Positional(pl) => Some(pl.board)
    case Spot(s) => Some(s.light.board)
  }

  /** The light with its blackboard replaced; everything else is kept. */
  function WithBoard(l: LightSource, b: BoardState): (r: LightSource)
    ensures BoardOf(r) == (if l.Directional? then None else Some(b))
    ensures r.Directional? == l.Directional? && r.Positional? == l.Positional? && r.Spot? == l.Spot?
  {
    match l
    case Directional(_) => l
    case Positional(pl) => Positional(pl.(board := b))
    case Spot(s) => Spot(s.(light := s.light.(board := b)))
  }

  /** Replacing the blackboard changes none of the light's three answers. */
  lemma WithBoardKeepsLight(sqrt: real -> real, l: LightSource, b: BoardState, p: Point)
    requires IsSqrt(sqrt)
    ensures GetIntensity(sqrt, WithBoard(l, b), p) == GetIntensity(sqrt, l, p)
    ensures GetL(sqrt, WithBoard(l, b), p) == GetL(sqrt, l, p)
    ensures GetDistance(sqrt, WithBoard(l, b), p) == GetDistance(sqrt, l, p)
  {
    match l
    case Directional(_) =>
    case Positional(pl) =>
      assert Attenuation(sqrt, pl.(board := b), p) == Attenuation(sqrt, pl, p);
    case Spot(s) =>
      var s' := s.(light := s.light.(board := b));
      assert Attenuation(sqrt, s'.light, p) == Attenuation(sqrt, s.light, p);
  }

  // The mutable light classes

  /** A PointLight object: its setters change the attenuation coefficients in place and return the object. */
  class PointLight {
    var intensity: Color
    var position: Point
    var kC: real
    var kL: real
    var kQ: real
    var blackboard: Blackboard

    function State(): PointSource
      reads this, blackboard
    {
      PointSource(intensity, position, kC, kL, kQ, blackboard.State())
    }

    /** PointLight(intensity, position): kC = 1, kL = 0, kQ = 0 and a fresh 4 x 4 blackboard with k = 9 and no grid. */
    constructor (intensity: Color, position: Point)
      ensures State() == PointSource(intensity, position, 1.0, 0.0, 0.0, PointLightBoard)
      ensures fresh(blackboard)
    {
      this.intensity := intensity;
      this.position := position;
      kC := 1.0;
      kL := 0.0;
      kQ := 0.0;
      var board := new Blackboard(0.0, 0.0, 0.0);
      board.SetWidth(4.0);
      board.SetHeight(4.0);
      board.SetK(9.0);
      blackboard := board;
    }

    method SetKq(kQ: real) returns (self: PointLight)
      modifies this
      ensures self == this && blackboard == old(blackboard)
      ensures State() == old(State()).(kQ := kQ)
    {
      this.kQ := kQ;
      return this;
    }

    method SetKc(kC: real) returns (self: PointLight)
      modifies this
      ensures self == this && blackboard == old(blackboard)
      ensures State() == old(State()).(kC := kC)
    {
      this.kC := kC;
      return this;
    }

    method SetKl(kL: real) returns (self: PointLight)
      modifies this
      ensures self == this && blackboard == old(blackboard)
      ensures State() == old(State()).(kL := kL)
    {
      this.kL := kL;
      return this;
    }
  }

  /** A SpotLight object: the point light it extends, and its normalised direction. */
  class SpotLight {
    var light: PointLight
    var direction: Vector

    function State(): SpotSource
      reads this, light, light.blackboard
    {
      SpotSource(light.State(), direction)
    }

    /** SpotLight(intensity, position, direction): a new point light and the normalised direction. */
    constructor (sqrt: real -> real, intensity: Color, position: Point, direction: Vector)
      requires IsSqrt(sqrt)
      ensures State() == SpotSource(PointSource(intensity, position, 1.0, 0.0, 0.0, PointLightBoard), Normalize(sqrt, direction))
      ensures LengthSquared(State().direction) == 1.0 && Dot(State().direction, direction) > 0.0
      ensures fresh(light) && fresh(light.blackboard)
    {
      light := new PointLight(intensity, position);
      this.direction := Normalize(sqrt, direction);
    }

    /** The setters delegate to the point light's and return this spot light. */
    method SetKc(kC: real) returns (self: SpotLight)
      modifies light
      ensures self == this && light.blackboard == old(light.blackboard)
      ensures State() == old(State()).(light := old(State()).light.(kC := kC))
    {
      var _ := light.SetKc(kC);
      return this;
    }

    method SetKl(kL: real) returns (self: SpotLight)
      modifies light
      ensures self == this && light.blackboard == old(light.blackboard)
      ensures State() == old(State()).(light := old(State()).light.(kL := kL))
    {
      var _ := light.SetKl(kL);
      return this;
    }

    method SetKq(kQ: real) returns (self: SpotLight)
      modifies light
      ensures self == this && light.blackboard == old(light.blackboard)
      ensures State() == old(State()).(light := old(State()).light.(kQ := kQ))
    {
      var _ := light.SetKq(kQ);
      return this;
    }
  }
}
