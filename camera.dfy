/**
 * renderer.Camera and its Builder: a position, an orthonormal frame
 * (vTo, vUp, vRight) and a view plane at some distance, assembled by a
 * builder that validates as it goes and once more in build, and the
 * construction of the ray through a pixel of the view plane. The image
 * writer and the ray tracer are carried but not inspected, so the camera is
 * generic in their types.
 */
module Cameras {
  import opened Reals
  import opened Wrappers
  import opened Vectors
  import opened Rays

  /** The fields of a Camera; null references are None. */
  datatype CameraState<W, T> = CameraState(
    p0: Option<Point>,
    vRight: Option<Vector>,
    vUp: Option<Vector>,
    vTo: Option<Vector>,
    width: real,
    height: real,
    distance: real,
    imageWriter: Option<W>,
    rayTracer: Option<T>,
    useSoftShadows: bool)

  /** A freshly created camera: no references, a 0 x 0 view plane at distance 0, soft shadows on. */
  function InitialState<W, T>(): (c: CameraState<W, T>)
    ensures c.p0.None? && c.vRight.None? && c.vUp.None? && c.vTo.None?
    ensures c.width == 0.0 && c.height == 0.0 && c.distance == 0.0
    ensures c.imageWriter.None? && c.rayTracer.None? && c.useSoftShadows
  {
    CameraState(None, None, None, None, 0.0, 0.0, 0.0, None, None, true)
  }

  /** Three unit vectors, pairwise orthogonal. */
  predicate Orthonormal(a: Point, b: Point, c: Point) {
    LengthSquared(a) == 1.0 && LengthSquared(b) == 1.0 && LengthSquared(c) == 1.0 &&
    Dot(a, b) == 0.0 && Dot(a, c) == 0.0 && Dot(b, c) == 0.0
  }

  /** The camera holds all three direction vectors and they form an orthonormal frame. */
  predicate HasFrame<W, T>(c: CameraState<W, T>) {
    c.vTo.Some? && c.vUp.Some? && c.vRight.Some? && Orthonormal(c.vTo.value, c.vUp.value, c.vRight.value)
  }

  // Builder steps, as functions of the camera's fields

  /**
   * Builder.setDirection: vTo and vUp must be exactly orthogonal; the camera
   * then stores both normalised and the normalised vTo x vUp as vRight,
   * which makes an orthonormal frame. A failure changes nothing.
   */
  function DirectionStep<W, T>(sqrt: real -> real, c: CameraState<W, T>, vTo: Vector, vUp: Vector): (r: Result<CameraState<W, T>>)
    requires IsSqrt(sqrt)
    ensures r.Ok? <==> Dot(vTo, vUp) == 0.0
    ensures r.Err? ==> r.error == IllegalArgument("Vectors TO and UP must be perpendicular")
    ensures r.Ok? ==> HasFrame(r.value)
    ensures r.Ok? ==> r.value.vTo == Some(Normalize(sqrt, vTo)) && r.value.vUp == Some(Normalize(sqrt, vUp))
    ensures r.Ok? ==> r.value.(vTo := c.vTo, vUp := c.vUp, vRight := c.vRight) == c
    ensures r.Ok? ==> Parallel(r.value.vRight.value, CrossOf(vTo, vUp)) && Dot(r.value.vRight.value, CrossOf(vTo, vUp)) > 0.0
  {
    if Dot(vTo, vUp) != 0.0 then Err(IllegalArgument("Vectors TO and UP must be perpendicular"))
    else
      OrthogonalNotParallel(vTo, vUp);
      var right := Cross(vTo, vUp).value;
      FrameOfOrthogonal(sqrt, vTo, vUp, right);
      Ok(c.(vTo := Some(Normalize(sqrt, vTo)), vUp := Some(Normalize(sqrt, vUp)), vRight := Some(Normalize(sqrt, right))))
  }

  /** Normalising orthogonal vTo, vUp and their cross product gives an orthonormal frame. */
  lemma FrameOfOrthogonal(sqrt: real -> real, vTo: Vector, vUp: Vector, right: Vector)
    requires IsSqrt(sqrt)
    requires Dot(vTo, vUp) == 0.0 && right == CrossOf(vTo, vUp)
    ensures Orthonormal(Normalize(sqrt, vTo), Normalize(sqrt, vUp), Normalize(sqrt, right))
  {
    var t, u, r := Normalize(sqrt, vTo), Normalize(sqrt, vUp), Normalize(sqrt, right);
    CrossOrthogonal(vTo, vUp);
    OrthogonalAfterNormalizing(sqrt, vTo, vUp);
    DotSymmetric(right, vTo);
    OrthogonalAfterNormalizing(sqrt, vTo, right);
    DotSymmetric(right, vUp);
    OrthogonalAfterNormalizing(sqrt, vUp, right);
  }

  /** Normalising both of two orthogonal vectors keeps them orthogonal. */
  lemma OrthogonalAfterNormalizing(sqrt: real -> real, a: Vector, b: Vector)
    requires IsSqrt(sqrt)
    requires Dot(a, b) == 0.0
    ensures Dot(Normalize(sqrt, a), Normalize(sqrt, b)) == 0.0
  {
    DotSymmetric(a, b);
    NormalizeKeepsDotSign(sqrt, a, b);
    DotSymmetric(b, Normalize(sqrt, a));
    NormalizeKeepsDotSign(sqrt, b, Normalize(sqrt, a));
  }

  /** Builder.setVpSize: a zero width, then a zero height, is refused before either is stored. */
  function VpSizeStep<W, T>(c: CameraState<W, T>, width: real, height: real): (r: Result<CameraState<W, T>>)
    ensures r.Ok? <==> width != 0.0 && height != 0.0
    ensures width == 0.0 ==> r == Err(IllegalArgument("Illegal width, cannot be 0"))
    ensures width != 0.0 && height == 0.0 ==> r == Err(IllegalArgument("Illegal height, cannot be 0"))
    ensures r.Ok? ==> (r.value.width == width && r.value.height == height &&
      r.value.(width := c.width, height := c.height) == c)
  {
    if width == 0.0 then Err(IllegalArgument("Illegal width, cannot be 0"))
    else if height == 0.0 then Err(IllegalArgument("Illegal height, cannot be 0"))
    else Ok(c.(width := width, height := height))
  }

  /** Builder.setVpDistance: only 0 is refused; negative distances pass until build. */
  function VpDistanceStep<W, T>(c: CameraState<W, T>, distance: real): (r: Result<CameraState<W, T>>)
    ensures r.Ok? <==> distance != 0.0
    ensures r.Err? ==> r.error == IllegalArgument("Illegal distance, cannot be 0")
    ensures r.Ok? ==> r.value.distance == distance && r.value.(distance := c.distance) == c
  {
    if distance == 0.0 then Err(IllegalArgument("Illegal distance, cannot be 0"))
    else Ok(c.(distance := distance))
  }

  /** Everything build demands: the three vectors, a positive view plane and distance, a tracer and a writer. */
  predicate Complete<W, T>(c: CameraState<W, T>) {
    c.vTo.Some? && c.vRight.Some? && c.vUp.Some? &&
    0.0 < c.height && 0.0 < c.width && 0.0 < c.distance &&
    c.rayTracer.Some? && c.imageWriter.Some?
  }

  /** The three direction vectors are set. */
  predicate HasVectors<W, T>(c: CameraState<W, T>) {
    c.vTo.Some? && c.vRight.Some? && c.vUp.Some?
  }

  /**
   * The checks of Builder.build in their fixed order: the missing vectors
   * (vTo, vRight, vUp), the zero sizes (height, width, distance), a negative
   * one, the missing ray tracer, the missing image writer. The location p0
   * is not checked.
   */
  function BuildCheck<W, T>(c: CameraState<W, T>): (e: Option<Error>)
    ensures e.None? <==> Complete(c)
    ensures c.vTo.None? ==> e == Some(MissingResource("in vTo vector"))
    ensures c.vTo.Some? && c.vRight.None? ==> e == Some(MissingResource("in vRight vector"))
    ensures c.vTo.Some? && c.vRight.Some? && c.vUp.None? ==> e == Some(MissingResource("in vUp vector"))
    ensures HasVectors(c) && c.height == 0.0 ==> e == Some(MissingResource("in camera-height"))
    ensures HasVectors(c) && c.height != 0.0 && c.width == 0.0 ==> e == Some(MissingResource("in camera-width"))
    ensures HasVectors(c) && c.height != 0.0 && c.width != 0.0 && c.distance == 0.0 ==> e == Some(MissingResource("in camera-distance"))
    ensures (HasVectors(c) && c.height != 0.0 && c.width != 0.0 && c.distance != 0.0 &&
      (c.distance < 0.0 || c.width < 0.0 || c.height < 0.0)) ==> e == Some(Runtime("ERROR, no parameter can be below 0"))
    ensures HasVectors(c) && 0.0 < c.height && 0.0 < c.width && 0.0 < c.distance && c.rayTracer.None? ==>
      e == Some(MissingResource("in ray Tracer"))
    ensures HasVectors(c) && 0.0 < c.height && 0.0 < c.width && 0.0 < c.distance && c.rayTracer.Some? && c.imageWriter.None? ==>
      e == Some(MissingResource("in image writer"))
  {
    if c.vTo.None? then Some(MissingResource("in vTo vector"))
    else if c.vRight.None? then Some(MissingResource("in vRight vector"))
    else if c.vUp.None? then Some(MissingResource("in vUp vector"))
    else if c.height == 0.0 then Some(MissingResource("in camera-height"))
    else if c.width == 0.0 then Some(MissingResource("in camera-width"))
    else if c.distance == 0.0 then Some(MissingResource("in camera-distance"))
    else if c.distance < 0.0 || c.width < 0.0 || c.height < 0.0 then Some(Runtime("ERROR, no parameter can be below 0"))
    else if c.rayTracer.None? then Some(MissingResource("in ray Tracer"))
    else if c.imageWriter.None? then Some(MissingResource("in image writer"))
    else None
  }

  /**
   * Builder.build: after the checks, vRight is derived again as the
   * normalised vTo x vUp; the built camera is a copy of these fields.
   */
  function BuildStep<W, T>(sqrt: real -> real, c: CameraState<W, T>): (r: Result<CameraState<W, T>>)
    requires IsSqrt(sqrt)
    ensures BuildCheck(c).Some? ==> r == Err(BuildCheck(c).value)
    ensures r.Ok? ==> Complete(r.value) && r.value.(vRight := c.vRight) == c
    ensures r.Ok? ==> (Parallel(r.value.vRight.value, CrossOf(c.vTo.value, c.vUp.value)) &&
      Dot(r.value.vRight.value, CrossOf(c.vTo.value, c.vUp.value)) > 0.0)
    ensures Complete(c) && Dot(c.vTo.value, c.vUp.value) == 0.0 ==> r.Ok?
    ensures r.Ok? && UnitOrthogonal(c.vTo.value, c.vUp.value) ==> HasFrame(r.value)
  {
    var e := BuildCheck(c);
    if e.Some? then Err(e.value)
    else
      var right := Cross(c.vTo.value, c.vUp.value);
      if right.Err? then
        BuildCrossFails(c.vTo.value, c.vUp.value);
        Err(right.error)
      else
        BuiltFrame(sqrt, c.vTo.value, c.vUp.value);
        Ok(c.(vRight := Some(Normalize(sqrt, right.value))))
  }

  /** Two unit vectors at a right angle. */
  predicate UnitOrthogonal(a: Point, b: Point) {
    LengthSquared(a) == 1.0 && LengthSquared(b) == 1.0 && Dot(a, b) == 0.0
  }

  /** The cross product in build fails only for operands that are not orthogonal. */
  lemma BuildCrossFails(u: Vector, v: Vector)
    ensures Parallel(u, v) ==> Dot(u, v) != 0.0
  {
    if Dot(u, v) == 0.0 {
      OrthogonalNotParallel(u, v);
    }
  }

  /** Two unit orthogonal vectors and their normalised cross product form an orthonormal frame. */
  lemma BuiltFrame(sqrt: real -> real, vTo: Vector, vUp: Vector)
    requires IsSqrt(sqrt)
    ensures UnitOrthogonal(vTo, vUp) ==> !Parallel(vTo, vUp) && Orthonormal(vTo, vUp, Normalize(sqrt, CrossOf(vTo, vUp)))
  {
    if UnitOrthogonal(vTo, vUp) {
      OrthogonalNotParallel(vTo, vUp);
      FrameOfOrthogonal(sqrt, vTo, vUp, CrossOf(vTo, vUp));
      NormalizeUnit(sqrt, vTo);
      NormalizeUnit(sqrt, vUp);
    }
  }

  // Pixels and rays

  /** xJ: the horizontal offset of column j from the centre of the view plane (Rx is width / nY). */
  function ColumnOffset<W, T>(c: CameraState<W, T>, nX: int, nY: int, j: int): real
    requires nY != 0
  {
    ((j as real) - ((nX - 1) as real) / 2.0) * (c.width / (nY as real))
  }

  /** yI: the vertical offset of row i from the centre, rows growing downwards (Ry is height / nX). */
  function RowOffset<W, T>(c: CameraState<W, T>, nX: int, nY: int, i: int): real
    requires nX != 0
  {
    -((i as real) - ((nY - 1) as real) / 2.0) * (c.height / (nX as real))
  }

  /** A vector that may be missing; a move along a missing vector is only possible by 0. */
  function OrOrigin(v: Option<Vector>): Point {
    if v.Some? then v.value else Origin
  }

  /** The pixel's position relative to the camera: distance along vTo, xJ along vRight and yI along vUp. */
  function PixelOffset<W, T>(c: CameraState<W, T>, nX: int, nY: int, j: int, i: int): Point
    requires nX != 0 && nY != 0
  {
    Plus(Plus(Times(OrOrigin(c.vTo), c.distance), Times(OrOrigin(c.vRight), ColumnOffset(c, nX, nY, j))),
         Times(OrOrigin(c.vUp), RowOffset(c, nX, nY, i)))
  }

  /** A move along an optional vector by x, skipped when x is 0 (if (x != 0) p = p.add(v.scale(x))). */
  function MoveAlong(p: Point, v: Option<Vector>, x: real): (r: Result<Point>)
    ensures r.Err? <==> x != 0.0 && v.None?
    ensures r.Err? ==> r.error == NullPointer
    ensures r.Ok? ==> Minus(r.value, p) == Times(OrOrigin(v), x)
  {
    if x == 0.0 then Ok(p)
    else if v.None? then Err(NullPointer)
    else Ok(Add(p, Scale(v.value, x).value))
  }

  /**
   * The centre of pixel (j, i): the view plane's centre p0 + distance vTo,
   * moved along vRight and then along vUp; a move along a missing vector is
   * a null dereference.
   */
  function PixelCentre<W, T>(c: CameraState<W, T>, nX: int, nY: int, j: int, i: int): (r: Result<Point>)
    requires c.p0.Some? && c.vTo.Some? && c.distance != 0.0 && nX != 0 && nY != 0
    ensures r.Err? <==> (ColumnOffset(c, nX, nY, j) != 0.0 && c.vRight.None?) || (RowOffset(c, nX, nY, i) != 0.0 && c.vUp.None?)
    ensures r.Err? ==> r.error == NullPointer
    ensures r.Ok? ==> Minus(r.value, c.p0.value) == PixelOffset(c, nX, nY, j, i)
  {
    var pc := Add(c.p0.value, Scale(c.vTo.value, c.distance).value);
    var right := MoveAlong(pc, c.vRight, ColumnOffset(c, nX, nY, j));
    if right.Err? then Err(right.error)
    else MoveAlong(right.value, c.vUp, RowOffset(c, nX, nY, i))
  }

  /**
   * Camera.constructRay: the ray from p0 through the centre of pixel (j, i)
   * of an nX x nY image. The argument vTo.scale(distance) is evaluated
   * before p0 is dereferenced: a missing vTo is a null dereference, then a
   * zero distance makes vTo.scale(0) fail, and only then is a missing p0 a
   * null dereference. A zero image size divides by zero, and a missing
   * vRight or vUp fails only when the pixel is off the centre line.
   */
  function ConstructRay<W, T>(sqrt: real -> real, c: CameraState<W, T>, nX: int, nY: int, j: int, i: int): (r: Result<Ray>)
    requires IsSqrt(sqrt)
    ensures c.vTo.None? ==> r == Err(NullPointer)
    ensures c.vTo.Some? && c.distance == 0.0 ==> r == Err(ZeroVectorError)
    ensures c.vTo.Some? && c.distance != 0.0 && c.p0.None? ==> r == Err(NullPointer)
    ensures c.p0.Some? && c.vTo.Some? && c.distance != 0.0 && (nX == 0 || nY == 0) ==> r == Err(NonFinite)
    ensures r.Ok? ==> r.value.head == c.p0.value
    ensures r.Ok? ==> (nX != 0 && nY != 0 &&
      Parallel(r.value.direction, PixelOffset(c, nX, nY, j, i)) && Dot(r.value.direction, PixelOffset(c, nX, nY, j, i)) > 0.0)
  {
    if c.vTo.None? then Err(NullPointer)
    else if c.distance == 0.0 then Err(ZeroVectorError)
    else if c.p0.None? then Err(NullPointer)
    else if nX == 0 || nY == 0 then Err(NonFinite)
    else
      var pIJ := PixelCentre(c, nX, nY, j, i);
      if pIJ.Err? then Err(pIJ.error)
      else
        var v := Subtract(pIJ.value, c.p0.value);
        if v.Err? then Err(v.error)
        else Ok(NewRay(sqrt, c.p0.value, v.value))
  }

  /**
   * A camera with a location, an orthonormal frame and a non-zero distance
   * constructs a ray through every pixel of a non-empty image: the pixel's
   * offset has component distance along vTo, so it is never 0.
   */
  lemma ConstructRaySucceeds<W, T>(sqrt: real -> real, c: CameraState<W, T>, nX: int, nY: int, j: int, i: int)
    requires IsSqrt(sqrt)
    requires c.p0.Some? && HasFrame(c) && c.distance != 0.0 && nX != 0 && nY != 0
    ensures ConstructRay(sqrt, c, nX, nY, j, i).Ok?
  {
    OffsetAlongView(c, nX, nY, j, i);
    var p := PixelCentre(c, nX, nY, j, i);
    assert p.Ok?;
    assert PixelOffset(c, nX, nY, j, i) != Origin;
    MinusIsOrigin(p.value, c.p0.value);
    assert Subtract(p.value, c.p0.value).Ok?;
  }

  /** In an orthonormal frame the pixel offset's component along vTo is the distance. */
  lemma OffsetAlongView<W, T>(c: CameraState<W, T>, nX: int, nY: int, j: int, i: int)
    requires HasFrame(c) && nX != 0 && nY != 0
    ensures Dot(c.vTo.value, PixelOffset(c, nX, nY, j, i)) == c.distance
  {
    var t, u, r := c.vTo.value, c.vUp.value, c.vRight.value;
    var x, y := ColumnOffset(c, nX, nY, j), RowOffset(c, nX, nY, i);
    DotScaledRight(t, t, c.distance);
    DotScaledRight(t, r, x);
    DotScaledRight(t, u, y);
    DotSymmetric(t, t);
    assert Dot(t, PixelOffset(c, nX, nY, j, i)) == Dot(t, Times(t, c.distance)) + Dot(t, Times(r, x)) + Dot(t, Times(u, y));
  }

  /**
   * The centre pixel (j = (nX - 1)/2, i = (nY - 1)/2, possible for odd sizes)
   * lies at p0 + distance vTo, so its ray points along vTo when the distance
   * is positive and vTo has unit length.
   */
  lemma CentrePixelAlongView<W, T>(sqrt: real -> real, c: CameraState<W, T>, nX: int, nY: int, j: int, i: int)
    requires IsSqrt(sqrt)
    requires c.p0.Some? && c.vTo.Some? && LengthSquared(c.vTo.value) == 1.0 && 0.0 < c.distance
    requires nX != 0 && nY != 0
    requires (j as real) == ((nX - 1) as real) / 2.0 && (i as real) == ((nY - 1) as real) / 2.0
    ensures PixelOffset(c, nX, nY, j, i) == Times(c.vTo.value, c.distance)
    ensures ConstructRay(sqrt, c, nX, nY, j, i) == Ok(Ray(c.p0.value, c.vTo.value))
  {
    var v := c.vTo.value;
    assert ColumnOffset(c, nX, nY, j) == 0.0 && RowOffset(c, nX, nY, i) == 0.0;
    ScaledNonZero(v, c.distance);
    var w: Vector := Times(v, c.distance);
    NormalizeScaled(sqrt, v, c.distance);
    NormalizeUnit(sqrt, v);
    SubtractAddRoundTrip(Add(c.p0.value, Scale(v, c.distance).value), c.p0.value);
  }

  /**
   * The steps a camera is normally built with (location, orthogonal
   * directions, a positive view plane size and distance, a ray tracer and an
   * image writer) pass every check of build, in any earlier state, and the
   * built camera has an orthonormal frame and the given location.
   */
  lemma FullSetupBuilds<W, T>(sqrt: real -> real, c: CameraState<W, T>, p0: Point, vTo: Vector, vUp: Vector,
                              width: real, height: real, distance: real, writer: W, tracer: T)
    requires IsSqrt(sqrt)
    requires Dot(vTo, vUp) == 0.0 && 0.0 < width && 0.0 < height && 0.0 < distance
    ensures var c1 := DirectionStep(sqrt, c.(p0 := Some(p0)), vTo, vUp).value;
      var c2 := VpSizeStep(c1, width, height).value;
      var c3 := VpDistanceStep(c2, distance).value;
      var c4 := c3.(rayTracer := Some(tracer), imageWriter := Some(writer));
      var built := BuildStep(sqrt, c4);
      built.Ok? && HasFrame(built.value) && built.value.p0 == Some(p0) &&
      built.value.width == width && built.value.height == height && built.value.distance == distance
  {
    var c1 := DirectionStep(sqrt, c.(p0 := Some(p0)), vTo, vUp).value;
    var c2 := VpSizeStep(c1, width, height).value;
    var c3 := VpDistanceStep(c2, distance).value;
    var c4 := c3.(rayTracer := Some(tracer), imageWriter := Some(writer));
    assert HasFrame(c4);
  }

  // The mutable objects

  /** A Camera object; its public setters change one field each. */
  class Camera<W, T> {
    var p0: Option<Point>
    var vRight: Option<Vector>
    var vUp: Option<Vector>
    var vTo: Option<Vector>
    var width: real
    var height: real
    var distance: real
    var imageWriter: Option<W>
    var rayTracer: Option<T>
    var useSoftShadows: bool

    function State(): CameraState<W, T>
      reads this
    {
      CameraState(p0, vRight, vUp, vTo, width, height, distance, imageWriter, rayTracer, useSoftShadows)
    }

    /** The private Camera(): the field defaults. */
    constructor ()
      ensures State() == InitialState()
    {
      p0, vRight, vUp, vTo := None, None, None, None;
      width, height, distance := 0.0, 0.0, 0.0;
      imageWriter, rayTracer := None, None;
      useSoftShadows := true;
    }

    /** Camera.clone: a new camera with the same fields. */
    constructor Clone(other: Camera<W, T>)
      ensures State() == other.State()
    {
      p0, vRight, vUp, vTo := other.p0, other.vRight, other.vUp, other.vTo;
      width, height, distance := other.width, other.height, other.distance;
      imageWriter, rayTracer := other.imageWriter, other.rayTracer;
      useSoftShadows := other.useSoftShadows;
    }

    method SetWidth(width: real)
      modifies this
      ensures State() == old(State()).(width := width)
    {
      this.width := width;
    }

    method SetHeight(height: real)
      modifies this
      ensures State() == old(State()).(height := height)
    {
      this.height := height;
    }

    method SetDistance(distance: real)
      modifies this
      ensures State() == old(State()).(distance := distance)
    {
      this.distance := distance;
    }
  }

  /**
   * Camera.Builder: every step changes the fields of the one camera it
   * owns and returns the builder; a refused step throws before changing
   * anything.
   */
  class Builder<W, T> {
    const camera: Camera<W, T>

    /** Camera.getBuilder: a builder around a fresh camera. */
    constructor ()
      ensures fresh(camera) && camera.State() == InitialState()
    {
      camera := new Camera();
    }

    method SetLocation(point: Point) returns (self: Builder<W, T>)
      modifies camera
      ensures self == this
      ensures camera.State() == old(camera.State()).(p0 := Some(point))
    {
      camera.p0 := Some(point);
      return this;
    }

    method SetDirection(sqrt: real -> real, vTo: Vector, vUp: Vector) returns (r: Result<Builder<W, T>>)
      requires IsSqrt(sqrt)
      modifies camera
      ensures var s := DirectionStep(sqrt, old(camera.State()), vTo, vUp);
        (r.Ok? <==> s.Ok?) && (r.Ok? ==> r.value == this && camera.State() == s.value) &&
        (r.Err? ==> r.error == s.error && camera.State() == old(camera.State()))
    {
      if Dot(vTo, vUp) != 0.0 {
        return Err(IllegalArgument("Vectors TO and UP must be perpendicular"));
      }
      OrthogonalNotParallel(vTo, vUp);
      camera.vTo := Some(Normalize(sqrt, vTo));
      camera.vUp := Some(Normalize(sqrt, vUp));
      camera.vRight := Some(Normalize(sqrt, Cross(vTo, vUp).value));
      return Ok(this);
    }

    method SetVpSize(width: real, height: real) returns (r: Result<Builder<W, T>>)
      modifies camera
      ensures var s := VpSizeStep(old(camera.State()), width, height);
        (r.Ok? <==> s.Ok?) && (r.Ok? ==> r.value == this && camera.State() == s.value) &&
        (r.Err? ==> r.error == s.error && camera.State() == old(camera.State()))
    {
      if width == 0.0 {
        return Err(IllegalArgument("Illegal width, cannot be 0"));
      }
      if height == 0.0 {
        return Err(IllegalArgument("Illegal height, cannot be 0"));
      }
      camera.width := width;
      camera.height := height;
      return Ok(this);
    }

    method SetVpDistance(distance: real) returns (r: Result<Builder<W, T>>)
      modifies camera
      ensures var s := VpDistanceStep(old(camera.State()), distance);
        (r.Ok? <==> s.Ok?) && (r.Ok? ==> r.value == this && camera.State() == s.value) &&
        (r.Err? ==> r.error == s.error && camera.State() == old(camera.State()))
    {
      if distance == 0.0 {
        return Err(IllegalArgument("Illegal distance, cannot be 0"));
      }
      camera.SetDistance(distance);
      return Ok(this);
    }

    method SetImageWriter(imageWriter: W) returns (self: Builder<W, T>)
      modifies camera
      ensures self == this
      ensures camera.State() == old(camera.State()).(imageWriter := Some(imageWriter))
    {
      camera.imageWriter := Some(imageWriter);
      return this;
    }

    method SetRayTracer(rayTracer: T) returns (self: Builder<W, T>)
      modifies camera
      ensures self == this
      ensures camera.State() == old(camera.State()).(rayTracer := Some(rayTracer))
    {
      camera.rayTracer := Some(rayTracer);
      return this;
    }

    method SetUseSoftShadows(useSoftShadows: bool) returns (self: Builder<W, T>)
      modifies camera
      ensures self == this
      ensures camera.State() == old(camera.State()).(useSoftShadows := useSoftShadows)
    {
      camera.useSoftShadows := useSoftShadows;
      return this;
    }

    /** Builder.build: validates, re-derives vRight on the builder's camera and returns a copy of it. */
    method Build(sqrt: real -> real) returns (r: Result<Camera<W, T>>)
      requires IsSqrt(sqrt)
      modifies camera
      ensures var s := BuildStep(sqrt, old(camera.State()));
        (r.Ok? <==> s.Ok?) &&
        (r.Ok? ==> fresh(r.value) && r.value.State() == s.value && camera.State() == s.value) &&
        (r.Err? ==> r.error == s.error && camera.State() == old(camera.State()))
    {
      var e := BuildCheck(camera.State());
      if e.Some? {
        return Err(e.value);
      }
      var right := Cross(camera.vTo.value, camera.vUp.value);
      if right.Err? {
        return Err(right.error);
      }
      camera.vRight := Some(Normalize(sqrt, right.value));
      var copy := new Camera.Clone(camera);
      return Ok(copy);
    }
  }
}
