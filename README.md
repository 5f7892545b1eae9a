# A verified model of a small CPU ray tracer

This project models the core of a Java ray tracer (packages `primitives`,
`geometries`, `lighting`, `renderer`, `scene`) in Dafny and proves
properties of the model. The covered parts are:

- the vector algebra of `Point` and `Vector`;
- rays and the search for the closest hit;
- the intersection and normal routines of planes, polygons, triangles, spheres and tubes;
- the `Geometries` aggregate;
- the three kinds of light source;
- the soft-shadow sample grid (`Blackboard`);
- the camera builder and its pixel rays;
- the recursive shader `SimpleRayTracer`.

Arithmetic is over Dafny's exact `real`, not IEEE doubles. `Util.isZero` and
`Util.alignZero` become exact tests against zero. Every square root goes
through a `sqrt: real -> real` parameter that the predicate `Reals.IsSqrt`
constrains: it is non-negative and squares back to its argument on
non-negative inputs. The lemmas hold for every such function.

Java exceptions become `Err` values of `Wrappers.Result`:

- the zero-vector `IllegalArgumentException` of `Vector` is `ZeroVectorError`;
- a null dereference is `NullPointer`;
- `getFirst` on an empty list is `NoSuchElement`;
- `MissingResourceException` is `MissingResource(field)`;
- a plain `RuntimeException` is `Runtime(message)`;
- a division by zero or a `pow(0, negative)` yields an IEEE infinity in the source; here it is `NonFinite`.

`null` results become `Option.None`. `Double.POSITIVE_INFINITY`, used as a
distance, is `ExtReal.PositiveInfinity`.

## Modules

Each module follows one part of the source:

- `Reals` (`reals.dfy`) holds the square-root oracle, the multiplication `Mul` used to keep products apart in nonlinear proofs, and `ExtReal`. `Wrappers` holds `Option`, `Result` and `Error`.
- `Triples` (`triples.dfy`) holds `Double3` and `Color`, which are component-wise real triples.
- `Vectors` models `Point.java` and `Vector.java`. A `Vector` is a `Point` other than the origin, exactly the invariant that `Vector`'s constructors check.
- `Rays` models `Ray.java` and `Intersectable.GeoPoint`. `Ray` is a subset type with a unit direction.
- `Planes`, `Polygons`, `Triangles`, `Spheres` and `Tubes` model one geometry each.
- `Intersectable` models `Geometry` and `Intersectable`. The class hierarchy becomes the datatype `Shape`, and the per-shape override becomes a dispatch on it.
- `Composite` models `Geometries.java` as a class whose `geo` field is a sequence.
- `Boards` models `Blackboard.java` as a class. The random jitter is an injected function `(i, j) -> (yMove, xMove)`.
- `Lights` models the ambient, directional, point and spot lights:
  - the light values are datatypes used as the tracer's inputs;
  - `PointLight` and `SpotLight` are classes with the source's setters.
- `Cameras` models `Camera.java`:
  - every builder step is a function on a `CameraState` record;
  - the classes `Camera` and `Builder` update that state in place through those functions;
  - `constructRay` is a function.
- `Tracer` holds `Scene` and the shadow computations of `SimpleRayTracer.transparency`, plus reflection and refraction rays, diffuse and specular terms.
- `Shading` holds the recursion of `SimpleRayTracer`:
  - `calcLocalEffects`, `calcColor`, `calcGlobalEffects`, `calcGlobalEffect` and `traceRay`, each as a specification function and as a method proved equal to it;
  - the class `SimpleRayTracer`.
- `Retrace` proves that tracing a ray again gives the same result once the soft-shadow grids it built exist.

### Lights, grids and shading

`transparency` builds a point light's sample grid the first time the light is
used with soft shadows (`Blackboard.setGrid` returns at once when a grid
exists). The model therefore threads the scene's lights through the shading
functions. Each returns a `Shade(color, lights)` with the lights afterwards,
and `Tracer.Evolved(before, after)` says that each light either stayed the same
or gained its grid. The methods of `Shading` carry the lights as an
out-parameter, and `Shading.SimpleRayTracer.TraceRay` stores them back into
the scene.

The `Retrace` lemmas compare a trace that starts from lights `a` with one
that starts from lights `m` partway along the same evolution. `Retrace.Within(a, m, z)`
says that `a` evolves to `m` and `m` to the final lights `z`. Both traces give
the same colour, because a light's grid, once built, is never rebuilt.

Secondary rays follow the source's order. The refracted ray's effect is
computed first, then the reflected ray is constructed and its effect
computed. A secondary ray whose weight k·kx is below 0.001 in every
component is black before the ray is looked at. A reflected ray that is
null (n·v = 0) and not negligible fails with a null dereference as soon as
the scene holds a geometry other than a polygon.

## Model

| member | source | states |
|---|---|---|
| Vectors.Equals | src/primitives/Point.java:47-51 | true exactly when the two points have the same three coordinates |
| Vectors.NewVector | src/primitives/Vector.java:16-40 | a vector is built exactly when some component is non-zero; otherwise the zero-vector error |
| Vectors.Subtract | src/primitives/Point.java:59-61 | defined exactly when the points differ, else the zero-vector error; adding the result back to q gives p |
| Vectors.Add | src/primitives/Point.java:69-71 | p + v is never p, and subtracting p from it gives v back |
| Vectors.AddVectors | src/primitives/Vector.java:48-50 | fails exactly when v = −u; otherwise the sum minus u is v |
| Vectors.Scale | src/primitives/Vector.java:58-60 | fails exactly for the factor 0; otherwise every component is multiplied by s |
| Vectors.Cross | src/primitives/Vector.java:80-85 | fails exactly for parallel operands; otherwise the cross product, orthogonal to both operands |
| Vectors.Length | src/primitives/Vector.java:101-103 | non-negative, and its square is lengthSquared |
| Vectors.Normalize | src/primitives/Vector.java:110-113 | unit length, parallel to v and pointing the same way (positive dot product) |
| Vectors.Distance | src/primitives/Point.java:103-105 | non-negative, and its square is distanceSquared |
| Vectors.LengthSquaredPositive | src/primitives/Vector.java:92-94 | lengthSquared is positive for every non-zero vector and 0 only for the zero point |
| Vectors.CrossOrthogonal | src/primitives/Vector.java:80-85 | the cross-product coordinates are orthogonal to both operands, parallel or not |
| Vectors.DistanceSquaredSymmetric | src/primitives/Point.java:91-95 | distanceSquared(p, q) = distanceSquared(q, p) |
| Vectors.DistanceSquaredProperties | src/primitives/Point.java:91-95 | distanceSquared is non-negative and zero exactly when the points are equal |
| Vectors.MinusIsOrigin | src/primitives/Point.java:59-61 | the coordinate difference is zero exactly when the points are equal |
| Vectors.NormalizeUnit | src/primitives/Vector.java:110-113 | normalising a unit vector returns it unchanged |
| Vectors.NormalizeScaled | src/primitives/Vector.java:110-113 | a positive multiple of v normalises to the same unit vector as v |
| Vectors.NormalizeOpposite | src/primitives/Vector.java:110-113 | normalize(−v) = −normalize(v) |
| Vectors.NormalizeKeepsDotSign | src/primitives/Vector.java:110-113 | w·normalize(v) is positive, negative or zero exactly when w·v is |
| Vectors.AddSubtractRoundTrip | src/primitives/Point.java:59-71 | (p + v) − p = v, always defined |
| Vectors.SubtractAddRoundTrip | src/primitives/Point.java:59-71 | for p ≠ q, q + (p − q) = p |
| Vectors.DotSymmetric | src/primitives/Vector.java:68-70 | the dot product is symmetric, and lengthSquared(u) = u·u |
| Vectors.OrthogonalNotParallel | src/primitives/Vector.java:80-85 | two orthogonal vectors are never parallel, so their cross product exists |
| Vectors.CrossLengthOrthogonal | src/primitives/Vector.java:80-85 | for orthogonal operands the cross product's length is the product of the lengths |
| Vectors.PointExamples | unittests/primitives/PointTest.java:16-43 | the unit-test subtraction, addition and distanceSquared 27 cases, and the failing self-subtraction |
| Vectors.VectorExamples | unittests/primitives/VectorTest.java:16-67 | the unit-test zero vector, add (including v + (−v) failing) and scale cases |
| Vectors.ProductExamples | unittests/primitives/VectorTest.java:74-122 | the unit-test dot products −28 and 0, the failing parallel cross product, lengthSquared 9 and length 3 |
| Rays.NewRay | src/primitives/Ray.java:30-33 | the head is kept and the direction is the normalised argument |
| Rays.NewOffsetRay | src/primitives/Ray.java:45-52 | the head moves by +0.1·n, −0.1·n or not at all as direction·n is positive, negative or zero; the direction is the normalised argument |
| Rays.GetPoint | src/primitives/Ray.java:104-111 | the point minus the head is t times the direction |
| Rays.RayEquals | src/primitives/Ray.java:79-83 | true exactly when head and direction are equal |
| Rays.GeoPointEquals | src/geometries/Intersectable.java:44-48 | true exactly when geometry and point are equal |
| Rays.PointsOf | src/geometries/Intersectable.java:23-27 | the points of a GeoPoint list, same length and order |
| Rays.FirstClosest | src/primitives/Ray.java:136-141 | an index whose point is no farther from the head than any other and strictly closer than every earlier one |
| Rays.FirstClosestUnique | src/primitives/Ray.java:136-141 | any index meeting those two conditions is FirstClosest, so the first minimum is unique |
| Rays.FirstClosestNext | src/primitives/Ray.java:136-141 | one more element moves the first minimum to it exactly when it is strictly closer |
| Rays.NextClosest | src/primitives/Ray.java:136-141 | the loop's comparison of absolute distances picks the same index as the first minimum of the longer prefix |
| Rays.DistanceLessIff | src/primitives/Ray.java:136-141 | comparing abs(distance) values is the same as comparing squared distances |
| Rays.FindClosestGeoPoint | src/primitives/Ray.java:132-143 | null list gives null, an empty list fails, otherwise the first nearest element, which is in the list and no farther than any element |
| Rays.ClosestIsNearest | src/primitives/Ray.java:132-143 | the chosen element belongs to the list and is at least as near as every element |
| Rays.FindClosestPoint | src/primitives/Ray.java:119-124 | the same search over plain points: null, failure on empty, else the first nearest point |
| Rays.GetPointDistance | src/primitives/Ray.java:104-111 | getPoint(0) is the head, the squared distance from the head is t², and t is the projection on the direction |
| Rays.OffsetSide | src/primitives/Ray.java:45-52 | the moved head lies on the side of the surface the direction points to |
| Rays.ClosestPointExamples | unittests/primitives/RayTests.java:12-38 | for the three orderings of the test points, the closest is the one at (1,0,1) |
| Planes.PlaneThrough | src/geometries/Plane.java:36-44 | defined exactly when p2, p3 differ from p1 and the edges are not parallel; all three points are on the plane, whose normal is the normalised cross product |
| Planes.PlaneOf | src/geometries/Plane.java:52-55 | the point lies on the plane and the normal is the normalised vector |
| Planes.GetNormal | src/geometries/Plane.java:63-70 | the stored unit normal, whatever the point |
| Planes.Intersections | src/geometries/Plane.java:75-100 | null for a parallel ray, for a head at the reference point, or for a head on the plane; otherwise a single hit exactly when 0 < t ≤ maxDistance, and it lies on the plane |
| Planes.OnPlaneHead | src/geometries/Plane.java:88-90 | the source's test n·(Q − P0) = 0 says that the head lies on the plane |
| Planes.PlaneParameterUnique | src/geometries/Plane.java:92-99 | t is the only ray parameter at which the ray meets the plane |
| Planes.UnitCrossIsNormal | src/geometries/Plane.java:36-44 | when the edge cross product is already a unit vector, it is the plane's normal |
| Planes.UnitCross | unittests/geometries/PlaneTest.java:16-30 | for the test's points (0,0,0), (1,0,0), (0,1,0) the edge cross product is the unit vector (0,0,1), hence (by UnitCrossIsNormal) the plane's normal |
| Polygons.NewPolygon | src/geometries/Polygon.java:43-79 | accepted exactly when the vertices form a valid convex planar polygon; fewer than 3 vertices gives the size error; accepted vertices are kept with the plane of the first three |
| Polygons.PolygonCoplanar | src/geometries/Polygon.java:43-79 | an accepted polygon has all its vertices on its plane and a non-degenerate first corner |
| Polygons.PolygonCheckIff | src/geometries/Polygon.java:43-79 | the constructor's check in source order succeeds exactly for ValidPolygon, keeping the vertices and plane |
| Polygons.CheckFromIff | src/geometries/Polygon.java:69-78 | the loop from vertex i succeeds exactly when every remaining vertex is on the plane and turns the same way |
| Polygons.CheckStep | src/geometries/Polygon.java:69-78 | the loop from vertex i succeeds exactly when vertex i passes and the loop from vertex i + 1, with the edge ending at i, succeeds |
| Polygons.GetNormal | src/geometries/Polygon.java:87-90 | the plane's unit normal, orthogonal to every vertex difference |
| Polygons.Intersections | src/geometries/Polygon.java:92-95 | always null |
| Polygons.VertexOnSideRefused | unittests/geometries/PolygonTest.java:53-56 | a vertex lying on a side is refused |
| Polygons.RepeatedVertexRefused | unittests/geometries/PolygonTest.java:59-66 | a repeated vertex is refused |
| Triangles.NewTriangle | src/geometries/Triangle.java:28-30 | defined exactly when the points are not collinear; keeps the vertices and the plane through them |
| Triangles.GetNormal | src/geometries/Triangle.java:32-35 | the plane's unit normal, orthogonal to both edges |
| Triangles.Intersections | src/geometries/Triangle.java:38-66 | never fails; a hit is returned exactly when the plane is hit and the three side products have one strict sign, and it is the plane's hit |
| Triangles.SidesNeverFail | src/geometries/Triangle.java:52-57 | after a plane hit, no vector from the head to a vertex is zero and no two are parallel |
| Spheres.GetNormal | src/geometries/Sphere.java:44-48 | fails exactly at the centre; otherwise a unit vector pointing from the centre towards p |
| Spheres.ChordOf | src/geometries/Sphere.java:63-67 | tm is the projection of the centre on the ray, d the centre's distance from the ray, th the half chord when d < r |
| Spheres.Intersections | src/geometries/Sphere.java:56-95 | a head at the centre gives the point at distance r; a rejected ray gives null; otherwise both roots (far first), only the near one, only the far one or null, according to which are in (0, maxDistance] |
| Spheres.RootsOnSphere | src/geometries/Sphere.java:73-77 | both roots tm ± th lie on the sphere, near before far |
| Spheres.RootsComplete | src/geometries/Sphere.java:73-77 | the ray meets the sphere only at the parameters tm ± th |
| Spheres.MissedOnlyTangent | src/geometries/Sphere.java:69-70 | a rejected ray can meet the sphere ahead only tangentially, at tm with d = r |
| Spheres.IntersectionsSound | src/geometries/Sphere.java:56-95 | every returned point lies on the sphere, there are one or two, and off the centre each is a root in (0, maxDistance] |
| Spheres.IntersectionsComplete | src/geometries/Sphere.java:56-95 | every point of the sphere on the ray in (0, maxDistance] is returned, except a tangent point |
| Spheres.IntersectionsFarFirst | src/geometries/Sphere.java:83-84 | with two hits, the first is the farther one |
| Tubes.GetNormal | src/geometries/Tube.java:27-37 | fails exactly on the axis line; otherwise orthogonal to the axis and pointing away from it, of unit length except where p projects onto the axis head, where it is p − head |
| Tubes.Intersections | src/geometries/Tube.java:39-67 | the axis object itself gets the point at parameter radius; a head at the axis head fails; otherwise the sphere test about the axis head decides [near, far], [far] or null, and maxDistance is not used |
| Tubes.IntersectionsOnAxisSphere | src/geometries/Tube.java:46-65 | every returned point lies on the sphere of the tube's radius about the axis head |
| Tubes.IntersectionsAhead | src/geometries/Tube.java:58-65 | every returned point is strictly ahead of the head |
| Tubes.IntersectionsNearFirst | src/geometries/Tube.java:62-63 | with two hits, the first is the nearer one |
| Tubes.FarRootAhead | src/geometries/Tube.java:65 | once the ray is not rejected the far root is positive, so the unchecked single hit is ahead |
| Tubes.SameObjectPoint | src/geometries/Tube.java:42-43 | the axis object itself gets exactly one hit, at distance radius from its head |
| Intersectable.NewGeometry | src/geometries/Geometry.java:16-19 | a new geometry has black emission and the default material |
| Intersectable.SetEmission | src/geometries/Geometry.java:35-38 | only the emission changes |
| Intersectable.SetMaterial | src/geometries/Geometry.java:54-57 | only the material changes |
| Intersectable.ShapeIntersections | src/geometries/Intersectable.java:91-92 | only a tube can fail; a result holds one or two points; a polygon gives null |
| Intersectable.FindGeoIntersections | src/geometries/Intersectable.java:78-80 | exactly the shape's result, each point tagged with this geometry |
| Intersectable.FindGeoIntersectionsUnbounded | src/geometries/Intersectable.java:66-68 | the bounded query with maxDistance = +∞ |
| Intersectable.FindIntersections | src/geometries/Intersectable.java:23-27 | null exactly when the GeoPoint list is null; otherwise its points in order |
| Intersectable.FindIntersectionsIsShapeResult | src/geometries/Intersectable.java:23-27 | findIntersections returns exactly the shape's own unbounded points |
| Intersectable.GetNormal | src/geometries/Geometry.java:65 | only spheres and tubes can fail; plane, polygon and triangle return their stored normal; every normal except the tube's is a unit vector |
| Composite.Join | src/geometries/Geometries.java:28-31 | a null member result leaves the list as it is; otherwise it is appended, starting a list when there was none |
| Composite.Geometries.Empty | src/geometries/Geometries.java:11 | no members |
| Composite.Geometries.constructor | src/geometries/Geometries.java:13-15 | the given members, in order |
| Composite.Geometries.Add | src/geometries/Geometries.java:17-19 | the new members are appended in order after the old ones |
| Composite.Geometries.FindGeoIntersections | src/geometries/Geometries.java:21-34 | the loop computes the aggregate of the members' results, each queried with the same maxDistance |
| Composite.AggregateFailureSticks | src/geometries/Geometries.java:26-32 | once a member's query fails, the aggregate of every longer prefix fails the same way |
| Composite.AggregateIsAllHits | src/geometries/Geometries.java:21-34 | the aggregate is the concatenation of the members' hits in order, null exactly when that is empty |
| Composite.AllHitsSize | unittests/GeometriesTests.java:33-44 | the number of hits is the sum of the members' hit counts |
| Composite.AggregateNone | src/geometries/Geometries.java:21-34 | null exactly when every member returns null |
| Boards.LoopCount | src/renderer/Blackboard.java:64-65 | the number of iterations of `for (i = 0; i < k; i++)` for a real k |
| Boards.Step | src/renderer/Blackboard.java:71-74 | moving by offset + move fails exactly when the offset is non-zero and the jitter cancels it (scale(0)); otherwise it adds that multiple |
| Boards.SetGridSpec | src/renderer/Blackboard.java:54-79 | an existing grid means no change; k = 1 or soft shadows off gives [pCenter]; k, width, height and the flag never change, and afterwards a grid exists |
| Boards.Blackboard.constructor | src/renderer/Blackboard.java:24-28 | the given k, width and height, no grid, soft shadows on |
| Boards.Blackboard.SetHeight | src/renderer/Blackboard.java:34-36 | only the height changes |
| Boards.Blackboard.SetWidth | src/renderer/Blackboard.java:42-44 | only the width changes |
| Boards.Blackboard.SetK | src/renderer/Blackboard.java:50-52 | only k changes |
| Boards.Blackboard.SetGrid | src/renderer/Blackboard.java:54-79 | the nested loops leave the state and the failure that SetGridSpec describes |
| Boards.FailureStops | src/renderer/Blackboard.java:64-77 | a failing cell ends the loops with the grid holding exactly the cells before it |
| Boards.CellFormula | src/renderer/Blackboard.java:66-74 | each grid point is pCenter + (xJ + xMove)·vRight + (yI + yMove)·vUp |
| Boards.CellFailure | src/renderer/Blackboard.java:71-74 | a cell fails exactly when a non-zero offset is cancelled by its jitter |
| Boards.SymmetricOffsets | src/renderer/Blackboard.java:66-67 | for integer k, the offsets of j and k−1−j (and of i and k−1−i) are opposite |
| Boards.OddGridNeverFails | src/renderer/Blackboard.java:66-74 | for odd k and jitter within ±R/2, no cell fails |
| Boards.GridLayout | src/renderer/Blackboard.java:64-77 | the loops produce n² cells in row-major order, cell (i, j) at index i·n + j |
| Boards.SetGridLayout | src/renderer/Blackboard.java:64-77 | a successful grid has n² points for n = ⌈k⌉ loop rounds, cell (i, j) at index i·n + j, each the cell's point |
| Boards.SetGridOnce | src/renderer/Blackboard.java:55 | a second setGrid, with any centre and vectors, changes nothing |
| Lights.NewAmbientLight | src/lighting/AmbientLight.java:34-38 | the intensity is IA scaled by KA |
| Lights.NoAmbientLightIsBlackScaled | src/lighting/AmbientLight.java:25 | NONE is black scaled by 0 |
| Lights.NewDirectionalLight | src/lighting/DirectionalLight.java:21-24 | keeps the intensity and stores the normalised direction |
| Lights.DirectionalIntensity | src/lighting/DirectionalLight.java:32-35 | the same colour at every point |
| Lights.DirectionalL | src/lighting/DirectionalLight.java:43-46 | a unit vector at every point, and the stored direction itself once that is a unit vector, as the constructor makes it |
| Lights.DirectionalDistance | src/lighting/DirectionalLight.java:54-57 | +∞ at every point |
| Lights.PointIntensity | src/lighting/PointLight.java:82-85 | defined exactly when kC + kL·d + kQ·d² ≠ 0 (otherwise infinite), and the result times that factor is the base intensity |
| Lights.DefaultAttenuationIsNone | src/lighting/PointLight.java:19-25 | with the default kC = 1, kL = kQ = 0 the intensity is the base intensity everywhere |
| Lights.AttenuationDims | src/lighting/PointLight.java:82-85 | with kC ≥ 1, kL, kQ ≥ 0 and a non-negative base intensity, the intensity is defined and lies component-wise between 0 and the base intensity |
| Lights.AttenuationAtLeastOne | src/lighting/PointLight.java:82-85 | with kC ≥ 1 and kL, kQ ≥ 0 the attenuation factor is at least 1 |
| Lights.PointL | src/lighting/PointLight.java:93-96 | fails exactly at the position; otherwise the unit vector from the light towards p |
| Lights.PointDistance | src/lighting/PointLight.java:104-107 | finite, non-negative, the Euclidean distance to the position, 0 exactly at the position |
| Lights.SpotIntensity | src/lighting/SpotLight.java:46-49 | fails at the position; otherwise defined exactly when the point-light intensity is; a non-negative multiple of it |
| Lights.SpotFactor | src/lighting/SpotLight.java:48 | max(0, direction·l) is non-negative, 0 exactly when p is not in front of the spot, at most 1 for a unit direction |
| Lights.SpotDarkBehind | src/lighting/SpotLight.java:46-49 | behind the spot the light is black |
| Lights.SpotAtMostPoint | src/lighting/SpotLight.java:46-49 | for a unit direction the spot colour lies between 0 and the point light's colour |
| Lights.SpotL | src/lighting/SpotLight.java:58-61 | the point light's formula |
| Lights.SpotDistance | src/lighting/SpotLight.java:63-66 | the point light's distance |
| Lights.GetIntensity | src/lighting/LightSource.java:19 | dispatches to the directional, point or spot formula |
| Lights.GetL | src/lighting/LightSource.java:27 | a unit vector; fails exactly for a point or spot light queried at its own position |
| Lights.GetDistance | src/lighting/LightSource.java:28 | infinite exactly for a directional light, otherwise non-negative |
| Lights.BoardOf | src/lighting/PointLight.java:13 | point and spot lights have a blackboard, directional lights do not |
| Lights.WithBoard | src/lighting/PointLight.java:13 | replaces the blackboard and keeps the kind of light |
| Lights.WithBoardKeepsLight | src/lighting/PointLight.java:82-107 | the blackboard does not affect intensity, direction or distance |
| Lights.PointLight.constructor | src/lighting/PointLight.java:36-43 | default attenuation 1, 0, 0 and a fresh blackboard with k 9, width 4, height 4 and no grid |
| Lights.PointLight.SetKq | src/lighting/PointLight.java:51-54 | only kQ changes, and the same object is returned |
| Lights.PointLight.SetKc | src/lighting/PointLight.java:61-64 | only kC changes, and the same object is returned |
| Lights.PointLight.SetKl | src/lighting/PointLight.java:71-74 | only kL changes, and the same object is returned |
| Lights.SpotLight.constructor | src/lighting/SpotLight.java:21-24 | a default point light and the normalised direction |
| Lights.SpotLight.SetKc | src/lighting/SpotLight.java:27-29 | only the point light's kC changes, and the same object is returned |
| Lights.SpotLight.SetKl | src/lighting/SpotLight.java:31-33 | only the point light's kL changes, and the same object is returned |
| Lights.SpotLight.SetKq | src/lighting/SpotLight.java:35-37 | only the point light's kQ changes, and the same object is returned |
| Cameras.InitialState | src/renderer/Camera.java:21-30 | no position, no vectors, zero sizes, no writer or tracer, soft shadows on |
| Cameras.DirectionStep | src/renderer/Camera.java:125-132 | fails with the source's message unless vTo·vUp = 0; otherwise stores normalised vTo and vUp and a vRight along vTo × vUp, forming an orthonormal frame, and nothing else changes |
| Cameras.FrameOfOrthogonal | src/renderer/Camera.java:128-130 | the three stored vectors form an orthonormal frame |
| Cameras.VpSizeStep | src/renderer/Camera.java:142-148 | zero width fails first, then zero height; a failure changes nothing, a success sets only width and height |
| Cameras.VpDistanceStep | src/renderer/Camera.java:157-161 | fails exactly for 0; otherwise sets only the distance |
| Cameras.BuildCheck | src/renderer/Camera.java:228-242 | no error exactly for a complete camera; otherwise the first failing check's exact message, in the source's order: vTo, vRight, vUp missing, then a zero height, width or distance, then a negative size, then the missing ray tracer, then the missing image writer |
| Cameras.BuildStep | src/renderer/Camera.java:228-251 | the first check that fails is the error; on success the camera is complete and only vRight is re-derived along vTo × vUp; p0 is not checked |
| Cameras.BuildCrossFails | src/renderer/Camera.java:244 | the re-derivation in build fails only for vTo and vUp that are not orthogonal |
| Cameras.BuiltFrame | src/renderer/Camera.java:244 | for orthonormal vTo, vUp the re-derived vRight completes an orthonormal frame |
| Cameras.MoveAlong | src/renderer/Camera.java:279-280 | a zero offset skips the vector; a non-zero offset along a missing vector is a null dereference |
| Cameras.PixelCentre | src/renderer/Camera.java:273-280 | the pixel centre is p0 + distance·vTo + xJ·vRight + yI·vUp, failing only when a needed vector is missing |
| Cameras.ConstructRay | src/renderer/Camera.java:272-282 | errors in the source's evaluation order: a missing vTo is a null dereference, then a zero distance is the zero-vector error (vTo.scale(0) is evaluated before p0 is dereferenced), then a missing p0 is a null dereference, then zero pixel counts are non-finite; otherwise the ray starts at p0 and points to the pixel centre |
| Cameras.ConstructRaySucceeds | src/renderer/Camera.java:272-282 | a camera with position and frame always produces a ray for non-zero pixel counts |
| Cameras.OffsetAlongView | src/renderer/Camera.java:273-280 | every pixel centre lies on the view plane at distance `distance` along vTo |
| Cameras.CentrePixelAlongView | src/renderer/Camera.java:273-281 | the centre pixel's ray is (p0, vTo) |
| Cameras.FullSetupBuilds | src/renderer/Camera.java:112-251 | location, orthogonal directions, positive sizes and distance, tracer and writer always build an orthonormal camera with those values |
| Cameras.Camera.constructor | src/renderer/Camera.java:35-36 | the initial camera state |
| Cameras.Camera.Clone | src/renderer/Camera.java:247 | a new camera with the same state |
| Cameras.Camera.SetWidth | src/renderer/Camera.java:52-54 | only the width changes |
| Cameras.Camera.SetHeight | src/renderer/Camera.java:70-72 | only the height changes |
| Cameras.Camera.SetDistance | src/renderer/Camera.java:88-90 | only the distance changes |
| Cameras.Builder.constructor | src/renderer/Camera.java:103 | a fresh camera in its initial state |
| Cameras.Builder.SetLocation | src/renderer/Camera.java:112-115 | only p0 changes |
| Cameras.Builder.SetDirection | src/renderer/Camera.java:125-132 | the camera becomes DirectionStep's state, or stays unchanged with its error |
| Cameras.Builder.SetVpSize | src/renderer/Camera.java:142-148 | the camera becomes VpSizeStep's state, or stays unchanged with its error |
| Cameras.Builder.SetVpDistance | src/renderer/Camera.java:157-161 | the camera becomes VpDistanceStep's state, or stays unchanged with its error |
| Cameras.Builder.SetImageWriter | src/renderer/Camera.java:163-166 | only the image writer changes |
| Cameras.Builder.SetRayTracer | src/renderer/Camera.java:168-171 | only the ray tracer changes |
| Cameras.Builder.SetUseSoftShadows | src/renderer/Camera.java:173-176 | only the soft-shadow flag changes |
| Cameras.Builder.Build | src/renderer/Camera.java:228-251 | fails with BuildCheck's error leaving the camera as it was, or updates vRight and returns a fresh clone of the built state |
| Tracer.NewScene | src/scene/Scene.java:18-39 | the given name, black background, no ambient light, no geometries and no lights |
| Tracer.EvolvedKeepsLights | src/renderer/SimpleRayTracer.java:170 | building a grid never changes a light's intensity, direction or distance, and a built grid stays |
| Tracer.FindClosestIntersection | src/renderer/SimpleRayTracer.java:235-239 | the scene's failure is the result; null exactly when the scene has no hit; otherwise a hit of the scene no farther than any other, and on ties the first such hit in the scene's order |
| Tracer.AggregateNonEmpty | src/geometries/Geometries.java:21-34 | a non-null aggregate is never empty, so getFirst in findClosestGeoPoint never fails here |
| Tracer.AggregateFromMembers | src/geometries/Geometries.java:21-34 | every hit belongs to a member geometry |
| Tracer.ConstructReflectedRay | src/renderer/SimpleRayTracer.java:249-253 | null exactly when n·d = 0; never fails for a unit normal; otherwise the direction follows m = d − 2(n·d)n and the head is the point moved by ±0.1·n by the sign of m·n (unmoved when m·n = 0) |
| Tracer.MirrorOfUnitNormal | src/renderer/SimpleRayTracer.java:252 | for a unit normal, the mirrored direction has the same length and the opposite normal component |
| Tracer.ConstructRefractedRay | src/renderer/SimpleRayTracer.java:263-265 | the direction is kept, and the head is offset along the normal by the ray rule |
| Tracer.CalcDiffusive | src/renderer/SimpleRayTracer.java:111-113 | non-negative for non-negative kD, and at most kD when abs(nl) ≤ 1 |
| Tracer.DiffusiveSymmetric | src/renderer/SimpleRayTracer.java:111-113 | the diffuse term ignores the sign of nl |
| Tracer.PowerOf | src/renderer/SimpleRayTracer.java:127 | infinite exactly for a zero base and a negative exponent; otherwise the non-negative power or its reciprocal |
| Tracer.PowerAtMostOne | src/renderer/SimpleRayTracer.java:127 | a power of a number in [0, 1] stays in [0, 1] |
| Tracer.CalcSpecular | src/renderer/SimpleRayTracer.java:125-128 | fails exactly when nl = 0, when l = 2·nl·n, or for a negative exponent with a zero base; otherwise a non-negative multiple of kS |
| Tracer.SpecularAtMostKs | src/renderer/SimpleRayTracer.java:125-128 | for unit vectors and a non-negative exponent the specular term lies between 0 and kS |
| Tracer.ZeroAbsorbs | src/renderer/SimpleRayTracer.java:147-152 | once the running product is zero it stays zero, so the early break changes nothing |
| Tracer.ShadowProduct | src/renderer/SimpleRayTracer.java:147-152 | the loop, with its early break, computes the product of the kT of all hits |
| Tracer.KtProductInUnitRange | src/renderer/SimpleRayTracer.java:147-152 | with every kT in [0, 1] the product is in [0, 1] |
| Tracer.OpaqueBlocks | src/renderer/SimpleRayTracer.java:147-152 | one opaque hit makes the product zero |
| Tracer.RayTransmission | src/renderer/SimpleRayTracer.java:143-154 | ONE when nothing is hit, otherwise the kT product; in [0, 1] when every kT is |
| Tracer.ShadowRay | src/renderer/SimpleRayTracer.java:139-142 | the ray towards the light: direction −l, head offset to the light's side |
| Tracer.SampleFrame | src/renderer/SimpleRayTracer.java:159-164 | vUp and vTo are orthogonal to the light direction and to each other |
| Tracer.SampleFrameOfUnit | src/renderer/SimpleRayTracer.java:159-164 | the frame exists for every unit direction |
| Tracer.SampleFrameOffAxis | src/renderer/SimpleRayTracer.java:159-164 | the frame exists off the x axis and on it |
| Tracer.CrossWithAxes | src/renderer/SimpleRayTracer.java:161-163 | the frame's coordinates are the cross products with (0,0,1) and (1,0,0) |
| Tracer.SampleTransmission | src/renderer/SimpleRayTracer.java:174-189 | a sample at the point itself fails; otherwise the transmission of the offset ray towards the sample |
| Tracer.SampleShadows | src/renderer/SimpleRayTracer.java:172-190 | the loop computes the sum of the samples' transmissions |
| Tracer.SampleFailureSticks | src/renderer/SimpleRayTracer.java:172-190 | a failing sample ends the loop with that failure |
| Tracer.SampleSumBounded | src/renderer/SimpleRayTracer.java:172-190 | with every kT in [0, 1] each component of the sum lies between 0 and the grid size |
| Tracer.PositionOf | src/lighting/PointLight.java:27-29 | the position of a point light or a spot light |
| Tracer.SoftShadow | src/renderer/SimpleRayTracer.java:157-192 | fails with the sample frame's error, then with setGrid's error; otherwise the light's board is exactly the one setGrid builds from the light's current board, its position, the frame about −l and the light's jitter (the old grid when there was one), a failing sample's error is the result, an empty grid is non-finite (0/0), and otherwise it succeeds and the result times the non-empty grid's size is the sum of the per-sample transmissions over that grid |
| Tracer.SoftShadowInUnitRange | src/renderer/SimpleRayTracer.java:157-192 | with every kT in [0, 1] the averaged transparency is in [0, 1] |
| Tracer.TransparencyOf | src/renderer/SimpleRayTracer.java:138-193 | hard shadows (value and error) for a directional light or when soft shadows are off; otherwise exactly SoftShadow's factor and error, with light i replaced by SoftShadow's light; only light i can gain a grid; in [0, 1] when every kT is |
| Shading.LightStep | src/renderer/SimpleRayTracer.java:88-99 | one light's term; only that light can gain a grid |
| Shading.LitStep | src/renderer/SimpleRayTracer.java:93-98 | a light whose ktr·k is below the threshold leaves the colour as it is; otherwise a failing specular term is the error, then an infinite intensity, in the source's order; the lights stay as given |
| Shading.LightsFrom | src/renderer/SimpleRayTracer.java:88-100 | the light loop from light i on; the lights only gain grids |
| Shading.LocalEffects | src/renderer/SimpleRayTracer.java:79-102 | fails exactly when the normal fails or, for n·v ≠ 0, when the light loop fails; the lights only gain grids |
| Shading.TangentViewShowsEmission | src/renderer/SimpleRayTracer.java:85-86 | when n·v = 0 the colour is the emission and the lights are untouched |
| Shading.NoLightsShowEmission | src/renderer/SimpleRayTracer.java:79-102 | without lights the colour is the emission |
| Shading.LightBehindAddsNothing | src/renderer/SimpleRayTracer.java:90-91 | a light on the other side from the viewer (nl·nv ≤ 0) adds nothing |
| Shading.OpaqueOccluderAddsNothing | src/renderer/SimpleRayTracer.java:141-152 | with hard shadows, an opaque hit on the shadow ray makes the light add nothing |
| Shading.WeakLightAddsNothing | src/renderer/SimpleRayTracer.java:93 | a light whose ktr·k is below 0.001 adds nothing |
| Shading.ColorAt | src/renderer/SimpleRayTracer.java:65-70 | calcColor with the level; the lights only gain grids |
| Shading.GlobalEffects | src/renderer/SimpleRayTracer.java:204-211 | the sum of the refracted and reflected effects; the lights only gain grids |
| Shading.GlobalEffect | src/renderer/SimpleRayTracer.java:221-227 | one secondary ray's effect; the lights only gain grids |
| Shading.TraceRayOf | src/renderer/SimpleRayTracer.java:45-63 | a failing closest-hit search is that error, a miss is the background with the lights untouched, and the lights only gain grids |
| Shading.MatteShowsLocalEffects | src/renderer/SimpleRayTracer.java:65-70 | on a geometry other than a tube with kT = kR = 0, the colour at any level is the local effects |
| Shading.MatteHasNoGlobalEffects | src/renderer/SimpleRayTracer.java:204-211 | on a geometry other than a tube with kT = kR = 0 and a defined normal, the global effects are black and touch no light |
| Shading.BlackEffects | src/renderer/SimpleRayTracer.java:204-211 | two black secondary effects give black global effects |
| Shading.LevelOneIsLocal | src/renderer/SimpleRayTracer.java:68 | at level 1 the colour is the local effects alone |
| Shading.NegligibleRayIsBlack | src/renderer/SimpleRayTracer.java:222-223 | a secondary ray weighted below 0.001 is black and traces nothing |
| Shading.MissShowsBackground | src/renderer/SimpleRayTracer.java:224-226 | a secondary ray that hits nothing shows the background scaled by kx |
| Shading.WeightZeroIsBlack | src/renderer/SimpleRayTracer.java:221-223 | a secondary ray weighted by zero is black |
| Shading.FlatNormalReflects | src/renderer/SimpleRayTracer.java:249-253 | where the normal is a unit vector, the reflected ray never fails |
| Shading.UnlitMatteHit | src/renderer/SimpleRayTracer.java:45-63 | with no lights, a closest hit on a geometry other than a tube with kT = kR = 0 shows its emission plus the ambient light |
| Shading.ClosestHit | src/renderer/SimpleRayTracer.java:235-239 | equals FindClosestIntersection |
| Shading.Transparency | src/renderer/SimpleRayTracer.java:138-193 | equals TransparencyOf; the lights only gain grids, and only light i's |
| Shading.CalcLocalEffects | src/renderer/SimpleRayTracer.java:79-102 | equals LocalEffects, colour and lights |
| Shading.CalcColor | src/renderer/SimpleRayTracer.java:65-70 | equals ColorAt, colour and lights |
| Shading.CalcGlobalEffects | src/renderer/SimpleRayTracer.java:204-211 | equals GlobalEffects, colour and lights |
| Shading.CalcGlobalEffect | src/renderer/SimpleRayTracer.java:221-227 | equals GlobalEffect, colour and lights |
| Shading.SimpleRayTracer.constructor | src/renderer/SimpleRayTracer.java:35-37 | the given scene, soft shadows on |
| Shading.SimpleRayTracer.TraceRay | src/renderer/SimpleRayTracer.java:45-51 | stores the flag, returns TraceRayOf's colour and leaves the scene with only its lights' grids built |
| Retrace.EvolvedAntisymmetric | src/renderer/Blackboard.java:55 | a grid once built is never removed, so two evolutions that undo each other change nothing |
| Retrace.SoftShadowReplays | src/renderer/Blackboard.java:55 | querying a light again after its grid is built gives the same soft shadow and keeps the grid |
| Retrace.TransparencyReplays | src/renderer/SimpleRayTracer.java:138-193 | with lights between the old ones and the final ones, transparency gives the same value |
| Retrace.SoftTransparencyReplays | src/renderer/SimpleRayTracer.java:157-192 | the same for the soft-shadow branch |
| Retrace.LightStepReplays | src/renderer/SimpleRayTracer.java:88-99 | one light's term is the same with partly evolved lights |
| Retrace.LightsFromReplays | src/renderer/SimpleRayTracer.java:88-100 | the light loop gives the same colour with partly evolved lights |
| Retrace.LocalEffectsReplays | src/renderer/SimpleRayTracer.java:79-102 | the local effects are the same with partly evolved lights |
| Retrace.ColorAtReplays | src/renderer/SimpleRayTracer.java:65-70 | calcColor gives the same colour with partly evolved lights |
| Retrace.GlobalEffectsReplays | src/renderer/SimpleRayTracer.java:204-211 | the global effects are the same with partly evolved lights |
| Retrace.GlobalEffectReplays | src/renderer/SimpleRayTracer.java:221-227 | one secondary ray's effect is the same with partly evolved lights |
| Retrace.TraceRayReplays | src/renderer/SimpleRayTracer.java:45-63 | traceRay gives the same colour with partly evolved lights |
| Retrace.TraceRayIdempotent | src/renderer/SimpleRayTracer.java:45-63 | tracing the same ray again, with the lights the first trace left, gives the same colour and lights |

## Where the model follows the code rather than the documentation

The project's written description differs from its code in several places.
The model does what the code does:

- The sphere returns the far root first when both roots are kept (src/geometries/Sphere.java:83-84).
- The tube:
  - recognises its own axis by object identity; the model passes this as `sameObject` to `Tubes.Intersections`; `Intersectable` always dispatches with `false`, which is right for every ray the tracer and camera create (they are never a tube's axis object) but not for a caller that queries a tube, or a `Geometries` holding it, with the tube's own axis ray;
  - measures its sphere test from the axis head, not from the nearest axis point;
  - returns [near, far] when tm − th > 0, and otherwise the far root alone, without a sign check;
  - ignores maxDistance.
- The tube normal at a point projecting onto the axis head is p − head, not normalised (src/geometries/Tube.java:32-34).
- `build` accepts a camera without a location (src/renderer/Camera.java:228-242).
- `constructRay` divides the height by nX and the width by nY (src/renderer/Camera.java:274-275). The model keeps this pairing.
- `calcGlobalEffects` passes the material coefficient as `k` and the accumulated weight as `kx` (src/renderer/SimpleRayTracer.java:207-210). The secondary colour is therefore scaled by the accumulated weight, not by kT or kR, and the model does the same.
- `setGrid` can fail with the zero-vector error when a non-zero offset and its jitter cancel (`scale(0)`), leaving the cells built so far. `Boards.OddGridNeverFails` shows that this cannot happen for odd k with jitter inside ±R/2.
- A light's soft-shadow grid is built once, around the light's position and with the frame of the first point that queries it. Later queries reuse it (src/renderer/Blackboard.java:55).
- The tracer reads `material.kT` and `kR` (src/renderer/SimpleRayTracer.java:150, 207-210), but `Material.java` declares only kD, kS and nShininess. The model's `Material` has kT and kR, defaulting to zero like the other coefficients.

## Left out

- IEEE double arithmetic: rounding, NaN and infinities as values. The model is over exact reals; `isZero`/`alignZero` are exact zero tests, and a division that would produce an infinity is an `Err(NonFinite)`.
- `primitives/Double3.java`, `primitives/Color.java` and `primitives/Util.java` are not part of this model. `add`, `product`, `scale` and `lowerThan` are taken to be component-wise, with `lowerThan` meaning every component is below the bound.
- The `AmbientLight(Color, double)` constructor (src/lighting/AmbientLight.java:46-50): it is `Lights.NewAmbientLight` with the triple (ka, ka, ka).
- Random jitter: `Util.random` becomes an injected function per light, and its bounds become preconditions of the lemmas that need them.
- `Camera.rotate` (src/renderer/Camera.java:185-218): it needs trigonometry.
- `renderImage`, `castRay`, `printGrid`, `writeToImage` (src/renderer/Camera.java:289-340): they drive the image writer. The image writer is not part of this model, so it is a type parameter of the camera.
- `Cylinder`: the class has no behaviour.
- Intersectable.ShapeIntersections: does not model a tube queried with its own axis ray object (src/geometries/Tube.java:42-43), because rays are values without identity; the dispatch always takes the non-identity branch, and only `Tubes.Intersections` with `sameObject` states the identity case.
- Composite.Geometries: holds a sequence of geometries, where `Geometries.java` holds any `Intersectable`, so a composite may contain a composite. A nested composite's result is the concatenation of its members' hits, and concatenation is associative, so the flattened sequence of leaf geometries gives the same hits in the same order; the model takes that flattened form.
- The commented-out polygon intersection (src/geometries/Polygon.java:104-137): it is not live code.
- Getters, `toString`, and the `Scene` and `Material` setters: they only read or assign one field. Scenes and materials are built as values.
- Aliasing of lights: the shading functions treat the scene's lights as values. Two list entries sharing one `PointLight` object, and hence one blackboard, are two independent lights in the model.
- Triangle and sphere unit-test instances (the hit (0.5, 0.5, 1), the normal (1, 1, 1), the maxDistance 0.5 case) are not restated with concrete coordinates. They are covered by `Triangles.Intersections`, `Spheres.Intersections` and `Spheres.IntersectionsSound`.
- Rays.GeoPointEquals: the source compares geometries with `Object.equals`, which is identity for `Geometry`; the model compares geometry values.
- Lights.SpotIntensity: its contract states the colour as a non-negative multiple of the point light's colour; the multiple is specified by `Lights.SpotFactor`.
- Tracer.CalcSpecular: its contract states the term as a non-negative multiple of kS; its bound is `Tracer.SpecularAtMostKs`.
- Shading.LightStep: its contract states only how the lights evolve. Its colour is stated by `Shading.LightBehindAddsNothing`, `Shading.OpaqueOccluderAddsNothing` and `Shading.WeakLightAddsNothing`.
- Shading.LitStep: its contract states the weak-light case and the order of failures, not the added colour of a lit step; `Shading.WeakLightAddsNothing` states the weak-light case for the whole light loop.
- Shading.LightsFrom: its contract states only how the lights evolve; its colour is stated by the lemmas on LocalEffects.
- Shading.ColorAt: its contract states only how the lights evolve. Its colour is stated by `Shading.LevelOneIsLocal`, `Shading.MatteShowsLocalEffects` and the `Retrace` lemmas.
- Shading.GlobalEffects: its contract states only how the lights evolve; its colour is stated by `Shading.MatteHasNoGlobalEffects` and `Shading.BlackEffects`.
- Shading.GlobalEffect: its contract states only how the lights evolve. Its colour is stated by `Shading.NegligibleRayIsBlack`, `Shading.MissShowsBackground` and `Shading.WeightZeroIsBlack`.
- Shading.CalcLocalEffects: on an error the lights it returns are only known to have evolved, not which partial state the exception left.
- Shading.CalcColor: on an error the lights it returns are only known to have evolved.
- Shading.CalcGlobalEffects: on an error the lights it returns are only known to have evolved.
- Shading.CalcGlobalEffect: on an error the lights it returns are only known to have evolved.
- Shading.Transparency: on an error the lights it returns are only known to have evolved.
- Shading.TraceRayOf: its contract states the miss and the failure; the colour of a hit, calcColor at level 10 with k = ONE plus the ambient light, is stated by `Shading.UnlitMatteHit` and the `Retrace` lemmas.
- Shading.SimpleRayTracer.TraceRay: on an error the scene's lights are only known to have evolved.
