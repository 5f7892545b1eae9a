/**
 * geometries.Geometries: a composite of geometries whose intersection is the
 * concatenation of its members' hits, in insertion order, with "no list"
 * standing for "no hits".
 */
module Composite {
  import opened Reals
  import opened Wrappers
  import opened Rays
  import opened Intersectable

  /** The hits of one member; a missing list counts as no hits. */
  function HitsOf(sqrt: real -> real, g: Geometry, ray: Ray, maxDistance: ExtReal): (r: Result<seq<GeoPoint<Geometry>>>)
    requires IsSqrt(sqrt)
    ensures var f := FindGeoIntersections(sqrt, g, ray, maxDistance);
      (r.Ok? <==> f.Ok?) && (r.Err? ==> r.error == f.error) &&
      (r.Ok? ==> (r.value == [] <==> f.value.None?) && (f.value.Some? ==> r.value == f.value.value))
  {
    var f := FindGeoIntersections(sqrt, g, ray, maxDistance);
    if f.Err? then Err(f.error)
    else if f.value.None? then Ok([])
    else Ok(f.value.value)
  }

  /**
   * A reference for the composite's answer, taken member by member from the
   * front: every member's hits concatenated in order, or the first failure.
   */
  function AllHits(sqrt: real -> real, gs: seq<Geometry>, ray: Ray, maxDistance: ExtReal): Result<seq<GeoPoint<Geometry>>>
    requires IsSqrt(sqrt)
  {
    if gs == [] then Ok([])
    else
      var first := HitsOf(sqrt, gs[0], ray, maxDistance);
      if first.Err? then first
      else
        var rest := AllHits(sqrt, gs[1..], ray, maxDistance);
        if rest.Err? then rest else Ok(first.value + rest.value)
  }

  /** One loop step: a missing list keeps the accumulated list, otherwise the lists are joined. */
  function Join(acc: Option<seq<GeoPoint<Geometry>>>, hits: Option<seq<GeoPoint<Geometry>>>): (r: Option<seq<GeoPoint<Geometry>>>)
    ensures hits.None? ==> r == acc
    ensures hits.Some? ==> r.Some? && r.value == (if acc.None? then [] else acc.value) + hits.value
  {
    if hits.None? then acc
    else if acc.None? then Some(hits.value)
    else Some(acc.value + hits.value)
  }

  /**
   * The composite's search as its loop computes it, over the first members:
   * no list for no members; a member's failure propagates; otherwise its hits
   * are joined to those of the members before it.
   */
  function Aggregate(sqrt: real -> real, gs: seq<Geometry>, ray: Ray, maxDistance: ExtReal): Result<Option<seq<GeoPoint<Geometry>>>>
    requires IsSqrt(sqrt)
    decreases |gs|
  {
    if gs == [] then Ok(None)
    else
      var before := Aggregate(sqrt, gs[..|gs| - 1], ray, maxDistance);
      if before.Err? then before
      else
        var hits := FindGeoIntersections(sqrt, gs[|gs| - 1], ray, maxDistance);
        if hits.Err? then Err(hits.error) else Ok(Join(before.value, hits.value))
  }

  class Geometries {
    var geo: seq<Geometry>

    /** Geometries(): an empty composite. */
    constructor Empty()
      ensures geo == []
    {
      geo := [];
    }

    /** Geometries(geometries...): the given members, in order. */
    constructor (geometries: seq<Geometry>)
      ensures geo == geometries
    {
      geo := geometries;
    }

    /** Geometries.add: appends the arguments in order and keeps the existing members. */
    method Add(geometries: seq<Geometry>)
      modifies this
      ensures geo == old(geo) + geometries
    {
      geo := geo + geometries;
    }

    /**
     * Geometries.findGeoIntersectionsHelper: asks every member in order with
     * the same maxDistance and concatenates the lists that are present.
     */
    method FindGeoIntersections(sqrt: real -> real, ray: Ray, maxDistance: ExtReal)
        returns (r: Result<Option<seq<GeoPoint<Geometry>>>>)
      requires IsSqrt(sqrt)
      ensures r == Aggregate(sqrt, geo, ray, maxDistance)
    {
      var intersections: Option<seq<GeoPoint<Geometry>>> := None;
      for i := 0 to |geo|
        invariant Aggregate(sqrt, geo[..i], ray, maxDistance) == Ok(intersections)
      {
        assert geo[..i + 1][..i] == geo[..i];
        var geoPoints := Intersectable.FindGeoIntersections(sqrt, geo[i], ray, maxDistance);
        if geoPoints.Err? {
          AggregateFailureSticks(sqrt, geo, ray, maxDistance, i + 1, |geo|);
          assert geo[..|geo|] == geo;
          return Err(geoPoints.error);
        }
        if geoPoints.value.Some? {
          if intersections.None? {
            intersections := Some(geoPoints.value.value);
          } else {
            intersections := Some(intersections.value + geoPoints.value.value);
          }
        }
      }
      assert geo[..|geo|] == geo;
      return Ok(intersections);
    }
  }

  /** Once a member fails, the composite fails with that error, whatever follows. */
  lemma {:induction false} AggregateFailureSticks(sqrt: real -> real, gs: seq<Geometry>, ray: Ray, maxDistance: ExtReal, n: nat, m: nat)
    requires IsSqrt(sqrt)
    requires n <= m <= |gs|
    requires Aggregate(sqrt, gs[..n], ray, maxDistance).Err?
    ensures Aggregate(sqrt, gs[..m], ray, maxDistance) == Aggregate(sqrt, gs[..n], ray, maxDistance)
    decreases m - n
  {
    if n < m {
      assert gs[..n + 1][..n] == gs[..n];
      AggregateFailureSticks(sqrt, gs, ray, maxDistance, n + 1, m);
    }
  }

  /** The front-first reference splits at the last member. */
  lemma {:induction false} AllHitsSnoc(sqrt: real -> real, gs: seq<Geometry>, g: Geometry, ray: Ray, maxDistance: ExtReal)
    requires IsSqrt(sqrt)
    ensures var a, h := AllHits(sqrt, gs, ray, maxDistance), HitsOf(sqrt, g, ray, maxDistance);
      AllHits(sqrt, gs + [g], ray, maxDistance) ==
        (if a.Err? then a else if h.Err? then h else Ok(a.value + h.value))
  {
    if gs == [] {
      assert gs + [g] == [g] && [g][1..] == [];
      var h := HitsOf(sqrt, g, ray, maxDistance);
      if h.Ok? {
        assert h.value + [] == h.value && [] + h.value == h.value;
      }
    } else {
      assert (gs + [g])[0] == gs[0];
      assert (gs + [g])[1..] == gs[1..] + [g];
      AllHitsSnoc(sqrt, gs[1..], g, ray, maxDistance);
      var first := HitsOf(sqrt, gs[0], ray, maxDistance);
      var rest := AllHits(sqrt, gs[1..], ray, maxDistance);
      var h := HitsOf(sqrt, g, ray, maxDistance);
      if first.Ok? && rest.Ok? && h.Ok? {
        assert first.value + (rest.value + h.value) == (first.value + rest.value) + h.value;
      }
    }
  }

  /**
   * The loop's result agrees with the reference: the same first failure, no
   * list exactly when no member has hits, and otherwise every member's hits
   * concatenated in insertion order.
   */
  lemma {:induction false} AggregateIsAllHits(sqrt: real -> real, gs: seq<Geometry>, ray: Ray, maxDistance: ExtReal)
    requires IsSqrt(sqrt)
    ensures var r, a := Aggregate(sqrt, gs, ray, maxDistance), AllHits(sqrt, gs, ray, maxDistance);
      (r.Err? <==> a.Err?) && (r.Err? ==> r.error == a.error) &&
      (r.Ok? ==> (r.value.None? <==> a.value == []) && (r.value.Some? ==> r.value.value == a.value))
    decreases |gs|
  {
    if gs != [] {
      var init, g := gs[..|gs| - 1], gs[|gs| - 1];
      assert gs == init + [g];
      AggregateIsAllHits(sqrt, init, ray, maxDistance);
      AllHitsSnoc(sqrt, init, g, ray, maxDistance);
    }
  }

  /** The number of hits of every member, summed. */
  function HitCount(sqrt: real -> real, gs: seq<Geometry>, ray: Ray, maxDistance: ExtReal): nat
    requires IsSqrt(sqrt)
  {
    if gs == [] then 0
    else
      var h := HitsOf(sqrt, gs[0], ray, maxDistance);
      (if h.Ok? then |h.value| else 0) + HitCount(sqrt, gs[1..], ray, maxDistance)
  }

  /** A composite's list has as many points as its members' lists together. */
  lemma {:induction false} AllHitsSize(sqrt: real -> real, gs: seq<Geometry>, ray: Ray, maxDistance: ExtReal)
    requires IsSqrt(sqrt)
    ensures AllHits(sqrt, gs, ray, maxDistance).Ok? ==> |AllHits(sqrt, gs, ray, maxDistance).value| == HitCount(sqrt, gs, ray, maxDistance)
  {
    if gs != [] {
      AllHitsSize(sqrt, gs[1..], ray, maxDistance);
    }
  }

  /** No list exactly when every member answers with no list (an empty composite included). */
  lemma {:induction false} AggregateNone(sqrt: real -> real, gs: seq<Geometry>, ray: Ray, maxDistance: ExtReal)
    requires IsSqrt(sqrt)
    ensures Aggregate(sqrt, gs, ray, maxDistance) == Ok(None) <==>
      forall i :: 0 <= i < |gs| ==> Intersectable.FindGeoIntersections(sqrt, gs[i], ray, maxDistance) == Ok(None)
    decreases |gs|
  {
    if gs != [] {
      var init := gs[..|gs| - 1];
      AggregateNone(sqrt, init, ray, maxDistance);
      assert forall i :: 0 <= i < |init| ==> init[i] == gs[i];
    }
  }
}
