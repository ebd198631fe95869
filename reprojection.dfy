/**
 * The reprojection step of `smoothing` (lib/src/smoothing.cpp, lines 91-100):
 * two rays are cast from the centroid along +n and -n, each capped at
 * scale/2, and the centroid is snapped to the nearer hit when one lies within
 * that distance.  The BVH is a capability: how it finds hits is not modelled.
 */
module Reprojection {
  import opened Outcomes
  import opened Vectors

  /** A ray with origin, direction and the interval [mint, maxt] of distances it searches. */
  datatype Ray = Ray(o: Vec3, d: Vec3, mint: real, maxt: real)

  /** The point at distance t along the ray: `ray(t)`. */
  function At(ray: Ray, t: real): Vec3 {
    Add(ray.o, Scale(t, ray.d))
  }

  /**
   * The BVH as the routine sees it: how many entries its face matrix holds
   * (`bvh->F()->size()`), and the value `rayIntersect` leaves in its distance
   * argument `t` for a given ray (which starts at 0 in the caller).
   */
  datatype Bvh = Bvh(faceEntries: nat, hitDistance: Ray -> real)

  /** Which point becomes the vertex's new position. */
  datatype Choice = KeepCentroid | AlongNormal | AgainstNormal

  /** `std::min`: the second argument only when it is strictly smaller. */
  function Min(a: real, b: real): (m: real)
    ensures m <= a && m <= b && (m == a || m == b)
  {
    if b < a then b else a
  }

  /**
   * The decision of lines 98-99: snap only if the nearer hit is closer than
   * scale/2; take the +n ray only if it is strictly nearer, so that a tie goes
   * to the -n ray.
   */
  function ChooseHit(t1: real, t2: real, scale: real): (c: Choice)
    ensures c == AlongNormal <==> t1 < t2 && t1 < scale * 0.5
    ensures c == AgainstNormal <==> t2 <= t1 && t2 < scale * 0.5
    ensures c == KeepCentroid <==> scale * 0.5 <= t1 && scale * 0.5 <= t2
  {
    if Min(t1, t2) < scale * 0.5 then (if t1 < t2 then AlongNormal else AgainstNormal)
    else KeepCentroid
  }

  /** Whether the routine casts rays at all: a BVH is present and holds faces. */
  predicate Enabled(bvh: Option<Bvh>) {
    bvh.Some? && bvh.value.faceEntries > 0
  }

  /** `ray1`: from the centroid along n, searching [0, scale/2]. */
  function PlusRay(centroid: Vec3, n: Vec3, scale: real): Ray {
    Ray(centroid, n, 0.0, scale / 2.0)
  }

  /** `ray2`: from the centroid along -n, searching [0, scale/2]. */
  function MinusRay(centroid: Vec3, n: Vec3, scale: real): Ray {
    Ray(centroid, Neg(n), 0.0, scale / 2.0)
  }

  /**
   * The position written for a relaxed vertex: the centroid, or the hit point
   * chosen by ChooseHit.  A hit along -n at distance t2 is the point
   * centroid - t2 * n.
   */
  function Reproject(centroid: Vec3, n: Vec3, scale: real, bvh: Option<Bvh>): (p: Vec3)
    ensures !Enabled(bvh) ==> p == centroid
    ensures Enabled(bvh) ==>
      var t1 := bvh.value.hitDistance(PlusRay(centroid, n, scale));
      var t2 := bvh.value.hitDistance(MinusRay(centroid, n, scale));
      && (scale * 0.5 <= t1 && scale * 0.5 <= t2 ==> p == centroid)
      && (t1 < t2 && t1 < scale * 0.5 ==> p == Add(centroid, Scale(t1, n)))
      && (t2 <= t1 && t2 < scale * 0.5 ==> p == Add(centroid, Scale(-t2, n)))
  {
    if Enabled(bvh) then
      var ray1 := PlusRay(centroid, n, scale);
      var ray2 := MinusRay(centroid, n, scale);
      var t1 := bvh.value.hitDistance(ray1);
      var t2 := bvh.value.hitDistance(ray2);
      match ChooseHit(t1, t2, scale)
      case KeepCentroid => centroid
      case AlongNormal => At(ray1, t1)
      case AgainstNormal => At(ray2, t2)
    else
      centroid
  }

  /**
   * When the BVH reports only distances within the rays' search interval
   * (never below mint = 0), a reprojected vertex stays on the line through
   * the centroid along n, less than scale/2 away from it.
   */
  lemma ReprojectStaysNear(centroid: Vec3, n: Vec3, scale: real, bvh: Option<Bvh>)
    requires Enabled(bvh) ==> 0.0 <= bvh.value.hitDistance(PlusRay(centroid, n, scale))
    requires Enabled(bvh) ==> 0.0 <= bvh.value.hitDistance(MinusRay(centroid, n, scale))
    ensures var p := Reproject(centroid, n, scale, bvh);
      p == centroid || exists s :: -scale * 0.5 < s < scale * 0.5 && p == Add(centroid, Scale(s, n))
  {
  }
}
