/**
 * The shooting star's trail: a flat Float32Array of x, y, z triples, newest
 * point first. Each frame shifts every point one slot toward the tail, in
 * place, with a descending loop (the last point falls off), and then writes
 * the new head point into slots 0-2.
 */
module TrailBuffer {
  import opened Geometry

  /** Points held by one trail buffer. */
  const TrailPoints: nat := 30
  /** Numbers held by one trail buffer: three per point. */
  const TrailLength: nat := 3 * TrailPoints
  /** Points handed to the renderer: the buffer attribute's `count`. */
  const RenderedPoints: nat := 10

  /** A flat buffer of whole points, at least one of them. */
  predicate IsTrail(s: seq<real>) {
    |s| >= 3 && |s| % 3 == 0
  }

  /** Point `k` of a flat buffer: slots 3k, 3k+1 and 3k+2. */
  function PointAt(s: seq<real>, k: int): Vec3
    requires 0 <= k && 3 * k + 2 < |s|
  {
    Vec3(s[3 * k], s[3 * k + 1], s[3 * k + 2])
  }

  /** The buffer after the shift loop and before the head is written. */
  function Shifted(s: seq<real>): (r: seq<real>)
    requires IsTrail(s)
    ensures |r| == |s| && PointAt(r, 0) == PointAt(s, 0)
    ensures forall k :: 1 <= k && 3 * k + 2 < |s| ==> PointAt(r, k) == PointAt(s, k - 1)
  {
    s[..3] + s[..|s| - 3]
  }

  /** The buffer after one push of `p`. */
  function Pushed(s: seq<real>, p: Vec3): (r: seq<real>)
    requires IsTrail(s)
    ensures IsTrail(r) && |r| == |s|
    ensures PointAt(r, 0) == p
    ensures forall k :: 1 <= k && 3 * k + 2 < |s| ==> PointAt(r, k) == PointAt(s, k - 1)
  {
    [p.x, p.y, p.z] + s[..|s| - 3]
  }

  /** The buffer after pushing every point of `ps`, first to last. */
  function PushAll(s: seq<real>, ps: seq<Vec3>): (r: seq<real>)
    requires IsTrail(s)
    ensures IsTrail(r) && |r| == |s|
  {
    if ps == [] then s else Pushed(PushAll(s, ps[..|ps| - 1]), ps[|ps| - 1])
  }

  /**
   * After a series of pushes, point j holds the j-th most recent push, or,
   * once the pushes run out, the point that was j - |ps| slots nearer the head.
   */
  lemma {:induction false} History(s: seq<real>, ps: seq<Vec3>, j: nat)
    requires IsTrail(s) && 3 * j + 2 < |s|
    ensures PointAt(PushAll(s, ps), j) ==
              if j < |ps| then ps[|ps| - 1 - j] else PointAt(s, j - |ps|)
  {
    if ps != [] {
      var init := ps[..|ps| - 1];
      if j > 0 {
        History(s, init, j - 1);
      }
    }
  }

  /** The part of the buffer the renderer draws: its first ten points. */
  function Rendered(s: seq<real>): (r: seq<real>)
    requires |s| == TrailLength
    ensures |r| == 3 * RenderedPoints
    ensures forall k :: 0 <= k < RenderedPoints ==> PointAt(r, k) == PointAt(s, k)
  {
    s[..3 * RenderedPoints]
  }

  /** Once ten or more points have been pushed, the renderer draws exactly the ten latest, newest first. */
  lemma RenderedAreLatest(s: seq<real>, ps: seq<Vec3>)
    requires |s| == TrailLength && |ps| >= RenderedPoints
    ensures forall k :: 0 <= k < RenderedPoints ==>
              PointAt(Rendered(PushAll(s, ps)), k) == ps[|ps| - 1 - k]
  {
    forall k | 0 <= k < RenderedPoints
      ensures PointAt(Rendered(PushAll(s, ps)), k) == ps[|ps| - 1 - k]
    {
      History(s, ps, k);
    }
  }

  /** The shift loop: moves every point one slot toward the tail, in place, last slot first. */
  method ShiftInPlace(a: array<real>)
    requires IsTrail(a[..])
    modifies a
    ensures a[..] == Shifted(old(a[..]))
  {
    var i := a.Length - 3;
    while i >= 3
      invariant 0 <= i <= a.Length - 3 && i % 3 == 0
      invariant forall k :: i + 3 <= k < a.Length ==> a[k] == old(a[k - 3])
      invariant forall k :: 0 <= k < i + 3 ==> a[k] == old(a[k])
    {
      a[i] := a[i - 3];
      a[i + 1] := a[i - 2];
      a[i + 2] := a[i - 1];
      i := i - 3;
    }
  }

  /** One push: the shift loop, then the new point into slots 0, 1 and 2. */
  method Push(a: array<real>, p: Vec3)
    requires IsTrail(a[..])
    modifies a
    ensures a[..] == Pushed(old(a[..]), p)
  {
    ShiftInPlace(a);
    a[0] := p.x;
    a[1] := p.y;
    a[2] := p.z;
    assert a[..] == [p.x, p.y, p.z] + old(a[..])[..a.Length - 3];
  }
}
