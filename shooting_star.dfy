/**
 * One shooting star of the hero background: a point that flies along a fixed
 * direction at a fixed speed, records where it has been in a trail buffer,
 * and jumps back to where it was spawned when it leaves the |x| <= 5,
 * |y| <= 5 square.
 */
module ShootingStarMotion {
  import opened Geometry
  import opened TrailBuffer

  /** The props a shooting star is created with: spawn position, direction and speed. */
  datatype StarData = StarData(position: Vec3, direction: Vec3, speed: real)

  /** The state one frame updates: the mesh position and the trail buffer's contents. */
  datatype StarState = StarState(position: Vec3, trail: seq<real>)

  /** Half the side of the square outside which a star is sent back to its spawn point. */
  const Bound: real := 5.0

  /** The reset test: only x and y are checked, strictly. */
  predicate OutOfBounds(p: Vec3) {
    Abs(p.x) > Bound || Abs(p.y) > Bound
  }

  /** The position after `delta` seconds of flight, each axis advanced by direction * speed * delta. */
  function Advance(d: StarData, p: Vec3, delta: real): (r: Vec3)
    ensures d.direction.z == 0.0 ==> r.z == p.z
  {
    Vec3(p.x + d.direction.x * d.speed * delta,
         p.y + d.direction.y * d.speed * delta,
         p.z + d.direction.z * d.speed * delta)
  }

  /** One frame with both refs and the buffer present: move, push the moved point, reset if out. */
  function Step(d: StarData, st: StarState, delta: real): (r: StarState)
    requires IsTrail(st.trail)
    ensures IsTrail(r.trail) && |r.trail| == |st.trail|
  {
    var moved := Advance(d, st.position, delta);
    StarState(if OutOfBounds(moved) then d.position else moved, Pushed(st.trail, moved))
  }

  /** The state after one frame per element of `deltas`, in order. */
  function Run(d: StarData, st: StarState, deltas: seq<real>): (r: StarState)
    requires IsTrail(st.trail)
    ensures IsTrail(r.trail) && |r.trail| == |st.trail|
  {
    if deltas == [] then st
    else Step(d, Run(d, st, deltas[..|deltas| - 1]), deltas[|deltas| - 1])
  }

  /** The positions the frames of `deltas` integrate to, before any reset: what each frame pushes. */
  function Moves(d: StarData, st: StarState, deltas: seq<real>): (ms: seq<Vec3>)
    requires IsTrail(st.trail)
    ensures |ms| == |deltas|
  {
    if deltas == [] then []
    else
      var init := deltas[..|deltas| - 1];
      Moves(d, st, init) + [Advance(d, Run(d, st, init).position, deltas[|deltas| - 1])]
  }

  /**
   * A frame that carries the star out of the square sends it back to exactly
   * its spawn point, not to the edge, and still records the out-of-bounds
   * point at the head of the trail; a frame that keeps it inside leaves it
   * where it flew to.
   */
  lemma StepReset(d: StarData, st: StarState, delta: real)
    requires IsTrail(st.trail)
    ensures var moved := Advance(d, st.position, delta);
            && PointAt(Step(d, st, delta).trail, 0) == moved
            && (OutOfBounds(moved) ==> Step(d, st, delta).position == d.position)
            && (!OutOfBounds(moved) ==> Step(d, st, delta).position == moved)
  {
  }

  /** The example of a star spawned at the origin flying along +x at speed 10: from x = 4.5, a 0.1 s frame lands at 5.5 and resets to 0. */
  lemma ResetIsNotClamp(trail: seq<real>)
    requires IsTrail(trail)
    ensures var d := StarData(Vec3(0.0, 0.0, 0.0), Vec3(1.0, 0.0, 0.0), 10.0);
            var after := Step(d, StarState(Vec3(4.5, 0.0, 0.0), trail), 0.1);
            && after.position == Vec3(0.0, 0.0, 0.0)
            && PointAt(after.trail, 0) == Vec3(5.5, 0.0, 0.0)
  {
  }

  /**
   * A star spawned inside the square never leaves it, however many frames
   * run: every frame ends either where the star flew, if that is inside, or
   * back at the spawn point.
   */
  lemma RunStaysInBounds(d: StarData, st: StarState, deltas: seq<real>)
    requires IsTrail(st.trail)
    requires !OutOfBounds(d.position) && !OutOfBounds(st.position)
    ensures !OutOfBounds(Run(d, st, deltas).position)
  {
  }

  /**
   * With a flat direction (z = 0) and a star at its spawn depth, neither the
   * position nor any recorded trail point ever changes depth.
   */
  lemma {:induction false} RunKeepsDepth(d: StarData, st: StarState, deltas: seq<real>)
    requires IsTrail(st.trail)
    requires d.direction.z == 0.0 && st.position.z == d.position.z
    ensures Run(d, st, deltas).position.z == d.position.z
    ensures forall i :: 0 <= i < |deltas| ==> Moves(d, st, deltas)[i].z == d.position.z
  {
    if deltas != [] {
      RunKeepsDepth(d, st, deltas[..|deltas| - 1]);
    }
  }

  /** The trail after a run is the starting trail with every integrated position pushed, in order. */
  lemma {:induction false} RunTrail(d: StarData, st: StarState, deltas: seq<real>)
    requires IsTrail(st.trail)
    ensures Run(d, st, deltas).trail == PushAll(st.trail, Moves(d, st, deltas))
  {
    if deltas != [] {
      var init := deltas[..|deltas| - 1];
      RunTrail(d, st, init);
      var ms := Moves(d, st, deltas);
      assert ms[..|ms| - 1] == Moves(d, st, init);
    }
  }

  /** After any run, trail point j is where the star flew to j frames ago, before any reset. */
  lemma TrailHistory(d: StarData, st: StarState, deltas: seq<real>, j: nat)
    requires IsTrail(st.trail) && 3 * j + 2 < |st.trail| && j < |deltas|
    ensures PointAt(Run(d, st, deltas).trail, j) == Moves(d, st, deltas)[|deltas| - 1 - j]
  {
    var t, ms := Run(d, st, deltas).trail, Moves(d, st, deltas);
    assert t == PushAll(st.trail, ms) by {
      RunTrail(d, st, deltas);
    }
    assert PointAt(PushAll(st.trail, ms), j) == ms[|ms| - 1 - j] by {
      History(st.trail, ms, j);
    }
  }

  /**
   * The ShootingStar component: the spawn props, the mesh's position, the
   * two refs the renderer attaches, and the trail buffer, which is absent
   * until the mount effect allocates it.
   */
  class ShootingStar {
    const data: StarData
    var position: Vec3
    var meshMounted: bool
    var pointsMounted: bool
    var trail: array?<real>

    /** The buffer, once allocated, always holds the full trail. */
    ghost predicate Valid()
      reads this
    {
      trail != null ==> trail.Length == TrailLength
    }

    /** A frame does work only when the mesh ref, the points ref and the buffer are all there. */
    predicate Ready()
      reads this
    {
      meshMounted && pointsMounted && trail != null
    }

    /** The state a frame reads and writes. */
    ghost function State(): StarState
      reads this, trail
      requires trail != null
    {
      StarState(position, trail[..])
    }

    /** The mesh starts at the spawn position; refs and buffer are not there yet. */
    constructor (data: StarData)
      ensures Valid() && this.data == data
      ensures position == data.position
      ensures !meshMounted && !pointsMounted && trail == null
    {
      this.data := data;
      position := data.position;
      meshMounted, pointsMounted := false, false;
      trail := null;
    }

    /** The commit that attaches (or detaches) the mesh ref and the points ref. */
    method AttachRefs(mesh: bool, points: bool)
      modifies this`meshMounted, this`pointsMounted
      ensures meshMounted == mesh && pointsMounted == points
    {
      meshMounted, pointsMounted := mesh, points;
    }

    /** The mount effect: a zeroed buffer of 30 points. */
    method AllocateTrail()
      modifies this`trail
      ensures Valid() && trail != null && fresh(trail)
      ensures forall i :: 0 <= i < trail.Length ==> trail[i] == 0.0
    {
      trail := new real[TrailLength](_ => 0.0);
    }

    /**
     * One useFrame callback: a no-op unless Ready(); otherwise advance the
     * position, push it onto the trail and reset to the spawn point if it
     * left the square.
     */
    method Frame(delta: real)
      requires Valid()
      modifies this`position, trail
      ensures Valid() && trail == old(trail)
      ensures !old(Ready()) ==> position == old(position)
      ensures !old(Ready()) && trail != null ==> trail[..] == old(trail[..])
      ensures old(Ready()) ==> State() == Step(data, old(State()), delta)
    {
      if meshMounted && pointsMounted && trail != null {
        position := Advance(data, position, delta);
        var current := position;
        Push(trail, current);
        if Abs(current.x) > 5.0 || Abs(current.y) > 5.0 {
          position := data.position;
        }
      }
    }
  }

  /**
   * Stars do not interfere: a frame of one star leaves another star's
   * position and trail contents alone, provided their buffers are distinct
   * (AllocateTrail always gives a fresh one).
   */
  method FramesAreIndependent(s1: ShootingStar, s2: ShootingStar, delta: real)
    requires s1 != s2 && s1.Valid()
    requires s1.trail == null || s1.trail != s2.trail
    modifies s1`position, s1.trail
    ensures s2.position == old(s2.position) && s2.trail == old(s2.trail)
    ensures s2.trail != null ==> s2.trail[..] == old(s2.trail[..])
  {
    s1.Frame(delta);
  }
}
