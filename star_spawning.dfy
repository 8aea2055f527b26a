/**
 * The random layouts drawn once when the backgrounds mount: the eight
 * shooting stars' spawn data, the subtle background's box of 500 points, and
 * the shell radius of the hero field. Every draw of Math.random() is a
 * parameter, taken in the order the source consumes them.
 */
module StarSpawning {
  import opened Geometry
  import opened RandomRanges
  import opened ShootingStarMotion

  /** Shooting stars in the hero background. */
  const ShootingStarCount: nat := 8
  /** Draws one shooting star consumes: position x, y, z, direction x, y, speed. */
  const DrawsPerShootingStar: nat := 6
  /** Points in a subtle background field. */
  const SubtleStarCount: nat := 500

  /** Where spawn data is meant to land: position in [-2,2)x[-2,2)x[-1,1), a flat direction in [-1,1)^2, speed in [0.5,1.5). */
  predicate InSpawnRange(s: StarData) {
    && -2.0 <= s.position.x < 2.0 && -2.0 <= s.position.y < 2.0 && -1.0 <= s.position.z < 1.0
    && -1.0 <= s.direction.x < 1.0 && -1.0 <= s.direction.y < 1.0 && s.direction.z == 0.0
    && 0.5 <= s.speed < 1.5
  }

  /** One element of shootingStarsData, from six consecutive draws. */
  function SpawnStar(rs: seq<real>): (s: StarData)
    requires |rs| == DrawsPerShootingStar
    ensures s.direction.z == 0.0
    ensures AreDraws(rs) <==> InSpawnRange(s)
  {
    CenteredRange(rs[0], 4.0);
    CenteredRange(rs[1], 4.0);
    CenteredRange(rs[2], 2.0);
    CenteredRange(rs[3], 2.0);
    CenteredRange(rs[4], 2.0);
    OffsetRange(rs[5], 1.0, 0.5);
    StarData(Vec3(Centered(rs[0], 4.0), Centered(rs[1], 4.0), Centered(rs[2], 2.0)),
             Vec3(Centered(rs[3], 2.0), Centered(rs[4], 2.0), 0.0),
             Offset(rs[5], 1.0, 0.5))
  }

  /** shootingStarsData: eight stars, star i from draws 6i to 6i+5. */
  function ShootingStarsData(rs: seq<real>): (stars: seq<StarData>)
    requires |rs| == ShootingStarCount * DrawsPerShootingStar
    ensures |stars| == ShootingStarCount
    ensures AreDraws(rs) ==> forall i :: 0 <= i < |stars| ==> InSpawnRange(stars[i])
  {
    seq(ShootingStarCount, i requires 0 <= i < ShootingStarCount =>
      SpawnStar(rs[DrawsPerShootingStar * i..DrawsPerShootingStar * i + DrawsPerShootingStar]))
  }

  /** Every spawn point lies strictly inside the reset square, so a spawned star never leaves it. */
  lemma SpawnedStarStaysInBounds(rs: seq<real>, trail: seq<real>, deltas: seq<real>)
    requires |rs| == DrawsPerShootingStar && AreDraws(rs)
    requires TrailBuffer.IsTrail(trail)
    ensures var s := SpawnStar(rs);
            !OutOfBounds(Run(s, StarState(s.position, trail), deltas).position)
  {
    var s := SpawnStar(rs);
    RunStaysInBounds(s, StarState(s.position, trail), deltas);
  }

  /** A spawned star keeps its spawn depth on every frame. */
  lemma SpawnedStarKeepsDepth(rs: seq<real>, trail: seq<real>, deltas: seq<real>)
    requires |rs| == DrawsPerShootingStar
    requires TrailBuffer.IsTrail(trail)
    ensures var s := SpawnStar(rs);
            Run(s, StarState(s.position, trail), deltas).position.z == s.position.z
  {
    var s := SpawnStar(rs);
    RunKeepsDepth(s, StarState(s.position, trail), deltas);
  }

  /** Half the side of the subtle box along `axis` (0 = x, 1 = y, 2 = z). */
  function SubtleHalfExtent(axis: int): real {
    if axis == 2 then 2.5 else 5.0
  }

  /** One coordinate of the subtle field: `(Math.random() - 0.5) * 10` on x and y, `* 5` on z. */
  function SubtleCoordinate(r: real, axis: int): (c: real)
    ensures IsDraw(r) <==> -SubtleHalfExtent(axis) <= c < SubtleHalfExtent(axis)
  {
    CenteredRange(r, 2.0 * SubtleHalfExtent(axis));
    Centered(r, 2.0 * SubtleHalfExtent(axis))
  }

  /** The subtle background's generator: fills a fresh buffer of 500 points, three slots per iteration. */
  method SubtleStars(rs: seq<real>) returns (positions: array<real>)
    requires |rs| == 3 * SubtleStarCount
    ensures fresh(positions) && positions.Length == 3 * SubtleStarCount
    ensures forall i :: 0 <= i < positions.Length ==> positions[i] == SubtleCoordinate(rs[i], i % 3)
    ensures AreDraws(rs) ==> forall i :: 0 <= i < positions.Length ==>
              -SubtleHalfExtent(i % 3) <= positions[i] < SubtleHalfExtent(i % 3)
  {
    positions := new real[3 * SubtleStarCount];
    var i := 0;
    while i < 3 * SubtleStarCount
      invariant 0 <= i <= 3 * SubtleStarCount && i % 3 == 0
      invariant forall k :: 0 <= k < i ==> positions[k] == SubtleCoordinate(rs[k], k % 3)
    {
      positions[i] := (rs[i] - 0.5) * 10.0;
      positions[i + 1] := (rs[i + 1] - 0.5) * 10.0;
      positions[i + 2] := (rs[i + 2] - 0.5) * 5.0;
      i := i + 3;
    }
  }

  /** The hero field's shell radius, `Math.random() * 2 + 0.5`, lies in [0.5, 2.5) exactly for a draw. */
  function ShellRadius(r: real): (radius: real)
    ensures IsDraw(r) <==> 0.5 <= radius < 2.5
  {
    OffsetRange(r, 2.0, 0.5);
    Offset(r, 2.0, 0.5)
  }
}
