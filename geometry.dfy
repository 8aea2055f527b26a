/** Points and vectors of the animated star background. */
module Geometry {

  /** A three-component real vector: a position, a direction or a trail point. */
  datatype Vec3 = Vec3(x: real, y: real, z: real)

  /** Math.abs on reals. */
  function Abs(v: real): (r: real)
    ensures r >= 0.0
    ensures r == v || r == -v
  {
    if v < 0.0 then -v else v
  }
}
