/**
 * Three-component vectors over the reals: the numpy arrays of shape (3,) that
 * the ray tracer passes around, with exact arithmetic in place of floating point.
 */
module Vectors {
  datatype Vec3 = Vec3(x: real, y: real, z: real)

  /** The coordinate axes, indexed 0, 1, 2 as in `vertices[:, axis]`. */
  datatype Axis = X | Y | Z

  function Coord(v: Vec3, axis: Axis): (c: real) {
    match axis
    case X => v.x
    case Y => v.y
    case Z => v.z
  }

  function Add(a: Vec3, b: Vec3): (sum: Vec3) { Vec3(a.x + b.x, a.y + b.y, a.z + b.z) }

  function Sub(a: Vec3, b: Vec3): (diff: Vec3) { Vec3(a.x - b.x, a.y - b.y, a.z - b.z) }

  function Neg(a: Vec3): (neg: Vec3) { Vec3(-a.x, -a.y, -a.z) }

  function Scale(a: Vec3, k: real): (scaled: Vec3) { Vec3(a.x * k, a.y * k, a.z * k) }

  function Dot(a: Vec3, b: Vec3): (dot: real) { a.x * b.x + a.y * b.y + a.z * b.z }

  function Cross(a: Vec3, b: Vec3): (cross: Vec3) {
    Vec3(a.y * b.z - a.z * b.y, a.z * b.x - a.x * b.z, a.x * b.y - a.y * b.x)
  }

  /** The squared Euclidean norm; `np.linalg.norm` is its square root. */
  function SqNorm(a: Vec3): (sq: real) { Dot(a, a) }

  /** The squared Euclidean distance between two points. */
  function SqDist(a: Vec3, b: Vec3): (sq: real) { SqNorm(Sub(a, b)) }

  lemma SquareNonNegative(r: real)
    ensures r * r >= 0.0
  {
    if r < 0.0 {
      var m := -r;
      assert m * m > 0.0;
      assert r * r == m * m;
    }
  }

  /** A squared norm, and so a squared distance, is never negative. */
  lemma SqNormNonNegative(v: Vec3)
    ensures SqNorm(v) >= 0.0
  {
    SquareNonNegative(v.x);
    SquareNonNegative(v.y);
    SquareNonNegative(v.z);
  }

  /** `n` is the Euclidean norm of `a` (the value `np.linalg.norm(a)` returns). */
  predicate IsNormOf(n: real, a: Vec3) { n >= 0.0 && n * n == SqNorm(a) }

  /** Every point moved by the same vector `t`. */
  function Translated(ps: seq<Vec3>, t: Vec3): (moved: seq<Vec3>) {
    seq(|ps|, i requires 0 <= i < |ps| => Add(ps[i], t))
  }

  /** `np.tile(d, (n, 1))`: the same row repeated `n` times. */
  function Tile(d: Vec3, n: nat): (ds: seq<Vec3>) { seq(n, _ => d) }
}
