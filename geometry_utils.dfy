/**
 * src/geometry_utils.py: the incidence direction for an angle pair under the
 * corrected and the old anatomical basis, the recentring of the scene, and the
 * per-point ray casting of the whole-scene experiment.
 *
 * cos and sin of the two angles are inputs (the trigonometry is not modelled),
 * and so is the Euclidean norm of the raw direction (`np.linalg.norm`), tied to
 * the vector by `IsNormOf`.
 */
module GeometryUtils {
  import opened Vectors
  import opened Wrappers

  /** The anatomical frame: the forward axis `D_base`, `V_up` and `V_left`. */
  datatype Basis = Basis(base: Vec3, up: Vec3, left: Vec3)

  /** The corrected frame: forward +Z, up +Y, left -X. */
  const CorrectedBasis: Basis := Basis(Vec3(0.0, 0.0, 1.0), Vec3(0.0, 1.0, 0.0), Vec3(-1.0, 0.0, 0.0))

  /** The old frame: forward -Y, up +Z, left their cross product. */
  const OldBase: Vec3 := Vec3(0.0, -1.0, 0.0)
  const OldUp: Vec3 := Vec3(0.0, 0.0, 1.0)
  const OldBasis: Basis := Basis(OldBase, OldUp, Cross(OldBase, OldUp))

  predicate Orthonormal(b: Basis) {
    && SqNorm(b.base) == 1.0 && SqNorm(b.up) == 1.0 && SqNorm(b.left) == 1.0
    && Dot(b.base, b.up) == 0.0 && Dot(b.base, b.left) == 0.0 && Dot(b.up, b.left) == 0.0
  }

  /** cos(alpha), sin(alpha), cos(theta), sin(theta), as computed by numpy. */
  datatype Trig = Trig(cosAlpha: real, sinAlpha: real, cosTheta: real, sinTheta: real)

  /** The Pythagorean identity for both angles (exact trigonometry). */
  predicate UnitTrig(t: Trig) {
    t.cosAlpha * t.cosAlpha + t.sinAlpha * t.sinAlpha == 1.0
    && t.cosTheta * t.cosTheta + t.sinTheta * t.sinTheta == 1.0
  }

  /** `D_base*comp_base + V_up*comp_up + V_left*comp_left`, before normalisation. */
  function RawDirection(b: Basis, t: Trig): (raw: Vec3) {
    Add(Add(Scale(b.base, t.cosAlpha), Scale(b.up, t.sinAlpha * t.cosTheta)), Scale(b.left, t.sinAlpha * t.sinTheta))
  }

  /**
   * In an orthonormal basis the three weights are the raw vector's coordinates:
   * `comp_base`, `comp_up` and `comp_left` are read back by the dot products.
   */
  lemma RawDirectionCoordinates(b: Basis, t: Trig)
    requires Orthonormal(b)
    ensures Dot(RawDirection(b, t), b.base) == t.cosAlpha
    ensures Dot(RawDirection(b, t), b.up) == t.sinAlpha * t.cosTheta
    ensures Dot(RawDirection(b, t), b.left) == t.sinAlpha * t.sinTheta
  {
    var ca, cu, cl := t.cosAlpha, t.sinAlpha * t.cosTheta, t.sinAlpha * t.sinTheta;
    DotCombination(b.base, b.up, b.left, ca, cu, cl, b.base);
    DotCombination(b.base, b.up, b.left, ca, cu, cl, b.up);
    DotCombination(b.base, b.up, b.left, ca, cu, cl, b.left);
  }

  /** The dot product distributes over a combination of three vectors. */
  lemma DotCombination(u: Vec3, v: Vec3, w: Vec3, a: real, b: real, c: real, x: Vec3)
    ensures Dot(Add(Add(Scale(u, a), Scale(v, b)), Scale(w, c)), x) == a * Dot(u, x) + b * Dot(v, x) + c * Dot(w, x)
    ensures Dot(x, u) == Dot(u, x) && Dot(x, v) == Dot(v, x) && Dot(x, w) == Dot(w, x)
  {
  }

  /** The threshold below which the corrected variant leaves the vector as it is. */
  const NormEpsilon: real := 0.000000001

  lemma ScaleSqNorm(v: Vec3, k: real)
    ensures SqNorm(Scale(v, k)) == k * k * SqNorm(v)
  {
    calc {
      SqNorm(Scale(v, k));
      (v.x * k) * (v.x * k) + (v.y * k) * (v.y * k) + (v.z * k) * (v.z * k);
      k * k * (v.x * v.x + v.y * v.y + v.z * v.z);
    }
  }

  /** Dividing a vector by its (non-zero) norm gives a unit vector. */
  lemma DivideByNormIsUnit(v: Vec3, n: real)
    requires IsNormOf(n, v) && n > 0.0
    ensures SqNorm(Scale(v, 1.0 / n)) == 1.0
  {
    ScaleSqNorm(v, 1.0 / n);
    assert (1.0 / n) * (1.0 / n) * (n * n) == 1.0;
  }

  /** `get_direction_from_angles`: the corrected basis, normalised only when the norm exceeds 1e-9. */
  function Direction(t: Trig, norm: real): (d: Vec3)
    requires IsNormOf(norm, RawDirection(CorrectedBasis, t))
    ensures norm > NormEpsilon ==> SqNorm(d) == 1.0 && Scale(d, norm) == RawDirection(CorrectedBasis, t)
    ensures norm <= NormEpsilon ==> d == RawDirection(CorrectedBasis, t)
  {
    var raw := RawDirection(CorrectedBasis, t);
    if norm > NormEpsilon then
      DivideByNormIsUnit(raw, norm);
      Scale(raw, 1.0 / norm)
    else
      raw
  }

  /**
   * `get_direction_from_angles_old`: the old basis, divided by the norm with no
   * guard. A zero norm gives numpy's 0/0, a vector of NaNs, here `None`.
   */
  function DirectionOld(t: Trig, norm: real): (d: Option<Vec3>)
    requires IsNormOf(norm, RawDirection(OldBasis, t))
    ensures d.None? <==> norm == 0.0
    ensures d.Some? ==> SqNorm(d.value) == 1.0 && Scale(d.value, norm) == RawDirection(OldBasis, t)
  {
    var raw := RawDirection(OldBasis, t);
    if norm == 0.0 then None
    else
      DivideByNormIsUnit(raw, norm);
      Some(Scale(raw, 1.0 / norm))
  }

  /** Under the corrected basis the raw vector is (-sin a sin t, sin a cos t, cos a). */
  lemma CorrectedRawComponents(t: Trig)
    ensures RawDirection(CorrectedBasis, t)
         == Vec3(-(t.sinAlpha * t.sinTheta), t.sinAlpha * t.cosTheta, t.cosAlpha)
  {
  }

  /** Under the old basis the raw vector is (-sin a sin t, -cos a, sin a cos t). */
  lemma OldRawComponents(t: Trig)
    ensures RawDirection(OldBasis, t)
         == Vec3(-(t.sinAlpha * t.sinTheta), -t.cosAlpha, t.sinAlpha * t.cosTheta)
  {
  }

  /**
   * The two conventions are not the same frame: the old one is the corrected
   * one turned a quarter turn about the X axis, (x, y, z) -> (x, -z, y).
   */
  lemma ConventionsDifferByQuarterTurn(t: Trig)
    ensures var c := RawDirection(CorrectedBasis, t);
      RawDirection(OldBasis, t) == Vec3(c.x, -c.z, c.y)
  {
    CorrectedRawComponents(t);
    OldRawComponents(t);
  }

  /** The old frame's left axis, `np.cross(D_base, V_up)`, is -X, the same as the corrected frame's. */
  lemma OldLeftIsMinusX()
    ensures OldBasis.left == Vec3(-1.0, 0.0, 0.0) == CorrectedBasis.left
  {
  }

  /** The corrected frame is right-handed like the old one (whose left axis is base x up by construction). */
  lemma CorrectedBasisRightHanded()
    ensures CorrectedBasis.left == Cross(CorrectedBasis.base, CorrectedBasis.up)
  {
  }

  lemma CorrectedBasisOrthonormal()
    ensures Orthonormal(CorrectedBasis)
  {
  }

  lemma OldBasisOrthonormal()
    ensures Orthonormal(OldBasis)
  {
    OldLeftIsMinusX();
  }

  lemma PythagorasRaw(t: Trig)
    requires UnitTrig(t)
    ensures (t.sinAlpha * t.sinTheta) * (t.sinAlpha * t.sinTheta)
          + (t.sinAlpha * t.cosTheta) * (t.sinAlpha * t.cosTheta)
          + t.cosAlpha * t.cosAlpha == 1.0
  {
    var sa, ca, st, ct := t.sinAlpha, t.cosAlpha, t.sinTheta, t.cosTheta;
    calc {
      (sa * st) * (sa * st) + (sa * ct) * (sa * ct) + ca * ca;
      (sa * sa) * (st * st + ct * ct) + ca * ca;
      sa * sa + ca * ca;
    }
  }

  /** With exact trigonometry the raw vector already has length 1 in both frames. */
  lemma UnitTrigGivesUnitRaw(t: Trig)
    requires UnitTrig(t)
    ensures SqNorm(RawDirection(CorrectedBasis, t)) == 1.0
    ensures SqNorm(RawDirection(OldBasis, t)) == 1.0
  {
    CorrectedRawComponents(t);
    OldRawComponents(t);
    PythagorasRaw(t);
  }

  lemma UnitNormIsOne(n: real)
    requires n >= 0.0 && n * n == 1.0
    ensures n == 1.0
  {
    var d := n - 1.0;
    assert d * (n + 1.0) == n * n - 1.0;
    assert n - 1.0 == 0.0 || n + 1.0 == 0.0;
  }

  /** ... so normalisation does not change it: the direction is the raw combination. */
  lemma NormalisationIsIdentityForUnitTrig(t: Trig, norm: real)
    requires UnitTrig(t) && IsNormOf(norm, RawDirection(CorrectedBasis, t))
    ensures norm == 1.0
    ensures Direction(t, norm) == RawDirection(CorrectedBasis, t)
  {
    UnitTrigGivesUnitRaw(t);
    UnitNormIsOne(norm);
  }

  /** At zero tilt the azimuth has no effect: the raw vector is `D_base * cos(alpha)`. */
  lemma ZeroTiltIgnoresAzimuth(t: Trig, t': Trig, norm: real)
    requires t.sinAlpha == 0.0 && t' == t.(cosTheta := t'.cosTheta, sinTheta := t'.sinTheta)
    requires IsNormOf(norm, RawDirection(CorrectedBasis, t))
    ensures RawDirection(CorrectedBasis, t) == Scale(CorrectedBasis.base, t.cosAlpha)
    ensures RawDirection(CorrectedBasis, t') == RawDirection(CorrectedBasis, t)
    ensures Direction(t', norm) == Direction(t, norm)
  {
  }

  /** A pyvista `PolyData`: a point set (or a mesh's vertices) updated in place. */
  class PolyData {
    var points: seq<Vec3>

    constructor (points: seq<Vec3>)
      ensures this.points == points
    {
      this.points := points;
    }

    /** `n_points` */
    function NPoints(): (n: nat)
      reads this
    {
      |points|
    }

    /** `translate(t, inplace=True)` */
    method Translate(t: Vec3)
      modifies this
      ensures points == Translated(old(points), t)
    {
      points := Translated(points, t);
    }
  }

  /**
   * `transform_scene`: both objects moved by `-center`, with `center` the mesh's
   * centre taken before either moves. The same object passed twice moves twice.
   */
  method TransformScene(skin: PolyData, organ: PolyData, center: Vec3)
    modifies skin, organ
    ensures skin != organ ==> skin.points == Translated(old(skin.points), Neg(center))
    ensures skin != organ ==> organ.points == Translated(old(organ.points), Neg(center))
    ensures skin == organ ==> skin.points == Translated(Translated(old(skin.points), Neg(center)), Neg(center))
  {
    var translation := Neg(center);
    skin.Translate(translation);
    organ.Translate(translation);
  }

  /** Translating both by the same vector keeps every mesh-point-to-source offset. */
  lemma TranslationKeepsOffsets(mesh: seq<Vec3>, sources: seq<Vec3>, t: Vec3, i: nat, j: nat)
    requires i < |mesh| && j < |sources|
    ensures Sub(Translated(mesh, t)[i], Translated(sources, t)[j]) == Sub(mesh[i], sources[j])
  {
  }

  /**
   * The mesh's `ray_trace(origin, end_point)`: the hit points it reports, in its
   * own order. It sees the mesh's current vertices. The third argument is the
   * vector passed in the end-point position, which the caller fills with the
   * ray direction itself.
   */
  type RayTrace = (seq<Vec3>, Vec3, Vec3) -> seq<Vec3>

  /** The indices, in order, of the first `n` points whose ray reports at least one hit. */
  function HitIndices(mesh: seq<Vec3>, pts: seq<Vec3>, dir: Vec3, trace: RayTrace, n: nat): (idx: seq<nat>)
    requires n <= |pts|
    ensures |idx| <= n
    ensures forall k :: 0 <= k < |idx| ==> idx[k] < n && |trace(mesh, pts[idx[k]], dir)| > 0
  {
    if n == 0 then []
    else
      var prior := HitIndices(mesh, pts, dir, trace, n - 1);
      if |trace(mesh, pts[n - 1], dir)| > 0 then prior + [n - 1] else prior
  }

  predicate StrictlyIncreasing(s: seq<nat>) {
    forall k, l :: 0 <= k < l < |s| ==> s[k] < s[l]
  }

  /** The hitting points appear in point order, each once. */
  lemma {:induction false} HitIndicesIncreasing(mesh: seq<Vec3>, pts: seq<Vec3>, dir: Vec3, trace: RayTrace, n: nat)
    requires n <= |pts|
    ensures StrictlyIncreasing(HitIndices(mesh, pts, dir, trace, n))
  {
    if n > 0 {
      var prior := HitIndices(mesh, pts, dir, trace, n - 1);
      var idx := HitIndices(mesh, pts, dir, trace, n);
      HitIndicesIncreasing(mesh, pts, dir, trace, n - 1);
      forall k, l | 0 <= k < l < |idx|
        ensures idx[k] < idx[l]
      {
        if l < |prior| {
          assert idx[k] == prior[k] && idx[l] == prior[l];
          assert prior[k] < prior[l];
        } else {
          assert idx[k] == prior[k] < n - 1 && idx[l] == n - 1;
        }
      }
    }
  }

  /** No point whose ray hits is left out. */
  lemma {:induction false} HitIndicesComplete(mesh: seq<Vec3>, pts: seq<Vec3>, dir: Vec3, trace: RayTrace, n: nat)
    requires n <= |pts|
    ensures forall i :: 0 <= i < n && |trace(mesh, pts[i], dir)| > 0 ==> i in HitIndices(mesh, pts, dir, trace, n)
  {
    if n > 0 {
      HitIndicesComplete(mesh, pts, dir, trace, n - 1);
    }
  }

  /**
   * `calculate_intersections`: for each point in order, the FIRST hit the mesh
   * reports (not the nearest), and the point itself; points with no hit are
   * skipped.
   */
  method CalculateIntersections(skin: PolyData, organ: PolyData, dir: Vec3, trace: RayTrace)
    returns (intersections: seq<Vec3>, sources: seq<Vec3>)
    ensures var idx := HitIndices(skin.points, organ.points, dir, trace, |organ.points|);
      && |intersections| == |sources| == |idx| <= |organ.points|
      && (forall k :: 0 <= k < |idx| ==> sources[k] == organ.points[idx[k]])
      && (forall k :: 0 <= k < |idx| ==> intersections[k] == trace(skin.points, organ.points[idx[k]], dir)[0])
  {
    var mesh, pts := skin.points, organ.points;
    intersections, sources := [], [];
    for i := 0 to |pts|
      invariant |intersections| == |sources| == |HitIndices(mesh, pts, dir, trace, i)|
      invariant forall k :: 0 <= k < |sources| ==>
        && sources[k] == pts[HitIndices(mesh, pts, dir, trace, i)[k]]
        && intersections[k] == trace(mesh, pts[HitIndices(mesh, pts, dir, trace, i)[k]], dir)[0]
    {
      var hits := trace(mesh, pts[i], dir);
      ghost var idx := HitIndices(mesh, pts, dir, trace, i);
      assert HitIndices(mesh, pts, dir, trace, i + 1) == idx + (if |hits| > 0 then [i] else []);
      if |hits| > 0 {
        intersections := intersections + [hits[0]];
        sources := sources + [pts[i]];
      }
    }
  }
}
