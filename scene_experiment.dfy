/**
 * src/main.py: the whole-scene experiment. The skin mesh and the thyroid
 * points are moved so that the mesh's centre is the origin, one ray per point
 * is cast along the NEGATED incidence direction (from the organ out towards
 * the skin, unlike src/ray_tracing.py, which casts along the direction as it
 * is), the first reported hit of each ray is kept, and a summary record is
 * handed to the saver under a directory named after the two angles. The
 * script runs the default angles once and then a fixed grid of angles.
 *
 * Loading (`load_data`), the validity check (`validate_setup`), the mesh's
 * centre, the trigonometry of the two angles and `ray_trace` are parameters.
 */
module SceneExperiment {
  import opened Vectors
  import opened PyStr
  import opened Config
  import opened GeometryUtils

  // ---------------------------------------------------------------------------
  // Angles and the experiment directory

  /**
   * An angle in degrees as the script passes it: an `int` from the sweep's
   * lists, or a `float` holding a whole number (the defaults `30.0` and `0.0`).
   */
  datatype Angle = IntDeg(deg: nat) | FloatDeg(deg: nat)

  function Degrees(a: Angle): (d: real) {
    a.deg as real
  }

  /** A character `str()` of an angle can contain. */
  predicate IsAngleChar(c: char) {
    '0' <= c <= '9' || c == '.'
  }

  /** `str(angle)`: `15` for an int, `30.0` for a whole float. */
  function AngleText(a: Angle): (s: string)
    ensures |s| > 0
    ensures forall i :: 0 <= i < |s| ==> IsAngleChar(s[i])
  {
    match a
    case IntDeg(d) => Decimal(d)
    case FloatDeg(d) => Decimal(d) + ".0"
  }

  /** A float's text has a `.` right after its whole part. */
  lemma FloatTextHasDot(d: nat)
    ensures |Decimal(d)| < |AngleText(FloatDeg(d))| && AngleText(FloatDeg(d))[|Decimal(d)|] == '.'
  {
  }

  /** Different angles print differently; an int and a float never print alike. */
  lemma AngleTextInjective(a: Angle, b: Angle)
    requires AngleText(a) == AngleText(b)
    ensures a == b
  {
    var s := AngleText(a);
    match (a, b)
    case (IntDeg(d), IntDeg(e)) =>
      DecimalInjective(d, e);
    case (FloatDeg(d), FloatDeg(e)) =>
      assert Decimal(d) == s[..|s| - 2] == Decimal(e);
      DecimalInjective(d, e);
    case (IntDeg(d), FloatDeg(e)) =>
      FloatTextHasDot(e);
      assert false;
    case (FloatDeg(d), IntDeg(e)) =>
      FloatTextHasDot(d);
      assert false;
  }

  /** `f"alpha_{alpha_deg}_theta_{theta_deg}"`: always a single path component. */
  function ExperimentDirName(alpha: Angle, theta: Angle): (name: string)
    ensures PlainName(name)
  {
    var a, t := AngleText(alpha), AngleText(theta);
    var name := "alpha_" + a + "_theta_" + t;
    assert forall i :: 0 <= i < |name| ==> name[i] in "alpha_theta" || IsAngleChar(name[i]);
    name
  }

  /** `RESULTS_DIR / f"alpha_{alpha_deg}_theta_{theta_deg}"` */
  function ExperimentDir(alpha: Angle, theta: Angle): (p: Path)
    ensures p.root == ResultsDir.root && p.parts == ResultsDir.parts + [ExperimentDirName(alpha, theta)]
    ensures Name(p) == ExperimentDirName(alpha, theta)
  {
    NameOfJoin(ResultsDir, ExperimentDirName(alpha, theta));
    Join(ResultsDir, ExperimentDirName(alpha, theta))
  }

  /** Where the alpha text sits in a directory name, and the `_` that follows it. */
  lemma DirNameCharAt(a: string, t: string, i: nat)
    requires i < |a|
    ensures ("alpha_" + a + "_theta_" + t)[6 + i] == a[i]
    ensures ("alpha_" + a + "_theta_" + t)[6 + |a|] == '_'
  {
  }

  /** The directory name gives back both angles: no two settings share a directory. */
  lemma {:induction false} ExperimentDirNameInjective(alpha: Angle, theta: Angle, alpha': Angle, theta': Angle)
    requires ExperimentDirName(alpha, theta) == ExperimentDirName(alpha', theta')
    ensures alpha == alpha' && theta == theta'
  {
    var a, t, a', t' := AngleText(alpha), AngleText(theta), AngleText(alpha'), AngleText(theta');
    var name := ExperimentDirName(alpha, theta);
    assert name == "alpha_" + a + "_theta_" + t;
    assert name == "alpha_" + a' + "_theta_" + t';
    if |a| < |a'| {
      DirNameCharAt(a', t', |a|);
      assert false;
    } else if |a'| < |a| {
      DirNameCharAt(a, t, |a'|);
      assert false;
    }
    assert a == name[6..6 + |a|] == a';
    assert t == name[6 + |a| + 7..] == t';
    AngleTextInjective(alpha, alpha');
    AngleTextInjective(theta, theta');
  }

  // ---------------------------------------------------------------------------
  // run_single_experiment

  /** `-get_direction_from_angles(alpha, theta)`: the ray runs from the organ towards the skin. */
  function CastDirection(t: Trig, norm: real): (d: Vec3)
    requires IsNormOf(norm, RawDirection(CorrectedBasis, t))
    ensures Add(d, Direction(t, norm)) == Vec3(0.0, 0.0, 0.0)
  {
    Neg(Direction(t, norm))
  }

  /**
   * With exact trigonometry the whole-scene experiment and the key-point ray
   * tracer cast in exactly opposite unit directions, never the same one.
   */
  lemma OppositeCastDirections(t: Trig, norm: real)
    requires UnitTrig(t) && IsNormOf(norm, RawDirection(CorrectedBasis, t))
    ensures SqNorm(CastDirection(t, norm)) == SqNorm(Direction(t, norm)) == 1.0
    ensures Dot(CastDirection(t, norm), Direction(t, norm)) == -1.0
    ensures CastDirection(t, norm) != Direction(t, norm)
  {
    NormalisationIsIdentityForUnitTrig(t, norm);
    UnitTrigGivesUnitRaw(t);
    var d := Direction(t, norm);
    assert Dot(CastDirection(t, norm), d) == -SqNorm(d);
  }

  /** One entry of `source_to_intersection_map`. */
  datatype SourceHit = SourceHit(source: Vec3, intersection: Vec3)

  /** `zip(source_points, intersection_points)`: pairs up to the shorter of the two. */
  function Zip(sources: seq<Vec3>, intersections: seq<Vec3>): (pairs: seq<SourceHit>)
    ensures |pairs| == if |sources| <= |intersections| then |sources| else |intersections|
    ensures forall k :: 0 <= k < |pairs| ==> pairs[k] == SourceHit(sources[k], intersections[k])
  {
    if sources == [] || intersections == [] then []
    else [SourceHit(sources[0], intersections[0])] + Zip(sources[1..], intersections[1..])
  }

  /** The metadata dictionary, without its timestamp. */
  datatype ExperimentRecord = ExperimentRecord(
    alpha: Angle, theta: Angle,
    skinFile: string, sourceFile: string,
    totalSourcePoints: nat, raysThatHit: nat,
    pairs: seq<SourceHit>)

  /** How one experiment ends: stopped by the validity check, or handed to the saver. */
  datatype ExperimentOutcome =
    | Invalid
    | Saved(dir: Path, intersections: seq<Vec3>, metadata: ExperimentRecord)

  /**
   * `run_single_experiment(alpha, theta)` on the loaded `skin` and `thyroid`
   * (two separate objects), given what `validate_setup` answered, the mesh's
   * centre, the angles' trigonometry and the mesh's `ray_trace`.
   */
  method RunSingleExperiment(alpha: Angle, theta: Angle, skin: PolyData, thyroid: PolyData, valid: bool,
                             center: Vec3, t: Trig, norm: real, trace: RayTrace)
    returns (outcome: ExperimentOutcome)
    requires skin != thyroid
    requires IsNormOf(norm, RawDirection(CorrectedBasis, t))
    modifies skin, thyroid
    ensures !valid ==> outcome == Invalid && skin.points == old(skin.points) && thyroid.points == old(thyroid.points)
    ensures valid ==>
      && skin.points == Translated(old(skin.points), Neg(center))
      && thyroid.points == Translated(old(thyroid.points), Neg(center))
    ensures valid ==> outcome.Saved? && outcome.dir == ExperimentDir(alpha, theta)
    ensures valid ==>
      var dir := CastDirection(t, norm);
      var idx := HitIndices(skin.points, thyroid.points, dir, trace, |thyroid.points|);
      var record := outcome.metadata;
      && record.alpha == alpha && record.theta == theta
      && record.skinFile == "skin.obj" && record.sourceFile == "thyroid.obj"
      && record.totalSourcePoints == |thyroid.points|
      && record.raysThatHit == |outcome.intersections| == |idx| == |record.pairs|
      && forall k :: 0 <= k < |idx| ==>
        && outcome.intersections[k] == trace(skin.points, thyroid.points[idx[k]], dir)[0]
        && record.pairs[k] == SourceHit(thyroid.points[idx[k]], outcome.intersections[k])
  {
    if !valid {
      return Invalid;
    }
    TransformScene(skin, thyroid, center);
    var rayDirection := CastDirection(t, norm);
    var intersections, sources := CalculateIntersections(skin, thyroid, rayDirection, trace);
    var record := ExperimentRecord(alpha, theta, "skin.obj", "thyroid.obj",
                                   thyroid.NPoints(), |intersections|, Zip(sources, intersections));
    outcome := Saved(ExperimentDir(alpha, theta), intersections, record);
  }

  // ---------------------------------------------------------------------------
  // The script's sweep

  /** The angles of one experiment. */
  datatype Setting = Setting(alpha: Angle, theta: Angle)

  /** `DEFAULT_ALPHA_DEG` and `DEFAULT_THETA_DEG`, which are floats. */
  const DefaultSetting: Setting := Setting(FloatDeg(30), FloatDeg(0))

  const SweepAlphas: seq<nat> := [15, 30, 45]
  const SweepThetas: seq<nat> := [0, 90, 180, 270]

  /** The default run first, then alpha in the outer loop and theta in the inner one. */
  predicate IsSweepOrder(runs: seq<Setting>) {
    && |runs| == 1 + |SweepAlphas| * |SweepThetas|
    && runs[0] == DefaultSetting
    && forall k :: 1 <= k < |runs| ==>
      runs[k] == Setting(IntDeg(SweepAlphas[(k - 1) / 4]), IntDeg(SweepThetas[(k - 1) % 4]))
  }

  /** The default setting carries the configured default angles. */
  lemma DefaultSettingMatchesConfig()
    ensures Degrees(DefaultSetting.alpha) == DefaultAlphaDeg
    ensures Degrees(DefaultSetting.theta) == DefaultThetaDeg
  {
  }

  /** The `__main__` block: the settings it runs the experiment with, in order. */
  method Sweep() returns (runs: seq<Setting>)
    ensures IsSweepOrder(runs)
  {
    runs := [DefaultSetting];
    for a := 0 to |SweepAlphas|
      invariant |runs| == 1 + 4 * a && runs[0] == DefaultSetting
      invariant forall k :: 1 <= k < |runs| ==>
        runs[k] == Setting(IntDeg(SweepAlphas[(k - 1) / 4]), IntDeg(SweepThetas[(k - 1) % 4]))
    {
      for b := 0 to |SweepThetas|
        invariant |runs| == 1 + 4 * a + b && runs[0] == DefaultSetting
        invariant forall k :: 1 <= k < |runs| ==>
          runs[k] == Setting(IntDeg(SweepAlphas[(k - 1) / 4]), IntDeg(SweepThetas[(k - 1) % 4]))
      {
        assert (4 * a + b) / 4 == a && (4 * a + b) % 4 == b;
        runs := runs + [Setting(IntDeg(SweepAlphas[a]), IntDeg(SweepThetas[b]))];
      }
    }
  }

  /** Each number in the sweep's lists is the next multiple of its step. */
  lemma SweepListsAreArithmetic(q: nat, r: nat)
    requires q < |SweepAlphas| && r < |SweepThetas|
    ensures SweepAlphas[q] == 15 * (q + 1) && SweepThetas[r] == 90 * r
  {
  }

  /**
   * No setting is run twice as the script spells it: an int angle and a float
   * angle are different settings (see `SweepRepeatsDefaultAngles`).
   */
  lemma {:induction false} SweepSettingsDistinct(runs: seq<Setting>)
    requires IsSweepOrder(runs)
    ensures forall j, k :: 0 <= j < k < |runs| ==> runs[j] != runs[k]
  {
    forall j, k | 0 <= j < k < |runs|
      ensures runs[j] != runs[k]
    {
      if j > 0 {
        var qj, rj, qk, rk := (j - 1) / 4, (j - 1) % 4, (k - 1) / 4, (k - 1) % 4;
        assert j - 1 == 4 * qj + rj && k - 1 == 4 * qk + rk;
        SweepListsAreArithmetic(qj, rj);
        SweepListsAreArithmetic(qk, rk);
      }
    }
  }

  /**
   * The same angles are run twice nonetheless: the default run (30.0, 0.0) and
   * the sixth run, index 5, (30, 0) differ only in spelling, and go to two directories.
   */
  lemma SweepRepeatsDefaultAngles(runs: seq<Setting>)
    requires IsSweepOrder(runs)
    ensures Degrees(runs[0].alpha) == Degrees(runs[5].alpha) == 30.0
    ensures Degrees(runs[0].theta) == Degrees(runs[5].theta) == 0.0
    ensures runs[0] != runs[5]
    ensures ExperimentDirName(runs[0].alpha, runs[0].theta) == "alpha_30.0_theta_0.0"
    ensures ExperimentDirName(runs[5].alpha, runs[5].theta) == "alpha_30_theta_0"
  {
    assert runs[5] == Setting(IntDeg(SweepAlphas[1]), IntDeg(SweepThetas[0]));
    assert Decimal(30) == "30" && Decimal(0) == "0";
  }

  /** Different settings are saved under different directories. */
  lemma DistinctSettingsDistinctDirs(s: Setting, s': Setting)
    ensures ExperimentDir(s.alpha, s.theta) == ExperimentDir(s'.alpha, s'.theta) ==> s == s'
  {
    var p, p' := ExperimentDir(s.alpha, s.theta), ExperimentDir(s'.alpha, s'.theta);
    if p == p' {
      assert p.parts[|ResultsDir.parts|] == ExperimentDirName(s.alpha, s.theta);
      assert p'.parts[|ResultsDir.parts|] == ExperimentDirName(s'.alpha, s'.theta);
      ExperimentDirNameInjective(s.alpha, s.theta, s'.alpha, s'.theta);
    }
  }

  /** Every experiment of the sweep writes to a directory of its own. */
  lemma {:induction false} SweepDirectoriesDistinct(runs: seq<Setting>)
    requires IsSweepOrder(runs)
    ensures forall j, k :: 0 <= j < k < |runs| ==>
      ExperimentDir(runs[j].alpha, runs[j].theta) != ExperimentDir(runs[k].alpha, runs[k].theta)
  {
    SweepSettingsDistinct(runs);
    forall j, k | 0 <= j < k < |runs|
      ensures ExperimentDir(runs[j].alpha, runs[j].theta) != ExperimentDir(runs[k].alpha, runs[k].theta)
    {
      DistinctSettingsDistinctDirs(runs[j], runs[k]);
    }
  }
}
