/**
 * src/ray_tracing.py: the key-point-to-mesh ray tracer. Key points are read
 * from the `v ` lines of an OBJ file, one ray per point is cast along the
 * corrected incidence direction as it is (not negated), every candidate hit the
 * bulk intersector reports is attributed to its reported ray, each ray keeps
 * its nearest candidate, and the result record and two OBJ listings are built.
 *
 * The mesh and the bulk intersector (`skin_mesh.ray.intersects_location`) are
 * one function parameter; distances are compared squared.
 */
module RayTracing {
  import opened Vectors
  import opened Wrappers
  import opened PyStr
  import opened Extrema
  import opened Config
  import opened GeometryUtils

  // ---------------------------------------------------------------------------
  // load_key_points

  /** `line.startswith('v ')` */
  predicate IsVertexLine(line: string) {
    StartsWith(line, "v ")
  }

  /** `line.strip().split()[1:4]`: at most three coordinate tokens; anything after them is dropped. */
  function Coordinates(line: string): (coords: seq<string>)
    ensures |coords| <= 3
  {
    var parts := Split(line);
    if |parts| <= 1 then [] else parts[1..if |parts| < 4 then |parts| else 4]
  }

  /** The coordinate tokens of every `v ` line, in file order. */
  function ParsedPoints(lines: seq<string>): (points: seq<seq<string>>) {
    if lines == [] then []
    else
      var last := lines[|lines| - 1];
      ParsedPoints(lines[..|lines| - 1]) + (if IsVertexLine(last) then [Coordinates(last)] else [])
  }

  /** `load_key_points`, up to `float()`: the loop over the file's lines. */
  method LoadKeyPoints(lines: seq<string>) returns (points: seq<seq<string>>)
    ensures points == ParsedPoints(lines)
  {
    points := [];
    for i := 0 to |lines|
      invariant points == ParsedPoints(lines[..i])
    {
      var line := lines[i];
      if IsVertexLine(line) {
        points := points + [Coordinates(line)];
      }
      assert lines[..i + 1][..i] == lines[..i];
    }
    assert lines[..|lines|] == lines;
  }

  /** Parsing a file is parsing its parts one after the other: points keep file order. */
  lemma {:induction false} ParsedPointsAppend(a: seq<string>, b: seq<string>)
    ensures ParsedPoints(a + b) == ParsedPoints(a) + ParsedPoints(b)
    decreases |b|
  {
    if b == [] {
      assert a + b == a;
    } else {
      assert (a + b)[..|a + b| - 1] == a + b[..|b| - 1];
      ParsedPointsAppend(a, b[..|b| - 1]);
    }
  }

  /** A line that does not start with `v ` (a comment, `vn`, `f`, a blank line) adds no point. */
  lemma OtherLinesIgnored(a: seq<string>, line: string, b: seq<string>)
    requires !IsVertexLine(line)
    ensures ParsedPoints(a + [line] + b) == ParsedPoints(a + b)
  {
    ParsedPointsAppend(a + [line], b);
    ParsedPointsAppend(a, [line]);
    ParsedPointsAppend(a, b);
  }

  /** ... and a `v ` line adds exactly its own coordinates, at its place in the file. */
  lemma VertexLineAddsOnePoint(a: seq<string>, line: string, b: seq<string>)
    requires IsVertexLine(line)
    ensures ParsedPoints(a + [line] + b) == ParsedPoints(a) + [Coordinates(line)] + ParsedPoints(b)
  {
    ParsedPointsAppend(a + [line], b);
    ParsedPointsAppend(a, [line]);
  }

  /** The tokens of `v x y z` followed by whitespace and anything else. */
  lemma {:induction false} VertexLineTokens(x: string, y: string, z: string, c: char, tail: string)
    requires IsWord(x) && IsWord(y) && IsWord(z) && IsSpace(c)
    ensures Split("v" + ([' '] + (x + ([' '] + (y + ([' '] + (z + ([c] + tail)))))))) == ["v", x, y, z] + Split(tail)
  {
    assert IsWord("v");
    SplitTwoWords("v", x, ' ', y + ([' '] + (z + ([c] + tail))));
    SplitTwoWords(y, z, c, tail);
  }

  /** `v x y z` followed by whitespace and anything else (a `# name` comment) yields exactly x, y, z. */
  lemma {:induction false} VertexLineCoordinates(x: string, y: string, z: string, rest: string)
    requires IsWord(x) && IsWord(y) && IsWord(z)
    requires |rest| > 0 && IsSpace(rest[0])
    ensures IsVertexLine("v " + x + " " + y + " " + z + rest)
    ensures Coordinates("v " + x + " " + y + " " + z + rest) == [x, y, z]
  {
    var line := "v " + x + " " + y + " " + z + rest;
    var c, tail := rest[0], rest[1..];
    assert rest == [c] + tail;
    assert line == "v" + ([' '] + (x + ([' '] + (y + ([' '] + (z + ([c] + tail)))))));
    assert line[..2] == "v ";
    VertexLineTokens(x, y, z, c, tail);
    var parts := Split(line);
    assert parts[1..4] == [x, y, z];
  }

  // ---------------------------------------------------------------------------
  // Point names

  /** `f"Point_{i+1}"` */
  function SyntheticName(i: nat): (name: string) {
    "Point_" + Decimal(i + 1)
  }

  /** The names of `n` points: the mapping file's keys when there are exactly `n` of them, else `Point_1..Point_n`. */
  function PointNames(n: nat, mapping: Option<seq<string>>): (names: seq<string>)
    ensures |names| == n
    ensures mapping.Some? && |mapping.value| == n ==> names == mapping.value
    ensures !(mapping.Some? && |mapping.value| == n) ==> forall i :: 0 <= i < n ==> names[i] == SyntheticName(i)
  {
    if mapping.Some? && |mapping.value| == n then mapping.value
    else seq(n, i requires 0 <= i => SyntheticName(i))
  }

  /** The fallback names are all different, so they identify the points one to one. */
  lemma SyntheticNamesDistinct(i: nat, j: nat)
    requires i != j
    ensures SyntheticName(i) != SyntheticName(j)
  {
    if SyntheticName(i) == SyntheticName(j) {
      assert Decimal(i + 1) == SyntheticName(i)[6..];
      assert Decimal(j + 1) == SyntheticName(j)[6..];
      DecimalInjective(i + 1, j + 1);
    }
  }

  // ---------------------------------------------------------------------------
  // hit_map: candidates grouped by their reported ray

  /** One entry of the bulk intersector's report: `(location, index_ray, index_tri)`. */
  datatype Candidate = Candidate(location: Vec3, rayIndex: nat, faceIndex: nat)

  /** An entry of a `hit_map` list: `(loc, tri_idx)`. */
  datatype Reported = Reported(location: Vec3, faceId: nat)

  /** `skin_mesh.ray.intersects_location(origins, directions)`, flattened into one list of candidates. */
  type BulkIntersector = (seq<Vec3>, seq<Vec3>) -> seq<Candidate>

  predicate RaysInRange(cands: seq<Candidate>, n: nat) {
    forall c <- cands :: c.rayIndex < n
  }

  /** The intersector only reports rays it was given (an index outside them would be a KeyError in `hit_map`). */
  ghost predicate ReportsOnlyGivenRays(intersect: BulkIntersector) {
    forall origins, directions :: RaysInRange(intersect(origins, directions), |origins|)
  }

  /** The candidates reported for ray `i`, in reported order. */
  function ReportedFor(cands: seq<Candidate>, i: nat): (rs: seq<Reported>)
    ensures |rs| <= |cands|
  {
    if cands == [] then []
    else
      var c := cands[|cands| - 1];
      ReportedFor(cands[..|cands| - 1], i) + (if c.rayIndex == i then [Reported(c.location, c.faceIndex)] else [])
  }

  /** A ray's list is non-empty exactly when some candidate names that ray. */
  lemma {:induction false} ReportedForNonEmpty(cands: seq<Candidate>, i: nat)
    ensures |ReportedFor(cands, i)| > 0 <==> exists j :: 0 <= j < |cands| && cands[j].rayIndex == i
    decreases |cands|
  {
    if cands != [] {
      var n := |cands|;
      ReportedForNonEmpty(cands[..n - 1], i);
      assert forall j :: 0 <= j < n - 1 ==> cands[..n - 1][j] == cands[j];
    }
  }

  /** The `hit_map` loop: every candidate is appended to the list of its reported ray. */
  method GroupByRay(n: nat, cands: seq<Candidate>) returns (hitMap: map<nat, seq<Reported>>)
    requires RaysInRange(cands, n)
    ensures forall i: nat :: i in hitMap <==> i < n
    ensures forall i: nat :: i < n ==> hitMap[i] == ReportedFor(cands, i)
  {
    hitMap := map[];
    for i := 0 to n
      invariant forall j: nat :: j in hitMap <==> j < i
      invariant forall j: nat :: j < i ==> hitMap[j] == []
    {
      hitMap := hitMap[i := []];
    }
    for k := 0 to |cands|
      invariant forall i: nat :: i in hitMap <==> i < n
      invariant forall i: nat :: i < n ==> hitMap[i] == ReportedFor(cands[..k], i)
    {
      var c := cands[k];
      assert c in cands;
      hitMap := hitMap[c.rayIndex := hitMap[c.rayIndex] + [Reported(c.location, c.faceIndex)]];
      assert cands[..k + 1][..k] == cands[..k];
    }
    assert cands[..|cands|] == cands;
  }

  lemma {:induction false} ReportedForAppend(a: seq<Candidate>, b: seq<Candidate>, i: nat)
    ensures ReportedFor(a + b, i) == ReportedFor(a, i) + ReportedFor(b, i)
    decreases |b|
  {
    if b == [] {
      assert a + b == a;
    } else {
      assert (a + b)[..|a + b| - 1] == a + b[..|b| - 1];
      ReportedForAppend(a, b[..|b| - 1], i);
    }
  }

  /** Each candidate lands in the list of the ray it names. */
  lemma EveryCandidateAttributed(cands: seq<Candidate>, j: nat)
    requires j < |cands|
    ensures Reported(cands[j].location, cands[j].faceIndex) in ReportedFor(cands, cands[j].rayIndex)
  {
    var c := cands[j];
    assert cands == cands[..j] + [c] + cands[j + 1..];
    ReportedForAppend(cands[..j] + [c], cands[j + 1..], c.rayIndex);
    ReportedForAppend(cands[..j], [c], c.rayIndex);
    assert ReportedFor([c], c.rayIndex) == [Reported(c.location, c.faceIndex)];
  }

  /** The order in which the intersector interleaves different rays does not matter. */
  lemma InterleavingIrrelevant(a: seq<Candidate>, c: Candidate, d: Candidate, b: seq<Candidate>, i: nat)
    requires c.rayIndex != d.rayIndex
    ensures ReportedFor(a + [c, d] + b, i) == ReportedFor(a + [d, c] + b, i)
  {
    ReportedForAppend(a + [c, d], b, i);
    ReportedForAppend(a + [d, c], b, i);
    ReportedForAppend(a, [c, d], i);
    ReportedForAppend(a, [d, c], i);
    ReportedForAppend([c], [d], i);
    ReportedForAppend([d], [c], i);
    assert [c] + [d] == [c, d];
    assert [d] + [c] == [d, c];
  }

  // ---------------------------------------------------------------------------
  // Nearest hit per ray

  /** The squared distance from the ray's origin to each candidate. */
  function Distances(origin: Vec3, hits: seq<Reported>): (ds: seq<real>)
    ensures |ds| == |hits|
    ensures forall j :: 0 <= j < |hits| ==> ds[j] == SqDist(hits[j].location, origin) >= 0.0
  {
    var ds := seq(|hits|, j requires 0 <= j < |hits| => SqDist(hits[j].location, origin));
    forall j | 0 <= j < |hits| ensures ds[j] >= 0.0 {
      SqNormNonNegative(Sub(hits[j].location, origin));
    }
    ds
  }

  /** A ray's outcome: a miss, or the chosen candidate's point, face and (squared) distance. */
  datatype Outcome = Miss | Nearest(coord: Vec3, faceId: nat, distance: real)

  /** The nearest candidate of one ray (`np.argmin` of the distances: the first minimum). */
  function NearestHit(origin: Vec3, hits: seq<Reported>): (o: Outcome)
    ensures o.Miss? <==> hits == []
  {
    if hits == [] then Miss
    else
      var ds := Distances(origin, hits);
      var k := FirstArgMin(ds);
      Nearest(hits[k].location, hits[k].faceId, ds[k])
  }

  /**
   * The chosen candidate is one of the ray's, its distance is its own, no
   * candidate is closer, and among equally close ones it is the first reported.
   */
  lemma NearestHitIsClosest(origin: Vec3, hits: seq<Reported>)
    requires hits != []
    ensures var o := NearestHit(origin, hits);
      && Reported(o.coord, o.faceId) in hits
      && o.distance == SqDist(o.coord, origin)
      && (forall h <- hits :: o.distance <= SqDist(h.location, origin))
      && exists k: nat :: IsFirstMin(Distances(origin, hits), k) && k < |hits| && hits[k] == Reported(o.coord, o.faceId)
  {
    var ds := Distances(origin, hits);
    var k := FirstArgMin(ds);
    forall h <- hits
      ensures ds[k] <= SqDist(h.location, origin)
    {
      var j :| 0 <= j < |hits| && hits[j] == h;
      assert ds[j] == SqDist(h.location, origin);
    }
  }

  /** One entry of `results`. The outcome carries the optional fields, so a miss has none of them. */
  datatype PointResult = PointResult(index: nat, name: string, source: Vec3, outcome: Outcome) {
    predicate IsHit() { outcome.Nearest? }
  }

  /** `results[i]` as the source builds it from the points, the names and the grouped candidates. */
  predicate ResultsFor(points: seq<Vec3>, names: seq<string>, cands: seq<Candidate>, results: seq<PointResult>)
    requires |names| == |points|
  {
    && |results| == |points|
    && forall i :: 0 <= i < |points| ==>
         results[i] == PointResult(i, names[i], points[i], NearestHit(points[i], ReportedFor(cands, i)))
  }

  /**
   * `run_ray_tracing`, from the loaded points on: names, the direction (cast
   * as it is), the bulk query with that direction tiled, `hit_map`, and one
   * result per point.
   */
  method RunRayTracing(points: seq<Vec3>, mapping: Option<seq<string>>, t: Trig, norm: real, intersect: BulkIntersector)
    returns (results: seq<PointResult>, direction: Vec3)
    requires IsNormOf(norm, RawDirection(CorrectedBasis, t))
    requires RaysInRange(intersect(points, Tile(Direction(t, norm), |points|)), |points|)
    ensures direction == Direction(t, norm)
    ensures ResultsFor(points, PointNames(|points|, mapping), intersect(points, Tile(direction, |points|)), results)
  {
    var names := PointNames(|points|, mapping);
    direction := Direction(t, norm);
    var cands := intersect(points, Tile(direction, |points|));
    var hitMap := GroupByRay(|points|, cands);
    results := [];
    for i := 0 to |points|
      invariant |results| == i
      invariant forall j :: 0 <= j < i ==>
        results[j] == PointResult(j, names[j], points[j], NearestHit(points[j], ReportedFor(cands, j)))
    {
      var hits: seq<Reported> := hitMap[i];
      var outcome := Miss;
      if hits != [] {
        var ds := Distances(points[i], hits);
        var closest := FirstArgMin(ds);
        outcome := Nearest(hits[closest].location, hits[closest].faceId, ds[closest]);
      }
      assert hits == ReportedFor(cands, i);
      assert outcome == NearestHit(points[i], hits);
      results := results + [PointResult(i, names[i], points[i], outcome)];
    }
  }

  /**
   * What a result list built this way promises, stated against the raw
   * candidates: input order and provenance, hit iff the ray has a candidate,
   * and on a hit a candidate of that ray at least as close as every other.
   */
  lemma ResultsProperties(points: seq<Vec3>, names: seq<string>, cands: seq<Candidate>, results: seq<PointResult>, i: nat)
    requires |names| == |points| && ResultsFor(points, names, cands, results) && i < |points|
    ensures results[i].index == i && results[i].name == names[i] && results[i].source == points[i]
    ensures results[i].IsHit() <==> exists j :: 0 <= j < |cands| && cands[j].rayIndex == i
    ensures results[i].IsHit() ==>
      && (exists j :: 0 <= j < |cands| && cands[j].rayIndex == i
                      && cands[j].location == results[i].outcome.coord && cands[j].faceIndex == results[i].outcome.faceId)
      && forall j :: 0 <= j < |cands| && cands[j].rayIndex == i ==>
           results[i].outcome.distance <= SqDist(cands[j].location, points[i])
  {
    var hits := ReportedFor(cands, i);
    var o := NearestHit(points[i], hits);
    ReportedForNonEmpty(cands, i);
    forall j | 0 <= j < |cands| && cands[j].rayIndex == i
      ensures Reported(cands[j].location, cands[j].faceIndex) in hits
    {
      EveryCandidateAttributed(cands, j);
    }
    if o.Nearest? {
      NearestHitIsClosest(points[i], hits);
      ReportedOnlyFromRay(cands, i, Reported(o.coord, o.faceId));
    }
  }

  /** Every entry of ray `i`'s list is a candidate that named ray `i`. */
  lemma {:induction false} ReportedOnlyFromRay(cands: seq<Candidate>, i: nat, r: Reported)
    requires r in ReportedFor(cands, i)
    ensures exists j :: 0 <= j < |cands| && cands[j].rayIndex == i
                        && cands[j].location == r.location && cands[j].faceIndex == r.faceId
    decreases |cands|
  {
    var n := |cands|;
    var c := cands[n - 1];
    if r in ReportedFor(cands[..n - 1], i) {
      ReportedOnlyFromRay(cands[..n - 1], i, r);
      var j :| 0 <= j < n - 1 && cands[..n - 1][j].rayIndex == i
               && cands[..n - 1][j].location == r.location && cands[..n - 1][j].faceIndex == r.faceId;
      assert cands[j] == cands[..n - 1][j];
    } else {
      assert cands[n - 1].rayIndex == i && cands[n - 1].location == r.location && cands[n - 1].faceIndex == r.faceId;
    }
  }

  // ---------------------------------------------------------------------------
  // Summary and the result record

  predicate AllHits(rs: seq<PointResult>) {
    forall k :: 0 <= k < |rs| ==> rs[k].IsHit()
  }

  function CountHits(results: seq<PointResult>): (n: nat)
    ensures n <= |results|
  {
    if results == [] then 0
    else CountHits(results[..|results| - 1]) + (if results[|results| - 1].IsHit() then 1 else 0)
  }

  /** `[r for r in results if r['hit']]` */
  function ValidIntersections(results: seq<PointResult>): (valid: seq<PointResult>)
    ensures |valid| == CountHits(results)
    ensures AllHits(valid)
    ensures forall r <- valid :: r in results
    ensures forall r <- results :: r.IsHit() ==> r in valid
  {
    if results == [] then []
    else
      var last := results[|results| - 1];
      var prior := ValidIntersections(results[..|results| - 1]);
      assert forall r <- results :: r in results[..|results| - 1] || r == last;
      var valid := prior + (if last.IsHit() then [last] else []);
      assert forall k :: 0 <= k < |prior| ==> valid[k] == prior[k];
      valid
  }

  /**
   * The filter keeps the results' order: filtering two parts one after the
   * other is filtering the whole. With `ValidIntersectionsSingle` this fixes
   * the filtered list as the in-order subsequence of the hits.
   */
  lemma {:induction false} ValidIntersectionsAppend(a: seq<PointResult>, b: seq<PointResult>)
    ensures ValidIntersections(a + b) == ValidIntersections(a) + ValidIntersections(b)
    decreases |b|
  {
    if b == [] {
      assert a + b == a;
    } else {
      var n := |b|;
      assert (a + b)[..|a + b| - 1] == a + b[..n - 1];
      ValidIntersectionsAppend(a, b[..n - 1]);
    }
  }

  /** A single result is kept exactly when it hit. */
  lemma ValidIntersectionsSingle(r: PointResult)
    ensures ValidIntersections([r]) == (if r.IsHit() then [r] else [])
  {
    assert [r][..0] == [];
  }

  /** The OBJ listings exist exactly when some ray hit. */
  lemma SomeHitIffCountPositive(results: seq<PointResult>)
    ensures CountHits(results) > 0 <==> exists r <- results :: r.IsHit()
  {
    var valid := ValidIntersections(results);
    if |valid| > 0 {
      assert valid[0] in valid;
    }
  }

  /** The angle pair as the command line gave it (its `str` rendering; float formatting is not modelled). */
  datatype Params = Params(alphaDeg: string, thetaDeg: string)

  datatype Summary = Summary(totalSourcePoints: nat, raysThatHit: nat)

  /** The JSON record (without its timestamp). */
  datatype Metadata = Metadata(
    parameters: Params,
    rayDirection: Vec3,
    inputFiles: map<string, string>,
    summary: Summary,
    intersections: seq<PointResult>)

  function BuildMetadata(params: Params, results: seq<PointResult>, direction: Vec3,
                         skinMesh: Path, keyPoints: Path, mapping: Option<Path>): (m: Metadata)
    ensures m.summary.totalSourcePoints == |results|
    ensures m.summary.raysThatHit == |ValidIntersections(results)| <= m.summary.totalSourcePoints
    ensures m.intersections == results && m.parameters == params && m.rayDirection == direction
    ensures "skin_mesh" in m.inputFiles && m.inputFiles["skin_mesh"] == Name(skinMesh)
    ensures "key_points" in m.inputFiles && m.inputFiles["key_points"] == Name(keyPoints)
    ensures "point_mapping" in m.inputFiles <==> mapping.Some?
    ensures mapping.Some? ==> m.inputFiles["point_mapping"] == Name(mapping.value)
  {
    var files := map["skin_mesh" := Name(skinMesh), "key_points" := Name(keyPoints)];
    Metadata(
      params,
      direction,
      if mapping.Some? then files["point_mapping" := Name(mapping.value)] else files,
      Summary(|results|, CountHits(results)),
      results)
  }

  // ---------------------------------------------------------------------------
  // The two OBJ listings

  /** An OBJ line as written: a comment, a vertex with its trailing comment, or a line element. */
  datatype ObjLine = Comment(text: string) | Vertex(position: Vec3, note: string) | Segment(first: nat, second: nat)

  /** The header comment of `intersections.obj`: it ends with the rendered theta. */
  function IntersectionsHeader(params: Params): (header: string)
    ensures |params.thetaDeg| < |header| && header[|header| - |params.thetaDeg|..] == params.thetaDeg
  {
    "射线交点 from alpha=" + params.alphaDeg + ", theta=" + params.thetaDeg
  }

  /** The header comment of `ray_pairs.obj`: it ends with the rendered theta, and tells the two files apart. */
  function PairsHeader(params: Params): (header: string)
    ensures |params.thetaDeg| < |header| && header[|header| - |params.thetaDeg|..] == params.thetaDeg
    ensures header != IntersectionsHeader(params)
  {
    var header := "源点-交点对 from alpha=" + params.alphaDeg + ", theta=" + params.thetaDeg;
    assert header[0] != IntersectionsHeader(params)[0];
    header
  }

  /** The comment after a hit's vertex: it starts with the point's name and ends with the face number. */
  function IntersectionNote(r: PointResult): (note: string)
    requires r.IsHit()
    ensures var prefix, face := "name: " + r.name, Decimal(r.outcome.faceId);
      && |prefix| + |face| < |note|
      && note[..|prefix|] == prefix
      && note[|note| - |face|..] == face
  {
    "name: " + r.name + ", face_id: " + Decimal(r.outcome.faceId)
  }

  /** `intersections.obj`: one vertex per hit, in result order; not written when nothing hit. */
  function IntersectionsObj(params: Params, results: seq<PointResult>): (obj: Option<seq<ObjLine>>)
    ensures obj.Some? <==> exists r <- results :: r.IsHit()
    ensures obj.Some? ==>
      var valid := ValidIntersections(results);
      && |obj.value| == 1 + |valid|
      && obj.value[0] == Comment(IntersectionsHeader(params))
      && forall k :: 0 <= k < |valid| ==> obj.value[k + 1] == Vertex(valid[k].outcome.coord, IntersectionNote(valid[k]))
  {
    var valid := ValidIntersections(results);
    SomeHitIffCountPositive(results);
    if valid == [] then None
    else Some([Comment(IntersectionsHeader(params))]
              + seq(|valid|, k requires 0 <= k < |valid| => Vertex(valid[k].outcome.coord, IntersectionNote(valid[k]))))
  }

  /** The four lines written for one pair, whose vertices are numbered `counter` and `counter + 1`. */
  function PairBlock(r: PointResult, counter: nat): (block: seq<ObjLine>)
    requires r.IsHit()
    ensures |block| == 4 && block[0].Comment?
    ensures block[1].Vertex? && block[1].position == r.source
    ensures block[2].Vertex? && block[2].position == r.outcome.coord
    ensures block[3] == Segment(counter, counter + 1)
  {
    [Comment("Pair for: " + r.name), Vertex(r.source, "Source"), Vertex(r.outcome.coord, "Target"), Segment(counter, counter + 1)]
  }

  /** The blocks for the pairs `valid`, the first one numbered from `counter`. */
  function PairBlocks(valid: seq<PointResult>, counter: nat): (blocks: seq<ObjLine>)
    requires AllHits(valid)
  {
    if valid == [] then []
    else PairBlocks(valid[..|valid| - 1], counter) + PairBlock(valid[|valid| - 1], counter + 2 * (|valid| - 1))
  }

  /** One more pair appends one more block, numbered after the vertices already written. */
  lemma PairBlocksExtend(valid: seq<PointResult>, k: nat)
    requires AllHits(valid) && k < |valid|
    ensures AllHits(valid[..k]) && AllHits(valid[..k + 1]) && valid[k].IsHit()
    ensures PairBlocks(valid[..k + 1], 1) == PairBlocks(valid[..k], 1) + PairBlock(valid[k], 2 * k + 1)
  {
    assert valid[..k + 1][..k] == valid[..k];
  }

  /** `ray_pairs.obj`: the loop over the hits with its running `vertex_counter`. */
  method PairsObj(params: Params, results: seq<PointResult>) returns (obj: Option<seq<ObjLine>>)
    ensures obj.Some? <==> exists r <- results :: r.IsHit()
    ensures obj.Some? ==>
      && AllHits(ValidIntersections(results))
      && obj.value == [Comment(PairsHeader(params))] + PairBlocks(ValidIntersections(results), 1)
  {
    var valid := ValidIntersections(results);
    SomeHitIffCountPositive(results);
    if valid == [] {
      return None;
    }
    ghost var header := [Comment(PairsHeader(params))];
    var lines := [Comment(PairsHeader(params))];
    var vertexCounter := 1;
    for k := 0 to |valid|
      invariant vertexCounter == 2 * k + 1
      invariant AllHits(valid[..k]) && lines == header + PairBlocks(valid[..k], 1)
    {
      var r := valid[k];
      PairBlocksExtend(valid, k);
      lines := lines + [Comment("Pair for: " + r.name), Vertex(r.source, "Source"),
                        Vertex(r.outcome.coord, "Target"), Segment(vertexCounter, vertexCounter + 1)];
      assert lines == header + (PairBlocks(valid[..k], 1) + PairBlock(r, 2 * k + 1));
      vertexCounter := vertexCounter + 2;
    }
    assert valid[..|valid|] == valid;
    obj := Some(lines);
  }

  /** The vertices of an OBJ listing in order; OBJ numbers them from 1. */
  function Vertices(lines: seq<ObjLine>): (vs: seq<Vec3>) {
    if lines == [] then []
    else Vertices(lines[..|lines| - 1]) + (match lines[|lines| - 1] case Vertex(p, _) => [p] case _ => [])
  }

  /** The line elements of an OBJ listing in order. */
  function Segments(lines: seq<ObjLine>): (ss: seq<(nat, nat)>) {
    if lines == [] then []
    else Segments(lines[..|lines| - 1]) + (match lines[|lines| - 1] case Segment(a, b) => [(a, b)] case _ => [])
  }

  lemma {:induction false} VerticesAppend(a: seq<ObjLine>, b: seq<ObjLine>)
    ensures Vertices(a + b) == Vertices(a) + Vertices(b)
    ensures Segments(a + b) == Segments(a) + Segments(b)
    decreases |b|
  {
    if b == [] {
      assert a + b == a;
    } else {
      assert (a + b)[..|a + b| - 1] == a + b[..|b| - 1];
      VerticesAppend(a, b[..|b| - 1]);
    }
  }

  lemma SingleLine(l: ObjLine)
    ensures Vertices([l]) == (if l.Vertex? then [l.position] else [])
    ensures Segments([l]) == (if l.Segment? then [(l.first, l.second)] else [])
  {
    assert [l][..0] == [];
  }

  lemma BlockContents(r: PointResult, counter: nat)
    requires r.IsHit()
    ensures Vertices(PairBlock(r, counter)) == [r.source, r.outcome.coord]
    ensures Segments(PairBlock(r, counter)) == [(counter, counter + 1)]
  {
    var block := PairBlock(r, counter);
    var c, v, w, l := block[0], block[1], block[2], block[3];
    assert block == [c, v] + ([w] + [l]);
    assert [c, v] == [c] + [v];
    SingleLine(c);
    SingleLine(v);
    SingleLine(w);
    SingleLine(l);
    VerticesAppend([c], [v]);
    VerticesAppend([w], [l]);
    VerticesAppend([c, v], [w] + [l]);
  }

  /** The source and target of each pair, in pair order. */
  function Endpoints(valid: seq<PointResult>): (ps: seq<Vec3>)
    requires AllHits(valid)
    ensures |ps| == 2 * |valid|
  {
    if valid == [] then []
    else Endpoints(valid[..|valid| - 1]) + [valid[|valid| - 1].source, valid[|valid| - 1].outcome.coord]
  }

  /** The k-th pair's source and target are endpoints 2k and 2k+1 (0-based). */
  lemma {:induction false} EndpointsAt(valid: seq<PointResult>, k: nat)
    requires AllHits(valid) && k < |valid|
    ensures Endpoints(valid)[2 * k] == valid[k].source
    ensures Endpoints(valid)[2 * k + 1] == valid[k].outcome.coord
    decreases |valid|
  {
    var n := |valid|;
    if k < n - 1 {
      EndpointsAt(valid[..n - 1], k);
    }
  }

  /** The vertices of the pair blocks are the endpoints, two per pair. */
  lemma {:induction false} PairVerticesLayout(valid: seq<PointResult>, counter: nat)
    requires AllHits(valid)
    ensures Vertices(PairBlocks(valid, counter)) == Endpoints(valid)
    decreases |valid|
  {
    if valid != [] {
      var n := |valid|;
      var last := valid[n - 1];
      var init, block := valid[..n - 1], PairBlock(last, counter + 2 * (n - 1));
      assert PairBlocks(valid, counter) == PairBlocks(init, counter) + block;
      assert Endpoints(valid) == Endpoints(init) + [last.source, last.outcome.coord];
      PairVerticesLayout(init, counter);
      VerticesAppend(PairBlocks(init, counter), block);
      BlockContents(last, counter + 2 * (n - 1));
    }
  }

  /** The k-th line element of the pair blocks joins the vertices numbered counter+2k and counter+2k+1. */
  lemma {:induction false} PairSegmentsLayout(valid: seq<PointResult>, counter: nat)
    requires AllHits(valid)
    ensures |Segments(PairBlocks(valid, counter))| == |valid|
    ensures forall k :: 0 <= k < |valid| ==>
      Segments(PairBlocks(valid, counter))[k] == (counter + 2 * k, counter + 2 * k + 1)
    decreases |valid|
  {
    if valid != [] {
      var n := |valid|;
      var init := valid[..n - 1];
      var last := valid[n - 1];
      var ss := Segments(PairBlocks(init, counter));
      PairSegmentsLayout(init, counter);
      VerticesAppend(PairBlocks(init, counter), PairBlock(last, counter + 2 * (n - 1)));
      BlockContents(last, counter + 2 * (n - 1));
      assert Segments(PairBlocks(valid, counter)) == ss + [(counter + 2 * (n - 1), counter + 2 * (n - 1) + 1)];
    }
  }

  /**
   * In `ray_pairs.obj`, the k-th line element `l a b` has a == 2k+1 and
   * b == 2k+2, and OBJ vertex a is the k-th hit's source point while vertex b
   * is its intersection point.
   */
  lemma {:induction false} PairLinesJoinTheirEndpoints(params: Params, valid: seq<PointResult>, k: nat)
    requires AllHits(valid) && k < |valid|
    ensures var lines := [Comment(PairsHeader(params))] + PairBlocks(valid, 1);
      && |Segments(lines)| == |valid|
      && |Vertices(lines)| == 2 * |valid|
      && Segments(lines)[k] == (2 * k + 1, 2 * k + 2)
      && Vertices(lines)[(2 * k + 1) - 1] == valid[k].source
      && Vertices(lines)[(2 * k + 2) - 1] == valid[k].outcome.coord
  {
    var header := [Comment(PairsHeader(params))];
    VerticesAppend(header, PairBlocks(valid, 1));
    SingleLine(header[0]);
    PairVerticesLayout(valid, 1);
    EndpointsAt(valid, k);
    PairSegmentsLayout(valid, 1);
  }

  // ---------------------------------------------------------------------------
  // save_results and main

  datatype Saved = Saved(metadata: Metadata, intersectionsObj: Option<seq<ObjLine>>, pairsObj: Option<seq<ObjLine>>)

  /**
   * What `save_results` writes for these arguments: the JSON record always,
   * and both OBJ listings, with the contents above, exactly when some ray hit.
   */
  predicate SavedContents(saved: Saved, params: Params, results: seq<PointResult>, direction: Vec3,
                          skinMesh: Path, keyPoints: Path, mapping: Option<Path>) {
    && saved.metadata == BuildMetadata(params, results, direction, skinMesh, keyPoints, mapping)
    && saved.intersectionsObj == IntersectionsObj(params, results)
    && (saved.intersectionsObj.Some? <==> saved.metadata.summary.raysThatHit > 0)
    && (saved.pairsObj.Some? <==> saved.metadata.summary.raysThatHit > 0)
    && (saved.pairsObj.Some? ==>
          && AllHits(ValidIntersections(results))
          && saved.pairsObj.value == [Comment(PairsHeader(params))] + PairBlocks(ValidIntersections(results), 1))
  }

  /** `save_results`: the JSON record always; both OBJ listings only when some ray hit. */
  method SaveResults(params: Params, results: seq<PointResult>, direction: Vec3,
                     skinMesh: Path, keyPoints: Path, mapping: Option<Path>) returns (saved: Saved)
    ensures SavedContents(saved, params, results, direction, skinMesh, keyPoints, mapping)
  {
    var metadata := BuildMetadata(params, results, direction, skinMesh, keyPoints, mapping);
    SomeHitIffCountPositive(results);
    var pairs := PairsObj(params, results);
    saved := Saved(metadata, IntersectionsObj(params, results), pairs);
  }

  /**
   * The key points file: the organ's processed key points if it has them and
   * they exist, else its processed model. `existing` holds the files on disk in
   * pathlib's form, so every spelling of one file finds it.
   */
  function KeyPointsPath(organ: string, existing: set<Path>): (p: Path)
    ensures var paths := GetPaths(organ);
      if ProcessedKeypoints in paths && Resolved(paths[ProcessedKeypoints]) in existing
      then p == paths[ProcessedKeypoints]
      else p == paths[ProcessedModel]
  {
    var paths := GetPaths(organ);
    if ProcessedKeypoints in paths && Resolved(paths[ProcessedKeypoints]) in existing then paths[ProcessedKeypoints]
    else paths[ProcessedModel]
  }

  /**
   * `alpha_<alpha>_theta_<theta>`: one directory, not a nested path, as long as
   * neither rendered angle holds a `/`.
   */
  function ExperimentDirName(params: Params): (name: string)
    ensures |name| > 6 && name[..6] == "alpha_"
    ensures '/' !in params.alphaDeg && '/' !in params.thetaDeg ==> PlainName(name)
  {
    var name := "alpha_" + params.alphaDeg + "_theta_" + params.thetaDeg;
    assert forall i :: 0 <= i < |name| ==>
      name[i] in "alpha_theta" || name[i] in params.alphaDeg || name[i] in params.thetaDeg;
    name
  }

  /** Where `main` writes: under `--output_dir` when it is given and non-empty, else `output/results/<source>_to_<target>`. */
  function OutputPath(source: string, target: string, outputDir: Option<string>, params: Params): (p: Path)
    ensures |p.parts| > 0 && p.parts[|p.parts| - 1] == ExperimentDirName(params)
    ensures '/' !in params.alphaDeg && '/' !in params.thetaDeg ==> Name(p) == ExperimentDirName(params)
    ensures outputDir.Some? && outputDir.value != "" ==> p == Path(Given(outputDir.value), [ExperimentDirName(params)])
    ensures !(outputDir.Some? && outputDir.value != "") ==>
      p == Join(Join(ResultsDir, source + "_to_" + target), ExperimentDirName(params))
  {
    var name := ExperimentDirName(params);
    var dir :=
      if outputDir.Some? && outputDir.value != "" then Path(Given(outputDir.value), [])
      else Path(ProjectRoot, ["output", "results", source + "_to_" + target]);
    if PlainName(name) then NameOfJoin(dir, name); Join(dir, name) else Join(dir, name)
  }

  /** The three coordinate tokens of a point through `float()`; anything else is an error. */
  function ToPoint(coords: seq<string>, parseFloat: string -> Option<real>): (point: Option<Vec3>)
    ensures point.Some? <==>
      |coords| == 3 && parseFloat(coords[0]).Some? && parseFloat(coords[1]).Some? && parseFloat(coords[2]).Some?
    ensures point.Some? ==>
      point.value == Vec3(parseFloat(coords[0]).value, parseFloat(coords[1]).value, parseFloat(coords[2]).value)
  {
    if |coords| != 3 then None
    else
      match (parseFloat(coords[0]), parseFloat(coords[1]), parseFloat(coords[2]))
      case (Some(x), Some(y), Some(z)) => Some(Vec3(x, y, z))
      case _ => None
  }

  /** `np.array([[float(p) for p in parts[1:4]] ...])`: all points, or an error if any of them fails. */
  function ToPoints(rows: seq<seq<string>>, parseFloat: string -> Option<real>): (pts: Option<seq<Vec3>>)
    ensures pts.Some? <==> forall i :: 0 <= i < |rows| ==> ToPoint(rows[i], parseFloat).Some?
    ensures pts.Some? ==>
      && |pts.value| == |rows|
      && forall i :: 0 <= i < |rows| ==> ToPoint(rows[i], parseFloat) == Some(pts.value[i])
  {
    if rows == [] then Some([])
    else
      var init := rows[..|rows| - 1];
      assert forall i :: 0 <= i < |rows| - 1 ==> init[i] == rows[i];
      match (ToPoints(init, parseFloat), ToPoint(rows[|rows| - 1], parseFloat))
      case (Some(ps), Some(p)) => Some(ps + [p])
      case _ => None
  }

  /** `source_paths.get("keypoints_mapping")`: only the heart has one. */
  function MappingPath(source: string): (p: Option<Path>)
    ensures p.Some? <==> source == "heart"
    ensures p.Some? ==> p.value == GetPaths(source)[KeypointsMapping]
  {
    var paths := GetPaths(source);
    if KeypointsMapping in paths then Some(paths[KeypointsMapping]) else None
  }

  /** The mapping's keys, read only when the mapping file exists (`mappingKeys` stands for `json.load`). */
  function MappingKeys(source: string, existing: set<Path>, mappingKeys: Path -> seq<string>): (keys: Option<seq<string>>)
    ensures keys.Some? <==> MappingPath(source).Some? && Resolved(MappingPath(source).value) in existing
    ensures keys.Some? ==> keys.value == mappingKeys(MappingPath(source).value)
  {
    var mappingPath := MappingPath(source);
    if mappingPath.Some? && Resolved(mappingPath.value) in existing then Some(mappingKeys(mappingPath.value)) else None
  }

  /**
   * The first input `main` cannot open: the mesh, loaded first, then the key
   * points. A file is there when its pathlib form is among the `existing` files.
   */
  function MissingInput(skinMesh: Path, keyPoints: Path, existing: set<Path>): (missing: Option<Path>)
    ensures missing.Some? <==> Resolved(skinMesh) !in existing || Resolved(keyPoints) !in existing
    ensures missing.Some? ==> missing.value == if Resolved(skinMesh) !in existing then skinMesh else keyPoints
  {
    if Resolved(skinMesh) !in existing then Some(skinMesh)
    else if Resolved(keyPoints) !in existing then Some(keyPoints)
    else None
  }

  /**
   * How one run of the command-line tool ends: a file that `trimesh.load` or
   * `open` cannot find, a key-point row that does not convert, no key points,
   * or the results written under an output path.
   */
  datatype RunOutcome = MissingFile(path: Path) | InputError | NoResults | Written(outputPath: Path, saved: Saved)

  /**
   * `main` with `run_ray_tracing`: load the target mesh, choose and read the
   * key points, trace, and save under the output path; nothing is written when
   * there are no points. Which files exist, their contents, `float()`, the
   * mapping file's keys and the mesh's intersector are parameters.
   */
  method TraceAndSave(source: string, target: string, outputDir: Option<string>, params: Params,
                      t: Trig, norm: real, existing: set<Path>,
                      readLines: Path -> seq<string>, parseFloat: string -> Option<real>,
                      mappingKeys: Path -> seq<string>, intersect: BulkIntersector)
    returns (outcome: RunOutcome)
    requires IsNormOf(norm, RawDirection(CorrectedBasis, t))
    requires ReportsOnlyGivenRays(intersect)
    ensures var skinMesh, keyPoints := GetPaths(target)[ProcessedModel], KeyPointsPath(source, existing);
      && (outcome.MissingFile? <==> MissingInput(skinMesh, keyPoints, existing).Some?)
      && (outcome.MissingFile? ==> outcome.path == MissingInput(skinMesh, keyPoints, existing).value)
    ensures var rows := ParsedPoints(readLines(KeyPointsPath(source, existing)));
      && (outcome.InputError? ==> ToPoints(rows, parseFloat).None?)
      && (outcome.NoResults? ==> ToPoints(rows, parseFloat) == Some([]))
      && (!outcome.MissingFile? ==>
            && (ToPoints(rows, parseFloat).None? ==> outcome.InputError?)
            && (ToPoints(rows, parseFloat) == Some([]) ==> outcome.NoResults?))
    ensures outcome.Written? ==>
      var skinMesh, keyPoints := GetPaths(target)[ProcessedModel], KeyPointsPath(source, existing);
      var loaded := ToPoints(ParsedPoints(readLines(keyPoints)), parseFloat);
      && loaded.Some? && |loaded.value| > 0
      && outcome.outputPath == OutputPath(source, target, outputDir, params)
      && ResultsFor(loaded.value, PointNames(|loaded.value|, MappingKeys(source, existing, mappingKeys)),
                    intersect(loaded.value, Tile(Direction(t, norm), |loaded.value|)),
                    outcome.saved.metadata.intersections)
      && SavedContents(outcome.saved, params, outcome.saved.metadata.intersections, Direction(t, norm),
                       skinMesh, keyPoints, MappingPath(source))
    ensures outcome.Written? ==>
      var files := outcome.saved.metadata.inputFiles;
      && outcome.saved.metadata.summary.totalSourcePoints > 0
      && "skin_mesh" in files && files["skin_mesh"] == Name(GetPaths(target)[ProcessedModel])
      && (PlainName(target) ==> files["skin_mesh"] == target + "_processed.obj")
      && "key_points" in files && files["key_points"] == Name(KeyPointsPath(source, existing))
      && (KeyPointsPath(source, existing) != GetPaths(source)[ProcessedModel] ==>
            files["key_points"] == "keypoints_processed.obj")
      && (KeyPointsPath(source, existing) == GetPaths(source)[ProcessedModel] && PlainName(source) ==>
            files["key_points"] == source + "_processed.obj")
      && ("point_mapping" in files <==> source == "heart")
  {
    var targetPaths := GetPaths(target);
    var keyPointsPath := KeyPointsPath(source, existing);
    var skinMeshPath := targetPaths[ProcessedModel];
    var mappingPath := MappingPath(source);
    var missing := MissingInput(skinMeshPath, keyPointsPath, existing);
    if missing.Some? {
      return MissingFile(missing.value);
    }

    var rows := LoadKeyPoints(readLines(keyPointsPath));
    var loaded := ToPoints(rows, parseFloat);
    if loaded.None? {
      return InputError;
    }
    var points := loaded.value;
    var mapping := MappingKeys(source, existing, mappingKeys);
    assert RaysInRange(intersect(points, Tile(Direction(t, norm), |points|)), |points|);
    var results, direction := RunRayTracing(points, mapping, t, norm, intersect);
    if results == [] {
      return NoResults;
    }
    var saved := SaveResults(params, results, direction, skinMeshPath, keyPointsPath, mappingPath);
    assert saved.metadata == BuildMetadata(params, results, direction, skinMeshPath, keyPointsPath, mappingPath);
    RecordedFileNames(params, results, direction, source, target, existing);
    outcome := Written(OutputPath(source, target, outputDir, params), saved);
  }

  /** The file names `main` records: the target's processed model, the chosen key points, and the heart's mapping. */
  lemma RecordedFileNames(params: Params, results: seq<PointResult>, direction: Vec3,
                          source: string, target: string, existing: set<Path>)
    ensures var files := BuildMetadata(params, results, direction, GetPaths(target)[ProcessedModel],
                                       KeyPointsPath(source, existing), MappingPath(source)).inputFiles;
      && "skin_mesh" in files && files["skin_mesh"] == Name(GetPaths(target)[ProcessedModel])
      && (PlainName(target) ==> files["skin_mesh"] == target + "_processed.obj")
      && "key_points" in files && files["key_points"] == Name(KeyPointsPath(source, existing))
      && (KeyPointsPath(source, existing) != GetPaths(source)[ProcessedModel] ==>
            files["key_points"] == "keypoints_processed.obj")
      && (KeyPointsPath(source, existing) == GetPaths(source)[ProcessedModel] && PlainName(source) ==>
            files["key_points"] == source + "_processed.obj")
      && ("point_mapping" in files <==> source == "heart")
  {
    if PlainName(target) {
      ProcessedModelName(target);
    }
    KeyPointsFileName(source, existing);
  }

  /**
   * The key-point file's name: the shared `keypoints_processed.obj`, or, for a
   * plain organ name, that organ's `<source>_processed.obj`.
   */
  lemma KeyPointsFileName(source: string, existing: set<Path>)
    ensures KeyPointsPath(source, existing) != GetPaths(source)[ProcessedModel] ==>
      Name(KeyPointsPath(source, existing)) == "keypoints_processed.obj"
    ensures KeyPointsPath(source, existing) == GetPaths(source)[ProcessedModel] && PlainName(source) ==>
      Name(KeyPointsPath(source, existing)) == source + "_processed.obj"
  {
    var paths := GetPaths(source);
    if KeyPointsPath(source, existing) != paths[ProcessedModel] {
      ProcessedKeypointsFile(source);
    } else if PlainName(source) {
      ProcessedModelName(source);
    }
  }
}
