/**
 * src/extract_key_points.py: seven landmarks of the thyroid mesh (its centroid,
 * then the vertices holding the least and greatest x, y and z) and the
 * points-only OBJ listing they are written to, which the ray tracer's loader
 * reads back.
 *
 * The mesh is its vertex array and its centroid (`mesh.centroid`, computed by
 * trimesh); the `:.6f` rendering of a coordinate is a function parameter.
 */
module ExtractKeyPoints {
  import opened Vectors
  import opened Wrappers
  import opened PyStr
  import opened Extrema
  import opened RayTracing

  /** `vertices[:, axis]` */
  function Column(vertices: seq<Vec3>, axis: Axis): (col: seq<real>)
    ensures |col| == |vertices|
    ensures forall i :: 0 <= i < |vertices| ==> col[i] == Coord(vertices[i], axis)
  {
    seq(|vertices|, i requires 0 <= i < |vertices| => Coord(vertices[i], axis))
  }

  /**
   * The key points in their fixed order: the centroid, then `vertices[argmin]`
   * and `vertices[argmax]` of the x, y and z columns. numpy's `argmin` of an
   * empty array raises, so the mesh must have a vertex.
   */
  function ExtractKeyPoints(vertices: seq<Vec3>, centroid: Vec3): (kp: seq<Vec3>)
    requires |vertices| > 0
    ensures |kp| == 7 && kp[0] == centroid
    ensures forall i :: 1 <= i < 7 ==> kp[i] in vertices
  {
    var xs, ys, zs := Column(vertices, X), Column(vertices, Y), Column(vertices, Z);
    [ centroid,
      vertices[FirstArgMin(xs)], vertices[FirstArgMax(xs)],
      vertices[FirstArgMin(ys)], vertices[FirstArgMax(ys)],
      vertices[FirstArgMin(zs)], vertices[FirstArgMax(zs)] ]
  }

  /** The six extreme points bound every vertex of the mesh, axis by axis. */
  lemma {:induction false} KeyPointsBoundVertices(vertices: seq<Vec3>, centroid: Vec3, j: nat)
    requires j < |vertices|
    ensures var kp := ExtractKeyPoints(vertices, centroid);
      && kp[1].x <= vertices[j].x <= kp[2].x
      && kp[3].y <= vertices[j].y <= kp[4].y
      && kp[5].z <= vertices[j].z <= kp[6].z
  {
    var xs, ys, zs := Column(vertices, X), Column(vertices, Y), Column(vertices, Z);
    assert xs[j] == vertices[j].x && ys[j] == vertices[j].y && zs[j] == vertices[j].z;
    assert IsFirstMin(xs, FirstArgMin(xs)) && IsFirstMax(xs, FirstArgMax(xs));
    assert IsFirstMin(ys, FirstArgMin(ys)) && IsFirstMax(ys, FirstArgMax(ys));
    assert IsFirstMin(zs, FirstArgMin(zs)) && IsFirstMax(zs, FirstArgMax(zs));
  }

  /** Vertex `i` is the one `np.argmin` picks along `axis`: least there, and the first such. */
  predicate PicksFirstMin(vertices: seq<Vec3>, axis: Axis, p: Vec3) {
    exists i: nat :: i < |vertices| && IsFirstMin(Column(vertices, axis), i) && p == vertices[i]
  }

  /** ... and `np.argmax`: greatest there, and the first such. */
  predicate PicksFirstMax(vertices: seq<Vec3>, axis: Axis, p: Vec3) {
    exists i: nat :: i < |vertices| && IsFirstMax(Column(vertices, axis), i) && p == vertices[i]
  }

  /** Ties between equal coordinates go to the lowest vertex index. */
  lemma ExtremaAreFirstIndices(vertices: seq<Vec3>, centroid: Vec3)
    requires |vertices| > 0
    ensures var kp := ExtractKeyPoints(vertices, centroid);
      && PicksFirstMin(vertices, X, kp[1]) && PicksFirstMax(vertices, X, kp[2])
      && PicksFirstMin(vertices, Y, kp[3]) && PicksFirstMax(vertices, Y, kp[4])
      && PicksFirstMin(vertices, Z, kp[5]) && PicksFirstMax(vertices, Z, kp[6])
  {
    var kp := ExtractKeyPoints(vertices, centroid);
    var xs, ys, zs := Column(vertices, X), Column(vertices, Y), Column(vertices, Z);
    assert kp[1] == vertices[FirstArgMin(xs)] && kp[2] == vertices[FirstArgMax(xs)];
    assert kp[3] == vertices[FirstArgMin(ys)] && kp[4] == vertices[FirstArgMax(ys)];
    assert kp[5] == vertices[FirstArgMin(zs)] && kp[6] == vertices[FirstArgMax(zs)];
  }

  /** `point_names`, one per key point and in the same order. */
  const KeyPointNames: seq<string> := ["重心", "X最小值", "X最大值", "Y最小值", "Y最大值", "Z最小值", "Z最大值"]

  /** A line starting with `#` is a comment, never a `v ` line. */
  lemma CommentLine(rest: string)
    ensures StartsWith("#" + rest, "#") && !IsVertexLine("#" + rest)
  {
    assert ("#" + rest)[..1] == "#";
    if |rest| > 0 {
      assert ("#" + rest)[..2][0] == '#';
    }
  }

  /** The comment and blank lines written before the points. */
  function HeaderLines(meshPath: string, count: nat): (lines: seq<string>)
    ensures |lines| == 5
    ensures forall i :: 0 <= i < 5 ==> (StartsWith(lines[i], "#") || lines[i] == "\n") && !IsVertexLine(lines[i])
  {
    var title := "#" + " 甲状腺关键点\n";
    var source := "#" + (" 提取自: " + meshPath + "\n");
    var total := "#" + (" 总点数: " + Decimal(count) + "\n");
    var format := "#" + " 格式: 重心, X最小值, X最大值, Y最小值, Y最大值, Z最小值, Z最大值\n";
    CommentLine(" 甲状腺关键点\n");
    CommentLine(" 提取自: " + meshPath + "\n");
    CommentLine(" 总点数: " + Decimal(count) + "\n");
    CommentLine(" 格式: 重心, X最小值, X最大值, Y最小值, Y最大值, Z最小值, Z最大值\n");
    [ title, source, total, format, "\n" ]
  }

  /** What follows the last coordinate: two spaces, then the point's name as a comment. */
  function NameComment(name: string): (comment: string) {
    "  # " + name + "\n"
  }

  /** `f"v {x:.6f} {y:.6f} {z:.6f}  # {name}\n"` */
  function PointLine(p: Vec3, name: string, fmt: real -> string): (line: string)
    ensures IsVertexLine(line)
    ensures |NameComment(name)| <= |line| && line[|line| - |NameComment(name)|..] == NameComment(name)
  {
    var coords := fmt(p.x) + " " + fmt(p.y) + " " + fmt(p.z);
    assert "v " + fmt(p.x) + " " + fmt(p.y) + " " + fmt(p.z) + NameComment(name) == "v " + (coords + NameComment(name));
    "v " + fmt(p.x) + " " + fmt(p.y) + " " + fmt(p.z) + NameComment(name)
  }

  /** The coordinates of `p` each render as one token (no whitespace, not empty). */
  predicate RendersAsTokens(p: Vec3, fmt: real -> string) {
    IsWord(fmt(p.x)) && IsWord(fmt(p.y)) && IsWord(fmt(p.z))
  }

  /** One `v ` line per point, each named by the entry of `names` at its position. */
  function PointLines(kp: seq<Vec3>, names: seq<string>, fmt: real -> string): (lines: seq<string>)
    requires |kp| <= |names|
    ensures |lines| == |kp|
    ensures forall i :: 0 <= i < |kp| ==> IsVertexLine(lines[i])
  {
    seq(|kp|, i requires 0 <= i < |kp| => PointLine(kp[i], names[i], fmt))
  }

  /**
   * The file `extract_key_points` writes, one entry per line: the header and
   * then the key points. Only the last seven lines are `v ` lines.
   */
  function KeyPointFile(meshPath: string, kp: seq<Vec3>, fmt: real -> string): (lines: seq<string>)
    requires |kp| == |KeyPointNames|
    ensures |lines| == 5 + |kp|
    ensures forall i :: 0 <= i < |lines| ==> (IsVertexLine(lines[i]) <==> 5 <= i)
  {
    HeaderLines(meshPath, |kp|) + PointLines(kp, KeyPointNames, fmt)
  }

  /** Line 5+i of the file is key point i's line, and its comment names that key point. */
  lemma KeyPointLineNamed(meshPath: string, kp: seq<Vec3>, fmt: real -> string, i: nat)
    requires |kp| == |KeyPointNames| && i < |kp|
    ensures var line, comment := KeyPointFile(meshPath, kp, fmt)[5 + i], NameComment(KeyPointNames[i]);
      && line == PointLine(kp[i], KeyPointNames[i], fmt)
      && |comment| <= |line| && line[|line| - |comment|..] == comment
  {
    assert KeyPointFile(meshPath, kp, fmt)[5 + i] == PointLines(kp, KeyPointNames, fmt)[i];
  }

  /** The coordinate tokens of each point, in order. */
  function Tokens(kp: seq<Vec3>, fmt: real -> string): (rows: seq<seq<string>>)
    ensures |rows| == |kp|
  {
    seq(|kp|, i requires 0 <= i < |kp| => [fmt(kp[i].x), fmt(kp[i].y), fmt(kp[i].z)])
  }

  /** Lines none of which starts with `v ` give no points. */
  lemma {:induction false} NoVertexLinesNoPoints(lines: seq<string>)
    requires forall i :: 0 <= i < |lines| ==> !IsVertexLine(lines[i])
    ensures ParsedPoints(lines) == []
  {
    if lines != [] {
      NoVertexLinesNoPoints(lines[..|lines| - 1]);
    }
  }

  /** A point's line is a `v ` line whose coordinate tokens are the point's three renderings. */
  lemma PointLineCoordinates(p: Vec3, name: string, fmt: real -> string)
    requires RendersAsTokens(p, fmt)
    ensures IsVertexLine(PointLine(p, name, fmt))
    ensures Coordinates(PointLine(p, name, fmt)) == [fmt(p.x), fmt(p.y), fmt(p.z)]
  {
    VertexLineCoordinates(fmt(p.x), fmt(p.y), fmt(p.z), NameComment(name));
  }

  /** The first `n` point lines give back the first `n` points' tokens, the name comments dropped. */
  lemma {:induction false} PointLinesParse(kp: seq<Vec3>, names: seq<string>, fmt: real -> string, n: nat)
    requires |kp| <= |names| && n <= |kp|
    requires forall i :: 0 <= i < |kp| ==> RendersAsTokens(kp[i], fmt)
    ensures ParsedPoints(PointLines(kp, names, fmt)[..n]) == Tokens(kp[..n], fmt)
  {
    if n > 0 {
      var lines := PointLines(kp, names, fmt);
      PointLinesParse(kp, names, fmt, n - 1);
      PointLineCoordinates(kp[n - 1], names[n - 1], fmt);
      assert lines[..n][..n - 1] == lines[..n - 1];
      TokensStep(kp, fmt, n);
    }
  }

  /** The tokens of the first `n` points: those of the first `n - 1`, then point `n - 1`'s. */
  lemma TokensStep(kp: seq<Vec3>, fmt: real -> string, n: nat)
    requires 0 < n <= |kp|
    ensures Tokens(kp[..n], fmt) == Tokens(kp[..n - 1], fmt) + [[fmt(kp[n - 1].x), fmt(kp[n - 1].y), fmt(kp[n - 1].z)]]
  {
  }

  /**
   * `load_key_points` over the written file finds exactly the seven key points'
   * coordinate tokens, in key-point order: the header lines are skipped and the
   * name comments dropped.
   */
  lemma {:induction false} KeyPointFileParsesBack(meshPath: string, kp: seq<Vec3>, fmt: real -> string)
    requires |kp| == |KeyPointNames|
    requires forall i :: 0 <= i < |kp| ==> RendersAsTokens(kp[i], fmt)
    ensures ParsedPoints(KeyPointFile(meshPath, kp, fmt)) == Tokens(kp, fmt)
  {
    var header := HeaderLines(meshPath, |kp|);
    var lines := PointLines(kp, KeyPointNames, fmt);
    NoVertexLinesNoPoints(header);
    ParsedPointsAppend(header, lines);
    PointLinesParse(kp, KeyPointNames, fmt, |kp|);
    assert lines[..|kp|] == lines;
    assert kp[..|kp|] == kp;
  }

  /** Each key point with every coordinate replaced by what reading its rendering gives. */
  function ReadBack(kp: seq<Vec3>, round: real -> real): (pts: seq<Vec3>)
    ensures |pts| == |kp|
  {
    seq(|kp|, i requires 0 <= i < |kp| => Vec3(round(kp[i].x), round(kp[i].y), round(kp[i].z)))
  }

  /**
   * Extraction then loading: the ray tracer's `float()` conversion of the file
   * gives the seven key points in order, each coordinate as `float()` reads
   * back its six-decimal rendering.
   */
  lemma {:induction false} KeyPointsLoadBack(meshPath: string, kp: seq<Vec3>, fmt: real -> string,
                                             parseFloat: string -> Option<real>, round: real -> real)
    requires |kp| == |KeyPointNames|
    requires forall i :: 0 <= i < |kp| ==> RendersAsTokens(kp[i], fmt)
    requires forall i :: 0 <= i < |kp| ==>
      && parseFloat(fmt(kp[i].x)) == Some(round(kp[i].x))
      && parseFloat(fmt(kp[i].y)) == Some(round(kp[i].y))
      && parseFloat(fmt(kp[i].z)) == Some(round(kp[i].z))
    ensures ToPoints(ParsedPoints(KeyPointFile(meshPath, kp, fmt)), parseFloat) == Some(ReadBack(kp, round))
  {
    KeyPointFileParsesBack(meshPath, kp, fmt);
    var rows := Tokens(kp, fmt);
    var pts := ToPoints(rows, parseFloat);
    assert forall i :: 0 <= i < |rows| ==> ToPoint(rows[i], parseFloat) == Some(ReadBack(kp, round)[i]);
    assert pts.Some?;
    assert pts.value == ReadBack(kp, round);
  }
}
