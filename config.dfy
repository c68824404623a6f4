/**
 * src/config.py: the directory layout of the project and `get_paths`, the table
 * from an organ name to the files the pipeline reads and writes for that organ.
 */
module Config {
  /** Where a path starts: the project root (`BASE_DIR`) or a directory given on the command line. */
  datatype Root = ProjectRoot | Given(dir: string)

  /**
   * A `pathlib.Path`: a root and the texts joined onto it with `/`, one text
   * per join. `Resolved` gives the components pathlib makes of those texts.
   */
  datatype Path = Path(root: Root, parts: seq<string>)

  /** `p / part` */
  function Join(p: Path, part: string): (q: Path)
    ensures q.root == p.root && q.parts == p.parts + [part]
  {
    Path(p.root, p.parts + [part])
  }

  /**
   * `p.name`: the last component pathlib makes of the path, or "" when it has
   * none. For a path joined from plain names it is the last text joined.
   */
  function Name(p: Path): (name: string)
    ensures AllPlain(p) && |p.parts| > 0 ==> name == p.parts[|p.parts| - 1]
  {
    PlainPartsAreComponents(p);
    var cs := ResolvedParts(p.parts);
    if |cs| == 0 then "" else cs[|cs| - 1]
  }

  lemma PlainPartsAreComponents(p: Path)
    ensures AllPlain(p) ==> ResolvedParts(p.parts) == p.parts
  {
    if AllPlain(p) {
      PlainPartsResolveToThemselves(p);
    }
  }

  /** A plain file name joined last is the path's name, whatever precedes it. */
  lemma NameOfJoin(p: Path, file: string)
    requires PlainName(file)
    ensures Name(Join(p, file)) == file
  {
    ResolvedJoin(p, file);
    PlainNameIsOneComponent(file);
  }

  /** `s.split("/")`: the pieces between the slashes, at least one. */
  function SplitSlash(s: string): (pieces: seq<string>)
    ensures |pieces| >= 1
  {
    if |s| == 0 then [""]
    else
      var rest := SplitSlash(s[1..]);
      if s[0] == '/' then [""] + rest else [[s[0]] + rest[0]] + rest[1..]
  }

  /** The pieces pathlib keeps: empty pieces (doubled or trailing slashes) and `.` are dropped. */
  function DropTrivial(pieces: seq<string>): (cs: seq<string>)
    ensures forall k :: 0 <= k < |cs| ==> cs[k] != "" && cs[k] != "."
  {
    if pieces == [] then []
    else (if pieces[0] == "" || pieces[0] == "." then [] else [pieces[0]]) + DropTrivial(pieces[1..])
  }

  /** The components pathlib makes of one relative text joined with `/`. */
  function Components(s: string): (cs: seq<string>) {
    DropTrivial(SplitSlash(s))
  }

  /** The components of all the texts joined onto a path, in order. */
  function ResolvedParts(parts: seq<string>): (cs: seq<string>) {
    if parts == [] then []
    else ResolvedParts(parts[..|parts| - 1]) + Components(parts[|parts| - 1])
  }

  /** The path as pathlib compares it: its root and its components. */
  function Resolved(p: Path): (q: Path)
    ensures q.root == p.root
  {
    Path(p.root, ResolvedParts(p.parts))
  }

  /**
   * A text that is exactly one component on disk: not empty, no `/`, and not
   * `.` or `..` (pathlib keeps `..`, but on disk it names the parent).
   */
  predicate PlainName(s: string) {
    s != "" && s != "." && s != ".." && '/' !in s
  }

  lemma {:induction false} NoSlashOnePiece(s: string)
    requires '/' !in s
    ensures SplitSlash(s) == [s]
  {
    if |s| > 0 {
      assert s[0] in s;
      assert forall c :: c in s[1..] ==> c in s;
      NoSlashOnePiece(s[1..]);
      assert [s[0]] + s[1..] == s;
    }
  }

  /** Splitting at a slash after a slash-free text: that text is the first piece. */
  lemma {:induction false} SplitSlashAfter(a: string, b: string)
    requires '/' !in a
    ensures SplitSlash(a + "/" + b) == [a] + SplitSlash(b)
  {
    if |a| == 0 {
      assert a + "/" + b == ['/'] + b;
      assert (['/'] + b)[1..] == b;
    } else {
      var s := a + "/" + b;
      assert a[0] in a;
      assert forall c :: c in a[1..] ==> c in a;
      assert s[1..] == a[1..] + "/" + b;
      SplitSlashAfter(a[1..], b);
      assert [a[0]] + a[1..] == a;
    }
  }

  /** A plain name is one component: joining it is appending it, as `Join` does. */
  lemma PlainNameIsOneComponent(s: string)
    requires PlainName(s)
    ensures Components(s) == [s]
  {
    NoSlashOnePiece(s);
    assert DropTrivial([s]) == [s] + DropTrivial([]);
  }

  /** A plain name with a slash-free suffix stays plain. */
  lemma PlainFileName(organ: string, suffix: string)
    requires PlainName(organ) && '/' !in suffix && |suffix| >= 2
    ensures PlainName(organ + suffix)
  {
    assert forall c :: c in organ + suffix ==> c in organ || c in suffix;
    assert |organ + suffix| >= 3;
  }

  /** A path built from plain names only is already in pathlib's form. */
  lemma {:induction false} PlainPartsResolveToThemselves(p: Path)
    requires AllPlain(p)
    ensures Resolved(p) == p
    decreases |p.parts|
  {
    if p.parts != [] {
      var n := |p.parts|;
      PlainPartsResolveToThemselves(Path(p.root, p.parts[..n - 1]));
      PlainNameIsOneComponent(p.parts[n - 1]);
      assert p.parts[..n - 1] + [p.parts[n - 1]] == p.parts;
    }
  }

  const BaseDir: Path := Path(ProjectRoot, [])
  const DataDir: Path := Join(BaseDir, "data")
  const OutputDir: Path := Join(BaseDir, "output")
  const ProcessedDataDir: Path := Join(OutputDir, "processed_data")
  const ResultsDir: Path := Join(OutputDir, "results")

  /** The keys of the dictionary `get_paths` returns. */
  datatype PathKey =
    | RawDir | RawModel | ProcessedDir | ProcessedModel
    | TransformParams
    | RawKeypointsJson | RawKeypointsObj | ProcessedKeypoints | KeypointsMapping

  /** The keys every organ gets. */
  const BaseKeys: set<PathKey> := {RawDir, RawModel, ProcessedDir, ProcessedModel}

  /** The organs with entries beyond the base four. */
  predicate IsSpecialOrgan(organ: string) {
    organ == "skin" || organ == "heart" || organ == "thyroid"
  }

  /** `get_paths(organ_name)`: total on every organ name. */
  function GetPaths(organ: string): (paths: map<PathKey, Path>)
    ensures BaseKeys <= paths.Keys
    ensures paths[RawDir] == Join(DataDir, organ)
    ensures paths[RawModel] == Join(Join(DataDir, organ), organ + "_raw.obj")
    ensures paths[ProcessedDir] == Join(ProcessedDataDir, organ)
    ensures paths[ProcessedModel] == Join(Join(ProcessedDataDir, organ), organ + "_processed.obj")
    ensures TransformParams in paths <==> organ == "skin"
    ensures ProcessedKeypoints in paths <==> organ == "heart" || organ == "thyroid"
    ensures KeypointsMapping in paths <==> organ == "heart"
    ensures RawKeypointsJson in paths <==> organ == "heart"
    ensures RawKeypointsObj in paths <==> organ == "heart"
    ensures !IsSpecialOrgan(organ) ==> paths.Keys == BaseKeys
  {
    var raw := Join(DataDir, organ);
    var processed := Join(ProcessedDataDir, organ);
    var base := map[
      RawDir := raw,
      RawModel := Join(raw, organ + "_raw.obj"),
      ProcessedDir := processed,
      ProcessedModel := Join(processed, organ + "_processed.obj")
    ];
    var withSkin :=
      if organ == "skin" then base[TransformParams := Join(processed, "transform_params.json")]
      else base;
    var withHeart :=
      if organ == "heart" then
        withSkin[RawKeypointsJson := Join(raw, "keypoints_original.json")]
                [RawKeypointsObj := Join(raw, "keypoints_raw.obj")]
                [ProcessedKeypoints := Join(processed, "keypoints_processed.obj")]
                [KeypointsMapping := Join(processed, "keypoints_mapping.json")]
      else withSkin;
    if organ == "thyroid" then withHeart[ProcessedKeypoints := Join(processed, "keypoints_processed.obj")]
    else withHeart
  }

  /** `SKIN_TRANSFORM_PARAMS_PATH`, read from the table at import time. */
  const SkinTransformParamsPath: Path := GetPaths("skin")[TransformParams]

  const DefaultAlphaDeg: real := 30.0
  const DefaultThetaDeg: real := 0.0

  /** The organ a project path belongs to: the component after `data` or after `output/processed_data`. */
  function OrganOf(p: Path): (organ: string) {
    if |p.parts| >= 2 && p.parts[0] == "data" then p.parts[1]
    else if |p.parts| >= 3 then p.parts[2]
    else ""
  }

  /** Every entry of an organ's table lies in that organ's own directory. */
  lemma {:induction false} PathsBelongToOrgan(organ: string, k: PathKey)
    requires k in GetPaths(organ)
    ensures OrganOf(GetPaths(organ)[k]) == organ
  {
    var paths := GetPaths(organ);
    var raw := Join(DataDir, organ);
    var processed := Join(ProcessedDataDir, organ);
    match k
    case RawDir =>
    case ProcessedDir =>
    case RawModel =>
    case ProcessedModel =>
    case TransformParams =>
      assert paths[k] == Join(processed, "transform_params.json");
    case RawKeypointsJson =>
      assert paths[k] == Join(raw, "keypoints_original.json");
    case RawKeypointsObj =>
      assert paths[k] == Join(raw, "keypoints_raw.obj");
    case ProcessedKeypoints =>
      assert paths[k] == Join(processed, "keypoints_processed.obj");
    case KeypointsMapping =>
      assert paths[k] == Join(processed, "keypoints_mapping.json");
  }

  predicate AllPlain(p: Path) {
    forall j :: 0 <= j < |p.parts| ==> PlainName(p.parts[j])
  }

  /** Joining a plain name onto a path of plain names keeps it plain. */
  lemma JoinPlain(p: Path, part: string)
    requires AllPlain(p) && PlainName(part)
    ensures AllPlain(Join(p, part))
  {
  }

  /** The fixed directory names of the table are plain. */
  lemma FixedDirsPlain()
    ensures PlainName("data") && PlainName("output") && PlainName("processed_data")
  {
  }

  /** The fixed file names under the raw directory are plain. */
  lemma FixedRawFilesPlain()
    ensures PlainName("keypoints_original.json") && PlainName("keypoints_raw.obj")
  {
  }

  /** The fixed file names under the processed directory are plain. */
  lemma FixedProcessedFilesPlain()
    ensures PlainName("transform_params.json") && PlainName("keypoints_processed.obj")
    ensures PlainName("keypoints_mapping.json")
  {
  }

  /** The file name of a table entry: the organ's name with a suffix, or a fixed name. */
  lemma {:induction false} TableEntriesArePlain(organ: string, k: PathKey)
    requires PlainName(organ) && k in GetPaths(organ)
    ensures AllPlain(GetPaths(organ)[k])
  {
    var paths := GetPaths(organ);
    FixedDirsPlain();
    FixedRawFilesPlain();
    FixedProcessedFilesPlain();
    JoinPlain(BaseDir, "data");
    JoinPlain(BaseDir, "output");
    JoinPlain(OutputDir, "processed_data");
    var raw := Join(DataDir, organ);
    var processed := Join(ProcessedDataDir, organ);
    JoinPlain(DataDir, organ);
    JoinPlain(ProcessedDataDir, organ);
    match k
    case RawDir =>
    case ProcessedDir =>
    case RawModel =>
      PlainFileName(organ, "_raw.obj");
      assert paths[k] == Join(raw, organ + "_raw.obj");
      JoinPlain(raw, organ + "_raw.obj");
    case ProcessedModel =>
      PlainFileName(organ, "_processed.obj");
      assert paths[k] == Join(processed, organ + "_processed.obj");
      JoinPlain(processed, organ + "_processed.obj");
    case TransformParams =>
      assert paths[k] == Join(processed, "transform_params.json");
      JoinPlain(processed, "transform_params.json");
    case RawKeypointsJson =>
      assert paths[k] == Join(raw, "keypoints_original.json");
      JoinPlain(raw, "keypoints_original.json");
    case RawKeypointsObj =>
      assert paths[k] == Join(raw, "keypoints_raw.obj");
      JoinPlain(raw, "keypoints_raw.obj");
    case ProcessedKeypoints =>
      assert paths[k] == Join(processed, "keypoints_processed.obj");
      JoinPlain(processed, "keypoints_processed.obj");
    case KeypointsMapping =>
      assert paths[k] == Join(processed, "keypoints_mapping.json");
      JoinPlain(processed, "keypoints_mapping.json");
  }

  /**
   * Two different plain organ names never share a file or a directory, even as
   * pathlib compares paths.
   */
  lemma OrgansDoNotShareFiles(a: string, b: string, k: PathKey, k': PathKey)
    requires PlainName(a) && PlainName(b)
    requires a != b && k in GetPaths(a) && k' in GetPaths(b)
    ensures Resolved(GetPaths(a)[k]) != Resolved(GetPaths(b)[k'])
  {
    PathsBelongToOrgan(a, k);
    PathsBelongToOrgan(b, k');
    TableEntriesArePlain(a, k);
    TableEntriesArePlain(b, k');
    PlainPartsResolveToThemselves(GetPaths(a)[k]);
    PlainPartsResolveToThemselves(GetPaths(b)[k']);
  }

  /** A trailing slash adds nothing: pathlib reads `name/` as `name`. */
  lemma TrailingSlashIgnored(name: string)
    requires PlainName(name)
    ensures Components(name + "/") == [name]
  {
    NoSlashOnePiece(name);
    SplitSlashAfter(name, "");
    assert name + "/" + "" == name + "/";
    assert DropTrivial([name, ""]) == [name] + DropTrivial([""]);
  }

  /** A leading `./` adds nothing: pathlib reads `./name` as `name`. */
  lemma LeadingDotIgnored(name: string)
    requires PlainName(name)
    ensures Components("./" + name) == [name]
  {
    NoSlashOnePiece(name);
    SplitSlashAfter(".", name);
    assert "." + "/" + name == "./" + name;
    assert DropTrivial([".", name]) == DropTrivial([name]);
    assert DropTrivial([name]) == [name] + DropTrivial([]);
  }

  /**
   * Without plain names the tables do share: `heart/` and `./heart` get the
   * same directories as `heart`, though the three names differ.
   */
  lemma OrganSpellingsShareDirectories(organ: string)
    requires PlainName(organ)
    ensures organ + "/" != organ && "./" + organ != organ
    ensures Resolved(GetPaths(organ + "/")[RawDir]) == Resolved(GetPaths(organ)[RawDir])
    ensures Resolved(GetPaths("./" + organ)[ProcessedDir]) == Resolved(GetPaths(organ)[ProcessedDir])
  {
    TrailingSlashIgnored(organ);
    LeadingDotIgnored(organ);
    PlainNameIsOneComponent(organ);
    ResolvedJoin(DataDir, organ + "/");
    ResolvedJoin(DataDir, organ);
    ResolvedJoin(ProcessedDataDir, "./" + organ);
    ResolvedJoin(ProcessedDataDir, organ);
  }

  /** Joining a text adds its components after the path's own. */
  lemma ResolvedJoin(p: Path, part: string)
    ensures Resolved(Join(p, part)) == Path(p.root, ResolvedParts(p.parts) + Components(part))
  {
    assert (p.parts + [part])[..|p.parts|] == p.parts;
  }

  /** An organ's processed key points are `keypoints_processed.obj` in that organ's processed directory. */
  lemma ProcessedKeypointsFile(organ: string)
    requires ProcessedKeypoints in GetPaths(organ)
    ensures GetPaths(organ)[ProcessedKeypoints] == Join(Join(ProcessedDataDir, organ), "keypoints_processed.obj")
    ensures Name(GetPaths(organ)[ProcessedKeypoints]) == "keypoints_processed.obj"
  {
    assert GetPaths(organ)[ProcessedKeypoints] == Join(Join(ProcessedDataDir, organ), "keypoints_processed.obj");
    FixedProcessedFilesPlain();
    NameOfJoin(Join(ProcessedDataDir, organ), "keypoints_processed.obj");
  }

  /** Heart and thyroid keep their processed key points under the same file name, each in its own directory. */
  lemma ProcessedKeypointsShareFileName(a: string, b: string)
    requires a != b && ProcessedKeypoints in GetPaths(a) && ProcessedKeypoints in GetPaths(b)
    ensures Name(GetPaths(a)[ProcessedKeypoints]) == Name(GetPaths(b)[ProcessedKeypoints]) == "keypoints_processed.obj"
    ensures GetPaths(a)[ProcessedKeypoints] != GetPaths(b)[ProcessedKeypoints]
  {
    ProcessedKeypointsFile(a);
    ProcessedKeypointsFile(b);
    OrganDirectoriesDiffer(a, b, "keypoints_processed.obj");
  }

  /** The same file name in two organs' processed directories gives two paths. */
  lemma OrganDirectoriesDiffer(a: string, b: string, file: string)
    requires a != b
    ensures Join(Join(ProcessedDataDir, a), file) != Join(Join(ProcessedDataDir, b), file)
  {
    assert Join(Join(ProcessedDataDir, a), file).parts[2] == a;
  }

  /** For a plain organ name the processed model is named `<organ>_processed.obj`. */
  lemma ProcessedModelName(organ: string)
    requires PlainName(organ)
    ensures Name(GetPaths(organ)[ProcessedModel]) == organ + "_processed.obj"
  {
    PlainFileName(organ, "_processed.obj");
    NameOfJoin(Join(ProcessedDataDir, organ), organ + "_processed.obj");
  }

  /** The name of a path ends in the last component of the text joined last, when it has one. */
  lemma NameOfJoinedText(p: Path, part: string)
    requires Components(part) != []
    ensures Name(Join(p, part)) == Components(part)[|Components(part)| - 1]
  {
    ResolvedJoin(p, part);
  }

  /**
   * Other spellings name the file by pathlib's last component, not by the
   * spelling: `dir/base` gives `base_processed.obj`.
   */
  lemma NestedOrganProcessedModelName(dir: string, base: string)
    requires PlainName(dir) && PlainName(base)
    ensures Name(GetPaths(dir + "/" + base)[ProcessedModel]) == base + "_processed.obj"
  {
    var organ, file := dir + "/" + base, base + "_processed.obj";
    PlainFileName(base, "_processed.obj");
    assert organ + "_processed.obj" == dir + "/" + file;
    SplitSlashAfter(dir, file);
    NoSlashOnePiece(file);
    assert DropTrivial([dir, file]) == [dir] + DropTrivial([file]);
    assert DropTrivial([file]) == [file] + DropTrivial([]);
    assert Components(dir + "/" + file) == [dir, file];
    NameOfJoinedText(Join(ProcessedDataDir, organ), dir + "/" + file);
  }

  /** `./base` gives `base_processed.obj` too. */
  lemma DottedOrganProcessedModelName(base: string)
    requires PlainName(base)
    ensures Name(GetPaths("./" + base)[ProcessedModel]) == base + "_processed.obj"
  {
    var organ, file := "./" + base, base + "_processed.obj";
    PlainFileName(base, "_processed.obj");
    assert organ + "_processed.obj" == "./" + file;
    LeadingDotIgnored(file);
    NameOfJoinedText(Join(ProcessedDataDir, organ), "./" + file);
  }

  lemma SkinTransformParamsLocation()
    ensures SkinTransformParamsPath == Path(ProjectRoot, ["output", "processed_data", "skin", "transform_params.json"])
  {
  }
}
