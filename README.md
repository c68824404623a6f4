# Organ-to-skin ray tracer, modelled in Dafny

The repository projects landmarks of an internal organ (heart, thyroid) onto
the skin mesh of a body model. Every landmark sends one ray in a direction set
by two angles: a tilt `alpha` away from straight-ahead and an azimuth `theta`
around it. The point where the ray meets the skin is recorded. This project
models the sequential logic around the foreign geometry, and proves what that
logic promises.

| module | file | models |
|---|---|---|
| `Vectors`, `Extrema`, `PyStr`, `Wrappers` | `vectors.dfy`, `extrema.dfy`, `pystr.dfy`, `wrappers.dfy` | shared vocabulary: exact 3-vectors, `np.argmin`/`np.argmax` (first extreme index), `str.split()`/`startswith`/`str(int)`, `Option` |
| `Config` | `config.dfy` | `src/config.py`: the directory constants and the per-organ path table `get_paths` |
| `GeometryUtils` | `geometry_utils.dfy` | `src/geometry_utils.py`: both direction constructions, the in-place scene translation, and the first-hit filter `calculate_intersections` |
| `RayTracing` | `ray_tracing.dfy` | `src/ray_tracing.py`: loading `v ` lines, point names, grouping of bulk candidates by ray, nearest hit per ray, the summary record, the two OBJ listings with their vertex numbering, and `main`'s choice of files and output directory |
| `ExtractKeyPoints` | `extract_key_points.dfy` | `src/extract_key_points.py`: centroid plus six axis extremes, and the points-only OBJ file that the loader above reads back |
| `SceneExperiment` | `scene_experiment.dfy` | `src/main.py`: one whole-scene experiment (validation gate, translation, negated direction, first hits, summary, directory name) and the script's fixed sweep |

Conventions used throughout:

- Coordinates are reals with exact arithmetic.
- Distances are compared as squared Euclidean distances. `sqrt` is monotone, so the nearest candidate is the same.
- `np.linalg.norm` of the raw direction enters as a number `norm` with `norm >= 0` and `norm * norm` equal to the squared norm.
- The cosines and sines of the two angles enter as a `Trig` value.
- Foreign calls are function parameters:
  - trimesh's bulk `ray.intersects_location` is `BulkIntersector`;
  - pyvista's `ray_trace` is `RayTrace`;
  - `float()` and the `:.6f` rendering are parsing and formatting functions.
- The key-point ray tracer (`src/ray_tracing.py`) casts along the computed direction as it is. The whole-scene experiment (`src/main.py`) casts along its negation. Both are kept, and `SceneExperiment.OppositeCastDirections` proves the two opposite.
- pyvista's `ray_trace(origin, end_point)` takes an end point as its second argument. `calculate_intersections` passes the ray direction there. `RayTrace` is abstract and receives exactly the vector the source passes, so the model keeps the call as written. It does not interpret which segment pyvista then tests.

## Model

| member | source | states |
|---|---|---|
| Config.GetPaths | src/config.py:10-40 | Every organ gets `raw_dir`, `raw_model`, `processed_dir`, `processed_model` with values `data/<organ>`, `data/<organ>/<organ>_raw.obj`, `output/processed_data/<organ>`, `output/processed_data/<organ>/<organ>_processed.obj`. `transform_params` is present iff the organ is `skin`. `processed_keypoints` is present iff `heart` or `thyroid`. The mapping and both raw key-point files are present iff `heart`. Any other organ has exactly the four base keys. |
| Config.PathsBelongToOrgan | src/config.py:15-38 | Every entry of an organ's table lies in that organ's own directory under `data/` or `output/processed_data/`. |
| Config.PlainNameIsOneComponent | src/config.py:17-22 | pathlib makes a plain name (non-empty, no `/`, not `.` or `..`) into exactly one component, so `Join` appends it as pathlib's `/` does. |
| Config.PlainPartsResolveToThemselves | src/config.py:17-22 | A path joined from plain names only is already in pathlib's form. |
| Config.TableEntriesArePlain | src/config.py:15-38 | For a plain organ name every entry of the table is joined from plain names: the organ, `<organ>_raw.obj`, `<organ>_processed.obj` and the fixed names. |
| Config.OrgansDoNotShareFiles | src/config.py:15-38 | For two different plain organ names, no entry of one table is the same pathlib path as an entry of the other. |
| Config.TrailingSlashIgnored | src/config.py:17 | pathlib reads `name/` as the single component `name`. |
| Config.LeadingDotIgnored | src/config.py:21 | pathlib reads `./name` as the single component `name`. |
| Config.OrganSpellingsShareDirectories | src/config.py:17-21 | Without plain names the tables do share: `heart/` gets the raw directory of `heart`, and `./heart` its processed directory. |
| Config.Name | src/ray_tracing.py:111-112 | `Path(p).name` is the last component pathlib makes of the path. For a path joined from plain names it is the last text joined. |
| Config.NameOfJoin | src/ray_tracing.py:111-112 | A plain file name joined last is the path's `.name`, whatever directory precedes it. |
| Config.ProcessedModelName | src/ray_tracing.py:111 | For a plain organ name the processed model's `.name` is `<organ>_processed.obj`. |
| Config.NestedOrganProcessedModelName | src/ray_tracing.py:111 | For the organ spelling `dir/base` the processed model's `.name` is `base_processed.obj`, not the spelling plus the suffix. |
| Config.DottedOrganProcessedModelName | src/ray_tracing.py:111 | For the organ spelling `./base` the processed model's `.name` is `base_processed.obj`. |
| Config.ProcessedKeypointsFile | src/config.py:33-38 | An organ with processed key points keeps them in `output/processed_data/<organ>/keypoints_processed.obj`, whose `.name` is `keypoints_processed.obj`. |
| Config.ProcessedKeypointsShareFileName | src/config.py:33-38 | Any two different organs with processed key points (heart and thyroid) give them the same `.name`, at different paths. |
| Config.SkinTransformParamsLocation | src/config.py:44 | `SKIN_TRANSFORM_PARAMS_PATH` is `BASE_DIR/output/processed_data/skin/transform_params.json`. |
| GeometryUtils.Direction | src/geometry_utils.py:4-53 | Above the 1e-9 threshold the result has unit length and scales back by the norm to the raw combination. At or below it, the raw combination is returned unchanged. |
| GeometryUtils.DirectionOld | src/geometry_utils.py:55-100 | The old variant divides with no guard. It fails (numpy's NaN vector) exactly when the norm is 0. Otherwise it gives a unit vector that scales back to the raw combination. |
| GeometryUtils.RawDirectionCoordinates | src/geometry_utils.py:44-46 | In an orthonormal basis the raw vector's coordinates along `D_base`, `V_up` and `V_left` are `comp_base = cos a`, `comp_up = sin a cos t` and `comp_left = sin a sin t`. |
| GeometryUtils.CorrectedRawComponents | src/geometry_utils.py:27-46 | Under the corrected basis the raw vector is `(-sin a sin t, sin a cos t, cos a)`. |
| GeometryUtils.OldRawComponents | src/geometry_utils.py:77-95 | Under the old basis the raw vector is `(-sin a sin t, -cos a, sin a cos t)`. |
| GeometryUtils.ConventionsDifferByQuarterTurn | src/geometry_utils.py:77-95 | The old raw vector is the corrected one turned a quarter turn about the x axis, `(x, -z, y)`. The two conventions are not interchangeable. |
| GeometryUtils.OldLeftIsMinusX | src/geometry_utils.py:77-79 | In the old basis `V_left = D_base x V_up = (-1, 0, 0)`, the same as the corrected `V_left`. |
| GeometryUtils.CorrectedBasisRightHanded | src/geometry_utils.py:27-29 | The corrected `V_left` is `D_base x V_up`. |
| GeometryUtils.CorrectedBasisOrthonormal | src/geometry_utils.py:27-29 | The corrected basis vectors are unit length and pairwise orthogonal. |
| GeometryUtils.OldBasisOrthonormal | src/geometry_utils.py:77-79 | The old basis, with its computed `V_left`, is unit length and pairwise orthogonal. |
| GeometryUtils.UnitTrigGivesUnitRaw | src/geometry_utils.py:34-46 | With cos^2 + sin^2 = 1 for both angles, the raw vector has squared norm exactly 1 under either basis. |
| GeometryUtils.NormalisationIsIdentityForUnitTrig | src/geometry_utils.py:48-51 | With exact trigonometry the norm is 1 and normalisation leaves the raw vector unchanged. |
| GeometryUtils.ZeroTiltIgnoresAzimuth | src/geometry_utils.py:34-46 | When sin(alpha) = 0 the raw vector is `D_base * cos(alpha)`, and neither it nor the direction depends on theta. |
| GeometryUtils.PolyData.Translate | src/geometry_utils.py:105-106 | `translate(t, inplace=True)` replaces every point by the point plus `t`. |
| GeometryUtils.TransformScene | src/geometry_utils.py:102-107 | Mesh and points are both translated by `-center`, with the centre taken before either moves. The same object passed twice moves twice. |
| GeometryUtils.TranslationKeepsOffsets | src/geometry_utils.py:104-106 | After the common translation every mesh-point-minus-source-point difference is unchanged. |
| GeometryUtils.HitIndices | src/geometry_utils.py:113-117 | The selected indices are at most `n`, each below `n`, and each names a point whose `ray_trace` reported at least one hit. |
| GeometryUtils.HitIndicesIncreasing | src/geometry_utils.py:113-117 | The selected indices are strictly increasing, so the kept sources are an in-order subsequence of the points. |
| GeometryUtils.HitIndicesComplete | src/geometry_utils.py:113-117 | Every point whose `ray_trace` reported a hit is selected. |
| GeometryUtils.CalculateIntersections | src/geometry_utils.py:109-118 | The loop returns two equally long lists, no longer than the points. Entry k of the sources is the k-th hitting point. Entry k of the intersections is the first hit that `ray_trace` reported for it, with no nearest-distance choice. |
| RayTracing.Coordinates | src/ray_tracing.py:28-29 | Only tokens 2 to 4 of a line are kept: at most three coordinates. |
| RayTracing.LoadKeyPoints | src/ray_tracing.py:22-30 | The line loop yields exactly the coordinate tokens of the `v ` lines in file order, as `ParsedPoints` defines them. |
| RayTracing.ParsedPointsAppend | src/ray_tracing.py:26-29 | Loading a file made of two parts gives the first part's points followed by the second's. |
| RayTracing.OtherLinesIgnored | src/ray_tracing.py:27 | A line not starting with `v ` (comment, `vn`, `f`, blank) adds no point wherever it stands. |
| RayTracing.VertexLineAddsOnePoint | src/ray_tracing.py:27-29 | A `v ` line adds exactly its own coordinates, at its place in the file. |
| RayTracing.VertexLineCoordinates | src/ray_tracing.py:27-29 | `v x y z` followed by whitespace and anything else is a vertex line whose coordinates are exactly `[x, y, z]`: a trailing `# name` comment is dropped. |
| RayTracing.PointNames | src/ray_tracing.py:57-66 | There is always one name per point. The mapping keys are used iff a mapping was read and has exactly as many keys as points. Otherwise name i is `Point_<i+1>`. |
| RayTracing.SyntheticNamesDistinct | src/ray_tracing.py:64-66 | Different indices get different fallback names. |
| RayTracing.GroupByRay | src/ray_tracing.py:75-77 | `hit_map` has exactly the keys `0..n-1`, and the list of ray i holds that ray's candidates in reported order. |
| RayTracing.ReportedForNonEmpty | src/ray_tracing.py:75-85 | A ray's list is non-empty iff some candidate names that ray. |
| RayTracing.ReportedForAppend | src/ray_tracing.py:76-77 | Grouping a report made of two parts appends the second part's entries after the first's, ray by ray. |
| RayTracing.EveryCandidateAttributed | src/ray_tracing.py:76-77 | Every candidate lands in the list of the ray it names. |
| RayTracing.ReportedOnlyFromRay | src/ray_tracing.py:76-77 | Every entry of ray i's list comes from a candidate that named ray i. |
| RayTracing.InterleavingIrrelevant | src/ray_tracing.py:76-77 | Swapping two adjacent candidates of different rays changes no ray's list. |
| RayTracing.ToPoint | src/ray_tracing.py:29 | A row converts iff it has exactly three tokens and `float()` accepts each. The point is then the three converted values in order. |
| RayTracing.Distances | src/ray_tracing.py:87 | One distance per candidate of the ray, in reported order. Entry j is candidate j's squared distance from the origin and is never negative. |
| RayTracing.NearestHit | src/ray_tracing.py:85-93 | The outcome is a miss iff the ray has no candidates. |
| RayTracing.NearestHitIsClosest | src/ray_tracing.py:86-92 | On a hit: the chosen point and face belong to one reported candidate, and the recorded distance is that candidate's. No candidate is closer. Among equally close candidates the first reported is chosen (`np.argmin`). |
| RayTracing.RunRayTracing | src/ray_tracing.py:57-96 | The direction is the corrected `get_direction_from_angles`, cast as it is. Result i is built from point i, name i and the nearest of the candidates reported for ray i. |
| RayTracing.ResultsProperties | src/ray_tracing.py:79-94 | There is one result per point, in input order, with index i, name i and point i. A result is a hit iff some candidate names its ray. A hit's point and face come from one candidate of that ray, and its distance is at most every candidate distance of that ray. |
| RayTracing.CountHits | src/ray_tracing.py:116 | `rays_that_hit` never exceeds the number of results. |
| RayTracing.ValidIntersections | src/ray_tracing.py:131 | The filtered list has `rays_that_hit` entries, all hits, all from the results, and contains every hit of the results. |
| RayTracing.ValidIntersectionsAppend | src/ray_tracing.py:131 | Filtering a list made of two parts gives the first part's hits followed by the second's: the filter keeps result order. |
| RayTracing.ValidIntersectionsSingle | src/ray_tracing.py:131 | A single result is kept iff it is a hit; with the append lemma the filtered list is the in-order subsequence of hits. |
| RayTracing.SomeHitIffCountPositive | src/ray_tracing.py:131-134 | `rays_that_hit > 0` iff some result is a hit. |
| RayTracing.BuildMetadata | src/ray_tracing.py:106-122 | `total_source_points == len(results)` and `rays_that_hit` counts the hits. The record keeps the parameters, the direction and the results. `skin_mesh` and `key_points` hold file names. `point_mapping` is present iff a mapping path was given. |
| RayTracing.IntersectionsHeader | src/ray_tracing.py:137 | The header of `intersections.obj` ends with the rendered theta. |
| RayTracing.IntersectionNote | src/ray_tracing.py:140 | A hit's vertex comment starts with `name: <point name>` and ends with the face number. |
| RayTracing.PairsHeader | src/ray_tracing.py:147 | The header of `ray_pairs.obj` ends with the rendered theta and differs from the header of `intersections.obj`. |
| RayTracing.PairBlock | src/ray_tracing.py:152-155 | A pair block is four lines: a comment, the source vertex, the target vertex, and the line element `counter counter+1`. |
| RayTracing.IntersectionsObj | src/ray_tracing.py:133-140 | `intersections.obj` exists iff some ray hit. It is the header followed by one vertex per hit, in result order. |
| RayTracing.PairBlocksExtend | src/ray_tracing.py:148-156 | One more pair appends one more four-line block, numbered from `2k+1`. |
| RayTracing.PairsObj | src/ray_tracing.py:143-156 | `ray_pairs.obj` exists iff some ray hit. The loop with its running `vertex_counter`, which is `2k+1` before pair k, writes the header followed by the pair blocks. |
| RayTracing.BlockContents | src/ray_tracing.py:152-155 | A pair block holds the source and target as its two vertices and one line element `counter counter+1`. |
| RayTracing.PairVerticesLayout | src/ray_tracing.py:149-156 | The vertices of the pair blocks are the sources and targets, two per pair, in pair order. |
| RayTracing.PairSegmentsLayout | src/ray_tracing.py:148-156 | The k-th line element joins vertices `counter+2k` and `counter+2k+1`. |
| RayTracing.PairLinesJoinTheirEndpoints | src/ray_tracing.py:143-156 | In `ray_pairs.obj` the k-th line element is `l 2k+1 2k+2`. OBJ vertex `2k+1` is the k-th hit's source and vertex `2k+2` its intersection. |
| RayTracing.SaveResults | src/ray_tracing.py:98-157 | The JSON record is always built (`BuildMetadata`). `intersections.obj` is `IntersectionsObj`. Both OBJ listings are written iff `rays_that_hit > 0`, and `ray_pairs.obj` is the header followed by the pair blocks of the hits. |
| RayTracing.KeyPointsPath | src/ray_tracing.py:42-45 | The organ's processed key points are used when its table has them and the file exists, in any spelling pathlib reads alike. Otherwise its processed model is used. |
| RayTracing.KeyPointsFileName | src/ray_tracing.py:42-45 | The chosen key-point file's `.name` is `keypoints_processed.obj`. When the processed model is used and the organ name is plain, it is `<source>_processed.obj`. |
| RayTracing.RecordedFileNames | src/ray_tracing.py:110-122 | The record's `skin_mesh` and `key_points` are the `.name`s of the target's processed model and the chosen key-point file. For plain organ names they are `<target>_processed.obj` and `keypoints_processed.obj` or `<source>_processed.obj`. `point_mapping` is present iff the source is `heart`. |
| RayTracing.MissingInput | src/ray_tracing.py:43-51 | The first file that cannot be opened: the target's processed model, which `trimesh.load` reads first, then the key points. A file is present when its pathlib form is among the existing files. |
| RayTracing.MappingPath | src/ray_tracing.py:48 | The source has a mapping path iff it is `heart`, and it is the table's `keypoints_mapping` entry. |
| RayTracing.MappingKeys | src/ray_tracing.py:58-62 | The mapping's keys are read iff the source has a mapping path and that file exists (its pathlib form is among the existing files). |
| RayTracing.ExperimentDirName | src/ray_tracing.py:202 | The output directory's name starts with `alpha_`. It is one path component when neither rendered angle holds a `/`. |
| RayTracing.OutputPath | src/ray_tracing.py:197-202 | The last text joined is `alpha_<a>_theta_<t>`, which is also the path's `.name` when the angle texts have no `/`. The directory sits under `--output_dir` when that is given and non-empty, else under `output/results/<source>_to_<target>`. |
| RayTracing.ToPoints | src/ray_tracing.py:29-30 | Conversion succeeds iff every row converts. It then has one point per row, each the row's converted value. |
| RayTracing.TraceAndSave | src/ray_tracing.py:162-212 | The run stops on a missing file iff `MissingInput` finds one: the target's processed model (loaded first) or the chosen key-point file, compared in pathlib's form. Otherwise it fails iff some key-point row does not convert, and writes nothing iff there are no points. When it writes, it writes under `OutputPath`. The saved results are `ResultsFor` the loaded points, their names (`PointNames` over the mapping keys) and the candidates the intersector reports for the tiled direction. The saved files are `SavedContents` for those results, the direction, the target's processed model, the chosen key-point file and the source's mapping path. The record names both files by their `.name`: `<target>_processed.obj` for a plain target name, and `keypoints_processed.obj` or, for a plain source name, `<source>_processed.obj`. It has a `point_mapping` entry iff the source is `heart`. |
| ExtractKeyPoints.ExtractKeyPoints | src/extract_key_points.py:37-56 | Exactly seven points: the centroid first, then six points that are vertices of the mesh. |
| ExtractKeyPoints.KeyPointsBoundVertices | src/extract_key_points.py:37-52 | X-min/X-max, Y-min/Y-max and Z-min/Z-max bound every vertex along their axis. |
| ExtractKeyPoints.ExtremaAreFirstIndices | src/extract_key_points.py:37-42 | Each of the six is the vertex at the first index holding the extreme value (numpy tie-break). |
| ExtractKeyPoints.HeaderLines | src/extract_key_points.py:65-68 | The header is five lines, each a `#` comment or blank, none a `v ` line. |
| ExtractKeyPoints.PointLine | src/extract_key_points.py:71 | A key point's line is a `v ` line ending with the comment that names the point. |
| ExtractKeyPoints.PointLines | src/extract_key_points.py:70-71 | One `v ` line per key point. |
| ExtractKeyPoints.KeyPointLineNamed | src/extract_key_points.py:70-71 | Line 5+i of the written file is key point i's line, and it ends with the comment naming `point_names[i]`, so names stay aligned with points. |
| ExtractKeyPoints.KeyPointFile | src/extract_key_points.py:64-71 | The file has 5 + 7 lines. A line is a `v ` line iff it comes after the header. |
| ExtractKeyPoints.PointLineCoordinates | src/extract_key_points.py:71 | A point's line yields exactly its three rendered coordinates; the name comment is dropped. |
| ExtractKeyPoints.KeyPointFileParsesBack | src/extract_key_points.py:64-71 | `load_key_points` over the written file finds exactly the seven points' coordinate tokens, in key-point order. |
| ExtractKeyPoints.KeyPointsLoadBack | src/extract_key_points.py:64-71 | Loading the written file yields the seven key points in order, each coordinate as `float()` reads back its rendering. |
| SceneExperiment.AngleText | src/main.py:54 | An angle prints as a non-empty text of digits and `.` only. |
| SceneExperiment.ExperimentDirName | src/main.py:54 | The directory name is one plain path component: no `/`, not empty, not `.` or `..`. |
| SceneExperiment.AngleTextInjective | src/main.py:54 | Different angles print differently. An int angle (`15`) and a float one (`30.0`) never print alike. |
| SceneExperiment.ExperimentDir | src/main.py:54 | The experiment directory is `RESULTS_DIR / "alpha_<a>_theta_<t>"`, and its `.name` is exactly that directory name. |
| SceneExperiment.ExperimentDirNameInjective | src/main.py:54 | The directory name determines both angles. |
| SceneExperiment.DistinctSettingsDistinctDirs | src/main.py:54 | Different angle pairs get different directories. |
| SceneExperiment.CastDirection | src/main.py:23-25 | The cast direction is the exact negation of `get_direction_from_angles`: the two sum to zero. |
| SceneExperiment.OppositeCastDirections | src/main.py:23-25 | With exact trigonometry the whole-scene experiment and the key-point ray tracer cast in opposite unit directions, which are never equal. |
| SceneExperiment.Zip | src/main.py:47-50 | The map pairs source k with intersection k, as long as the shorter list. |
| SceneExperiment.RunSingleExperiment | src/main.py:8-57 | A failed validation returns before anything moves. Otherwise mesh and points are translated by `-center`, and rays are cast along the negated direction. The directory is `ExperimentDir(alpha, theta)`. `total_source_points` is the point count. `rays_that_hit`, the intersections and the map all have one entry per hitting point. Entry k pairs the k-th hitting point with its first reported hit. |
| SceneExperiment.DefaultSettingMatchesConfig | src/main.py:61 | The default run uses `DEFAULT_ALPHA_DEG = 30.0` and `DEFAULT_THETA_DEG = 0.0`. |
| SceneExperiment.Sweep | src/main.py:59-67 | The script runs 13 experiments: the default first, then alpha in 15, 30, 45 (outer) and theta in 0, 90, 180, 270 (inner), in that order. |
| SceneExperiment.SweepSettingsDistinct | src/main.py:61-67 | No setting is run twice as the script spells it (an int angle and a float angle are different settings). |
| SceneExperiment.SweepRepeatsDefaultAngles | src/main.py:61-67 | The same angles in degrees are run twice: the default run (30.0, 0.0) and the sixth run, index 5, (30, 0). They go to `alpha_30.0_theta_0.0` and to `alpha_30_theta_0`. |
| SceneExperiment.SweepDirectoriesDistinct | src/main.py:54-67 | The 13 experiments write to 13 different directories, the repeated (30, 0) angles included. |

## Left out

- Trigonometry and `np.deg2rad` are not modelled. The cosines and sines enter as `Trig`, and the link from the angle values to them is not modelled.
- `np.linalg.norm` and `sqrt` are not modelled. The norm is an input characterised by its square.
- Floating-point rounding is not modelled. All arithmetic is exact over the reals.
- RayTracing.NearestHit: the recorded `distance` is the squared Euclidean distance, not its square root. The choice of candidate is the same because `sqrt` is monotone.
- RayTracing.Coordinates: states only the token bound. Its exact value for a well-formed line is `RayTracing.VertexLineCoordinates`.
- `float()`, `:.6f` and `str()` of a float are not modelled. They are parameters or strings: `RayTracing.Params` carries the angles as already-rendered text.
- SceneExperiment.AngleText: covers whole-degree angles only, which is all the script passes.
- The bulk intersector is trimesh's `ray.intersects_location`. It is assumed to report only ray indices it was given (`ReportsOnlyGivenRays`); an index outside them would be a `KeyError` in the source.
- pyvista's `ray_trace` is an abstract function of the mesh's points, the origin and the vector passed as its end point. Its geometry, and the consequence of passing a direction where pyvista expects an end point, are not modelled.
- Foreign loading is not modelled: `trimesh.load`, `pv.read`, `mesh.centroid` and `mesh.center`. The vertices, centroid and centre are inputs.
- `load_data` and `validate_setup` (src/data_loader.py) are not part of this model. Their results are parameters. `data_loader.py` imports names that `config.py` does not define, so the script cannot import as written; the model covers `run_single_experiment`'s own logic only.
- SceneExperiment.RunSingleExperiment: requires the mesh and the points to be different objects, as the two separate reads in `load_data` produce.
- The savers are not part of this model: `save_experiment_results` (src/io_utils.py), `json.dump`, file writes, `mkdir`, timestamps and console output. The model builds what would be written (records, OBJ lines) as values.
- `extract_key_points.py`'s `main` (argument parsing, input-file existence check, `makedirs`) is not modelled; it is I/O around `extract_key_points`.
- ExtractKeyPoints.ExtractKeyPoints: requires at least one vertex. `np.argmin` of an empty array raises in the source.
- ExtractKeyPoints.KeyPointFile: treats each write as one line. A mesh path containing a line break would split the second header line when the file is read back.
- An empty key-point file gives no points. The model then ends with nothing written; trimesh's behaviour on zero rays is not modelled.
- Rows without exactly three coordinates give a ragged or wrongly shaped array in the source, which fails there or later. The model reports them as an input error.
- run_complete_workflow.py is not part of this model; it only launches the other scripts as subprocesses.
- Config.OrgansDoNotShareFiles: holds for plain organ names only (non-empty, no `/`, not `.` or `..`). pathlib reads `heart/` and `./heart` as `heart` (`Config.OrganSpellingsShareDirectories`), so other spellings of one organ share files. No caller in the repository passes such a name.
- Config.Resolved: treats every joined text as relative. An absolute organ name (leading `/`) would replace the base directory in pathlib; that case is not modelled.
- RayTracing.TraceAndSave: a file that exists but that `trimesh.load` cannot read as a mesh, and a mapping file that `json.load` cannot parse, are not modelled as failures. The mesh is an intersector parameter and the mapping keys are a total function. Which files exist is one snapshot for the whole run.
- RayTracing.TraceAndSave: the recorded file names are given as concrete texts (`<target>_processed.obj`, `<source>_processed.obj`) for plain organ names only. For other spellings the record holds `Config.Name`, pathlib's last component, and `Config.NestedOrganProcessedModelName` shows that this drops the directory part of the spelling.
- RayTracing.KeyPointsFileName: `<source>_processed.obj` is stated for plain source names only, for the same reason.
- RayTracing.MissingInput: a file counts as existing when its pathlib form (`Config.Resolved`) is in the set. The operating system also resolves `..` and symbolic links; that is not modelled.
