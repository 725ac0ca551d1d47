/** The rules around the COLMAP reconstruction (app/core/engine.py) that do not depend
    on running anything: the project layout, the command lines of the four COLMAP (or
    GLOMAP) stages and of ffmpeg, the Brush descriptor, the video prefix filter, the
    choice and naming of images to copy, and the project clean-up. */
module Colmap {
  import opened Text
  import opened Host
  import Paths
  import HostSystem

  /** The reconstruction settings (`ColmapParams`). The two float ratios are kept as
      the text `str(float)` prints for them. */
  datatype Params = Params(
    cameraModel: string, singleCamera: bool, maxImageSize: int, maxNumFeatures: int,
    estimateAffineShape: bool, domainSizePooling: bool,
    matcherType: string, maxRatio: string, maxDistance: string, crossCheck: bool,
    useGlomap: bool, minModelSize: int, multipleModels: bool,
    baRefineFocalLength: bool, baRefinePrincipalPoint: bool, baRefineExtraParams: bool,
    minNumMatches: int, undistortImages: bool)

  /** What `ColmapEngine.__init__` fixes, the host facts already resolved. `fps` is the
      text the f-string prints for the frame rate; `upscaleActive` stands for an upscale
      configuration that is present, non-empty and has a truthy "active" entry. */
  datatype Setup = Setup(
    params: Params, inputPath: string, outputPath: string, inputType: string, fps: string,
    projectName: string, isSilicon: bool, machine: string, numThreads: nat,
    ffmpegBin: string, colmapBin: string, glomapBin: string, upscaleActive: bool)

  /** `resolve_binary(name) or name` */
  function BinaryOr(found: Option<string>, name: string): (r: string)
    ensures found.Some? && found.value != "" ==> r == found.value
    ensures found.None? ==> r == name
  {
    if found.Some? && found.value != "" then found.value else name
  }

  /** The constructor: Apple Silicon detection, the thread count and the three binaries,
      each the resolved path or the bare name. */
  function MakeSetup(params: Params, inputPath: string, outputPath: string, inputType: string,
                     fps: string, projectName: string, system: string, machine: string, cpu: Option<nat>,
                     fs: FileSystem, root: string, path: SearchPath, upscaleActive: bool): (r: Setup)
    ensures r.isSilicon == HostSystem.IsAppleSilicon(system, machine)
    ensures r.numThreads == HostSystem.OptimalThreads(r.isSilicon, cpu)
    ensures r.ffmpegBin == BinaryOr(HostSystem.ResolveBinary(fs, root, "ffmpeg", path), "ffmpeg")
    ensures r.colmapBin == BinaryOr(HostSystem.ResolveBinary(fs, root, "colmap", path), "colmap")
    ensures r.glomapBin == BinaryOr(HostSystem.ResolveBinary(fs, root, "glomap", path), "glomap")
  {
    var silicon := HostSystem.IsAppleSilicon(system, machine);
    Setup(params, inputPath, outputPath, inputType, fps, projectName, silicon, machine,
          HostSystem.OptimalThreads(silicon, cpu),
          BinaryOr(HostSystem.ResolveBinary(fs, root, "ffmpeg", path), "ffmpeg"),
          BinaryOr(HostSystem.ResolveBinary(fs, root, "colmap", path), "colmap"),
          BinaryOr(HostSystem.ResolveBinary(fs, root, "glomap", path), "glomap"),
          upscaleActive)
  }

  // The project layout: [output]/[project]/{images, checkpoints, sparse, dense, ...}.

  function ProjectDir(c: Setup): string { Paths.PathJoin(c.outputPath, c.projectName) }
  function ImagesDir(c: Setup): string { Paths.PathJoin(ProjectDir(c), "images") }
  function CheckpointsDir(c: Setup): string { Paths.PathJoin(ProjectDir(c), "checkpoints") }
  function DatabasePath(c: Setup): string { Paths.PathJoin(ProjectDir(c), "database.db") }
  function SparseDir(c: Setup): string { Paths.PathJoin(ProjectDir(c), "sparse") }
  function DenseDir(c: Setup): string { Paths.PathJoin(ProjectDir(c), "dense") }
  function ImagesSourceDir(c: Setup): string { Paths.PathJoin(ProjectDir(c), "images_src") }
  function ConfigPath(c: Setup): string { Paths.PathJoin(ProjectDir(c), "brush_config.json") }

  /** `str(self.input_path)`: the input as pathlib prints it. */
  function InputText(c: Setup): string { Paths.PathStr(c.inputPath) }

  function Flag01(b: bool): (r: string)
    ensures r == "1" <==> b
    ensures r == "0" <==> !b
  {
    if b then "1" else "0"
  }

  /** Flag/value pairs laid out on a command line: `--flag value --flag value ...`. */
  function Flatten(opts: seq<(string, string)>): (r: seq<string>)
    ensures |r| == 2 * |opts|
  {
    if opts == [] then [] else [opts[0].0, opts[0].1] + Flatten(opts[1..])
  }

  /** How a tool reads its options back: consecutive flag/value pairs. */
  function Pairs(args: seq<string>): seq<(string, string)>
    decreases |args|
  {
    if |args| < 2 then [] else [(args[0], args[1])] + Pairs(args[2..])
  }

  lemma {:induction false} PairsFlatten(opts: seq<(string, string)>)
    ensures Pairs(Flatten(opts)) == opts
  {
    if opts != [] {
      var f := Flatten(opts);
      assert f[2..] == Flatten(opts[1..]);
      PairsFlatten(opts[1..]);
    }
  }

  /** The value given to the first occurrence of `flag`. */
  function Lookup(opts: seq<(string, string)>, flag: string): Option<string> {
    if opts == [] then None else if opts[0].0 == flag then Some(opts[0].1) else Lookup(opts[1..], flag)
  }

  function OptionValue(args: seq<string>, flag: string): Option<string> {
    Lookup(Pairs(args), flag)
  }

  function Flags(opts: seq<(string, string)>): (r: seq<string>)
    ensures |r| == |opts| && forall i :: 0 <= i < |opts| ==> r[i] == opts[i].0
  {
    if opts == [] then [] else [opts[0].0] + Flags(opts[1..])
  }

  predicate DistinctFlags(opts: seq<(string, string)>) {
    forall i, j :: 0 <= i < j < |opts| ==> opts[i].0 != opts[j].0
  }

  lemma {:induction false} LookupAt(opts: seq<(string, string)>, k: nat)
    requires k < |opts| && DistinctFlags(opts)
    ensures Lookup(opts, opts[k].0) == Some(opts[k].1)
  {
    if k > 0 {
      assert opts[0].0 != opts[k].0;
      assert opts[1..][k - 1] == opts[k];
      LookupAt(opts[1..], k - 1);
    }
  }

  /** A tool given `Flatten(opts)` with distinct flags reads back every pair. */
  lemma ReadsBack(opts: seq<(string, string)>, k: nat)
    requires k < |opts| && DistinctFlags(opts)
    ensures OptionValue(Flatten(opts), opts[k].0) == Some(opts[k].1)
  {
    PairsFlatten(opts);
    LookupAt(opts, k);
  }

  function IntOption(v: Option<string>): Option<int> {
    if v.Some? then ParseInt(v.value) else None
  }

  function FeatureExtractionOptions(c: Setup, db: string, images: string): seq<(string, string)> {
    var p := c.params;
    [ ("--database_path", db),
      ("--image_path", images),
      ("--ImageReader.camera_model", p.cameraModel),
      ("--ImageReader.single_camera", Flag01(p.singleCamera)),
      ("--FeatureExtraction.num_threads", NatToString(c.numThreads)),
      ("--SiftExtraction.max_image_size", IntToString(p.maxImageSize)),
      ("--SiftExtraction.max_num_features", IntToString(p.maxNumFeatures)),
      ("--SiftExtraction.estimate_affine_shape", Flag01(p.estimateAffineShape)),
      ("--SiftExtraction.domain_size_pooling", Flag01(p.domainSizePooling)) ]
  }

  /** `colmap feature_extractor ...` */
  function FeatureExtractionArgv(c: Setup, db: string, images: string): (r: seq<string>)
    ensures |r| == 20 && r[0] == c.colmapBin && r[1] == "feature_extractor"
  {
    [c.colmapBin, "feature_extractor"] + Flatten(FeatureExtractionOptions(c, db, images))
  }

  /** The extractor reads back every setting it is given, the numbers included. */
  lemma FeatureExtractionReadsBack(c: Setup, db: string, images: string)
    ensures var a := FeatureExtractionArgv(c, db, images)[2..];
      && OptionValue(a, "--database_path") == Some(db)
      && OptionValue(a, "--image_path") == Some(images)
      && OptionValue(a, "--ImageReader.camera_model") == Some(c.params.cameraModel)
      && (OptionValue(a, "--ImageReader.single_camera") == Some("1") <==> c.params.singleCamera)
      && IntOption(OptionValue(a, "--FeatureExtraction.num_threads")) == Some(c.numThreads)
      && IntOption(OptionValue(a, "--SiftExtraction.max_image_size")) == Some(c.params.maxImageSize)
      && IntOption(OptionValue(a, "--SiftExtraction.max_num_features")) == Some(c.params.maxNumFeatures)
      && (OptionValue(a, "--SiftExtraction.estimate_affine_shape") == Some("1") <==> c.params.estimateAffineShape)
      && (OptionValue(a, "--SiftExtraction.domain_size_pooling") == Some("1") <==> c.params.domainSizePooling)
  {
    var opts := FeatureExtractionOptions(c, db, images);
    assert FeatureExtractionArgv(c, db, images)[2..] == Flatten(opts);
    assert DistinctFlags(opts);
    ReadsBack(opts, 0); ReadsBack(opts, 1); ReadsBack(opts, 2);
    ReadsBack(opts, 3); ReadsBack(opts, 4); ReadsBack(opts, 5);
    ReadsBack(opts, 6); ReadsBack(opts, 7); ReadsBack(opts, 8);
    ParseIntToString(c.numThreads);
    ParseIntToString(c.params.maxImageSize);
    ParseIntToString(c.params.maxNumFeatures);
  }

  function MatchingOptions(c: Setup, db: string): seq<(string, string)> {
    var p := c.params;
    [ ("--database_path", db),
      ("--FeatureMatching.num_threads", NatToString(c.numThreads)),
      ("--SiftMatching.max_ratio", p.maxRatio),
      ("--SiftMatching.max_distance", p.maxDistance),
      ("--SiftMatching.cross_check", Flag01(p.crossCheck)) ]
  }

  /** `colmap sequential_matcher ...` or `colmap exhaustive_matcher ...`. */
  function MatchingArgv(c: Setup, db: string): (r: seq<string>)
    ensures |r| == 12 && r[0] == c.colmapBin
  {
    if c.params.matcherType == "sequential" then
      [c.colmapBin, "sequential_matcher"] + Flatten(MatchingOptions(c, db))
    else
      [c.colmapBin, "exhaustive_matcher"] + Flatten(MatchingOptions(c, db))
  }

  /** The sequential matcher is chosen exactly for "sequential"; every other value
      ("vocab_tree" included) gives the exhaustive one, and both get the same options. */
  lemma MatchingChoice(c: Setup, db: string)
    ensures var a := MatchingArgv(c, db);
      && (a[1] == "sequential_matcher" <==> c.params.matcherType == "sequential")
      && (a[1] == "exhaustive_matcher" <==> c.params.matcherType != "sequential")
      && Pairs(a[2..]) == MatchingOptions(c, db)
  {
    var a := MatchingArgv(c, db);
    assert a[2..] == Flatten(MatchingOptions(c, db));
    PairsFlatten(MatchingOptions(c, db));
  }

  function MapperOptions(c: Setup, db: string, images: string, sparse: string): seq<(string, string)> {
    var p := c.params;
    [ ("--database_path", db),
      ("--image_path", images),
      ("--output_path", sparse) ]
    + (if p.useGlomap then [] else
      [ ("--Mapper.num_threads", NatToString(c.numThreads)),
        ("--Mapper.min_model_size", IntToString(p.minModelSize)),
        ("--Mapper.multiple_models", Flag01(p.multipleModels)),
        ("--Mapper.ba_refine_focal_length", Flag01(p.baRefineFocalLength)),
        ("--Mapper.ba_refine_principal_point", Flag01(p.baRefinePrincipalPoint)),
        ("--Mapper.ba_refine_extra_params", Flag01(p.baRefineExtraParams)),
        ("--Mapper.min_num_matches", IntToString(p.minNumMatches)) ])
  }

  /** `glomap mapper ...` or `colmap mapper ...` */
  function MapperArgv(c: Setup, db: string, images: string, sparse: string): (r: seq<string>)
    ensures |r| >= 2 && r[0] == (if c.params.useGlomap then c.glomapBin else c.colmapBin) && r[1] == "mapper"
  {
    [if c.params.useGlomap then c.glomapBin else c.colmapBin, "mapper"]
      + Flatten(MapperOptions(c, db, images, sparse))
  }

  /** GLOMAP is given the three paths and nothing else; both mappers read the database
      and the images and write to `sparse`. */
  lemma MapperFlagsDistinct(c: Setup, db: string, images: string, sparse: string)
    ensures DistinctFlags(MapperOptions(c, db, images, sparse))
  {
  }

  lemma MapperReadsBack(c: Setup, db: string, images: string, sparse: string)
    ensures var a := MapperArgv(c, db, images, sparse)[2..];
      && (c.params.useGlomap ==> Flags(Pairs(a)) == ["--database_path", "--image_path", "--output_path"])
      && OptionValue(a, "--database_path") == Some(db)
      && OptionValue(a, "--image_path") == Some(images)
      && OptionValue(a, "--output_path") == Some(sparse)
      && (!c.params.useGlomap ==> IntOption(OptionValue(a, "--Mapper.min_num_matches")) == Some(c.params.minNumMatches))
  {
    var opts := MapperOptions(c, db, images, sparse);
    assert MapperArgv(c, db, images, sparse)[2..] == Flatten(opts);
    PairsFlatten(opts);
    MapperFlagsDistinct(c, db, images, sparse);
    ReadsBack(opts, 0); ReadsBack(opts, 1); ReadsBack(opts, 2);
    if c.params.useGlomap {
      assert opts == [opts[0], opts[1], opts[2]];
      assert Flags(opts) == [opts[0].0, opts[1].0, opts[2].0];
    } else {
      ReadsBack(opts, 9);
      ParseIntToString(c.params.minNumMatches);
    }
  }

  /** `colmap image_undistorter ...`: it always reads the model in `sparse/0`. */
  function UndistorterArgv(c: Setup, images: string, sparse: string, output: string): (r: seq<string>)
    ensures |r| == 12 && r[0] == c.colmapBin && r[1] == "image_undistorter"
  {
    [c.colmapBin, "image_undistorter"] + Flatten(UndistorterOptions(c, images, Paths.PathJoin(sparse, "0"), output))
  }

  function UndistorterOptions(c: Setup, images: string, model: string, output: string): seq<(string, string)> {
    [ ("--image_path", images),
      ("--input_path", model),
      ("--output_path", output),
      ("--output_type", "COLMAP"),
      ("--max_image_size", IntToString(c.params.maxImageSize)) ]
  }

  lemma UndistorterFlagsDistinct(c: Setup, images: string, model: string, output: string)
    ensures DistinctFlags(UndistorterOptions(c, images, model, output))
  {
  }

  lemma UndistorterReadsBack(c: Setup, images: string, sparse: string, output: string)
    ensures var a := UndistorterArgv(c, images, sparse, output)[2..];
      && OptionValue(a, "--image_path") == Some(images)
      && OptionValue(a, "--input_path") == Some(Paths.PathJoin(sparse, "0"))
      && OptionValue(a, "--output_path") == Some(output)
      && OptionValue(a, "--output_type") == Some("COLMAP")
  {
    var opts := UndistorterOptions(c, images, Paths.PathJoin(sparse, "0"), output);
    assert UndistorterArgv(c, images, sparse, output)[2..] == Flatten(opts);
    UndistorterFlagsDistinct(c, images, Paths.PathJoin(sparse, "0"), output);
    ReadsBack(opts, 0); ReadsBack(opts, 1); ReadsBack(opts, 2); ReadsBack(opts, 3);
  }

  /** The descriptor written to `brush_config.json`. */
  datatype BrushConfig = BrushConfig(
    datasetType: string, imagesPath: string, sparsePath: string, createdWith: string,
    architecture: string, optimizedFor: string, parameters: Params)

  /** `create_brush_config(project_dir, images_dir, sparse_dir)` */
  function BrushConfigFor(c: Setup, projectDir: string, images: string, sparse: string): BrushConfig {
    var imagesPath := if c.params.undistortImages then Paths.PathJoin(Paths.PathJoin(projectDir, "dense"), "images") else images;
    var sparsePath := if c.params.undistortImages then Paths.PathJoin(Paths.PathJoin(projectDir, "dense"), "sparse") else Paths.PathJoin(sparse, "0");
    BrushConfig("colmap", imagesPath, sparsePath, "CorbeauSplat macOS", c.machine,
                if c.isSilicon then "Apple Silicon" else "x86_64", c.params)
  }

  /** The descriptor points where the reconstruction is: with undistortion, inside the
      undistorter's output directory; without, at the images and at the model the
      undistorter reads. */
  lemma BrushConfigPointsAtModel(c: Setup)
    ensures var d := BrushConfigFor(c, ProjectDir(c), ImagesDir(c), SparseDir(c));
      var u := UndistorterArgv(c, ImagesDir(c), SparseDir(c), DenseDir(c))[2..];
      && d.datasetType == "colmap"
      && (c.params.undistortImages ==>
            && OptionValue(u, "--output_path") == Some(DenseDir(c))
            && d.imagesPath == Paths.PathJoin(DenseDir(c), "images")
            && d.sparsePath == Paths.PathJoin(DenseDir(c), "sparse"))
      && (!c.params.undistortImages ==>
            && d.imagesPath == ImagesDir(c)
            && Some(d.sparsePath) == OptionValue(u, "--input_path"))
  {
    UndistorterReadsBack(c, ImagesDir(c), SparseDir(c), DenseDir(c));
  }

  predicate PrefixChar(ch: char) {
    IsAlnum(ch) || ch == '_' || ch == '-'
  }

  /** The frame prefix of a video: the characters of its stem that are letters, digits,
      '_' or '-', in order. */
  function VideoPrefix(stem: string): (r: string)
    ensures |r| <= |stem|
    ensures forall i :: 0 <= i < |r| ==> PrefixChar(r[i])
    ensures forall ch :: ch in r ==> ch in stem
  {
    if stem == [] then []
    else (if PrefixChar(stem[0]) then [stem[0]] else []) + VideoPrefix(stem[1..])
  }

  /** A stem made only of allowed characters is its own prefix, so the filter is idempotent. */
  lemma {:induction false} VideoPrefixKeepsClean(stem: string)
    requires forall i :: 0 <= i < |stem| ==> PrefixChar(stem[i])
    ensures VideoPrefix(stem) == stem
  {
    if stem != [] {
      VideoPrefixKeepsClean(stem[1..]);
    }
  }

  lemma VideoPrefixIdempotent(stem: string)
    ensures VideoPrefix(VideoPrefix(stem)) == VideoPrefix(stem)
  {
    VideoPrefixKeepsClean(VideoPrefix(stem));
  }

  /** One character is kept exactly when it is allowed. */
  lemma VideoPrefixChar(ch: char)
    ensures VideoPrefix([ch]) == if PrefixChar(ch) then [ch] else []
  {
    assert [ch][1..] == [];
  }

  /** The filter works character by character: the prefix of a concatenation is the
      concatenation of the prefixes, so every allowed character is kept, in order. */
  lemma {:induction false} VideoPrefixAppend(a: string, b: string)
    ensures VideoPrefix(a + b) == VideoPrefix(a) + VideoPrefix(b)
  {
    if a == [] {
      assert a + b == b;
    } else {
      assert (a + b)[0] == a[0] && (a + b)[1..] == a[1..] + b;
      VideoPrefixAppend(a[1..], b);
    }
  }

  /** Every allowed character occurs in the prefix as often as in the stem, and no
      other character occurs in it. */
  lemma {:induction false} VideoPrefixCounts(stem: string)
    ensures forall ch :: multiset(VideoPrefix(stem))[ch] == if PrefixChar(ch) then multiset(stem)[ch] else 0
  {
    if stem != [] {
      VideoPrefixCounts(stem[1..]);
      assert stem == [stem[0]] + stem[1..];
      assert multiset(stem) == multiset([stem[0]]) + multiset(stem[1..]);
    }
  }

  /** The ffmpeg output pattern inside `images`. */
  function OutputPattern(images: string, prefix: string): string {
    Paths.PathJoin(images, if prefix != "" then prefix + "_%04d.jpg" else "frame_%04d.jpg")
  }

  /** `extract_frames_from_video`'s command line. */
  function FfmpegArgv(c: Setup, video: string, images: string, prefix: string): (r: seq<string>)
    ensures |r| == if c.isSilicon then 10 else 8
  {
    var head := if c.isSilicon then [c.ffmpegBin, "-hwaccel", "videotoolbox"] else [c.ffmpegBin];
    head + ["-i", video, "-vf", "fps=" + c.fps, "-qscale:v", "2", OutputPattern(images, prefix)]
  }

  /** The binary comes first and the output pattern last; hardware decoding is asked for
      exactly on Apple Silicon; in between, the input, the frame rate and the quality. */
  lemma FfmpegArgvShape(c: Setup, video: string, images: string, prefix: string)
    ensures var r := FfmpegArgv(c, video, images, prefix);
      && r[0] == c.ffmpegBin && (c.isSilicon <==> r[1] == "-hwaccel")
      && r[|r| - 7..] == ["-i", video, "-vf", "fps=" + c.fps, "-qscale:v", "2", OutputPattern(images, prefix)]
  {
    var head := if c.isSilicon then [c.ffmpegBin, "-hwaccel", "videotoolbox"] else [c.ffmpegBin];
    var tail := ["-i", video, "-vf", "fps=" + c.fps, "-qscale:v", "2", OutputPattern(images, prefix)];
    assert FfmpegArgv(c, video, images, prefix) == head + tail;
    assert (head + tail)[|head|..] == tail;
    if !c.isSilicon {
      assert |(head + tail)[1]| == 2;
    }
  }

  predicate IsMask(name: string) {
    EndsWith(Lower(name), ".mask.png")
  }

  /** The files of one `rglob(pattern)` over `tree` that are regular files and not masks. */
  function Matches(tree: seq<string>, fs: FileSystem, ext: string): (r: seq<string>)
    ensures forall f :: f in r <==> f in tree && Kept(fs, f, ext)
  {
    if tree == [] then []
    else (if Kept(fs, tree[0], ext) then [tree[0]] else []) + Matches(tree[1..], fs, ext)
  }

  /** A path `rglob("*" + ext)` yields and the search keeps. */
  predicate Kept(fs: FileSystem, f: string, ext: string) {
    IsFile(fs, f) && EndsWith(Paths.Name(f), ext) && !IsMask(Paths.Name(f))
  }

  /** The images to copy: every "*.jpg", then every "*.jpeg", then every "*.png" under the
      input, in walk order (`tree`), regular files only, "*.mask.png" (any case) excluded. */
  function SelectImages(tree: seq<string>, fs: FileSystem): seq<string> {
    Matches(tree, fs, ".jpg") + Matches(tree, fs, ".jpeg") + Matches(tree, fs, ".png")
  }

  predicate ImageName(name: string) {
    EndsWith(name, ".jpg") || EndsWith(name, ".jpeg") || EndsWith(name, ".png")
  }

  lemma SelectImagesMembers(tree: seq<string>, fs: FileSystem, f: string)
    ensures f in SelectImages(tree, fs) <==>
      f in tree && IsFile(fs, f) && ImageName(Paths.Name(f)) && !IsMask(Paths.Name(f))
  {
  }

  /** The name of a path's parent directory (`p.parent.name`). */
  function ParentName(p: string): string {
    var parts := Paths.Parts(p);
    if |parts| >= 2 then parts[|parts| - 2] else ""
  }

  /** Where a source image is copied: `images/<name>`, or `images/<parent>_<name>` when
      `images/<name>` already exists. */
  function TargetName(images: string, f: string, fs: FileSystem): (r: string)
    ensures Paths.PathJoin(images, Paths.Name(f)) !in fs ==> r == Paths.PathJoin(images, Paths.Name(f))
    ensures Paths.PathJoin(images, Paths.Name(f)) in fs ==> r == Paths.PathJoin(images, ParentName(f) + "_" + Paths.Name(f))
  {
    var t := Paths.PathJoin(images, Paths.Name(f));
    if t in fs then Paths.PathJoin(images, ParentName(f) + "_" + Paths.Name(f)) else t
  }

  /** The entries `delete_project_content` sends to the trash: all but "images". */
  function Trashable(names: seq<string>): (r: seq<string>)
    ensures "images" !in r
    ensures forall n :: n in r <==> n in names && n != "images"
  {
    if names == [] then []
    else (if names[0] == "images" then [] else [names[0]]) + Trashable(names[1..])
  }

  /** The names of `names` that are not in `refused`, in order. */
  function Unrefused(names: seq<string>, refused: set<string>): (r: seq<string>)
    ensures forall n :: n in r <==> n in names && n !in refused
  {
    if names == [] then []
    else (if names[0] in refused then [] else [names[0]]) + Unrefused(names[1..], refused)
  }

  lemma {:induction false} UnrefusedAppend(names: seq<string>, n: string, refused: set<string>)
    ensures Unrefused(names + [n], refused) == Unrefused(names, refused) + (if n in refused then [] else [n])
  {
    if names == [] {
      assert names + [n] == [n];
      assert [n][1..] == [];
    } else {
      assert (names + [n])[0] == names[0] && (names + [n])[1..] == names[1..] + [n];
      UnrefusedAppend(names[1..], n, refused);
    }
  }

  /** `str(e)` of the `NotADirectoryError` that `iterdir()` raises on a file. */
  function NotADirectoryText(path: string): string {
    "[Errno 20] Not a directory: '" + path + "'"
  }

  /** `delete_project_content(target)`: for a missing target (False, message); for a
      file, `iterdir()` raises and the error text is returned with False; else each
      entry of the listing except "images" is sent to the trash in order, an entry the
      trash refuses (`refused`) is skipped, and the result is True. `trashed` lists what
      was trashed. */
  method DeleteProjectContent(fs: FileSystem, target: string, listing: seq<string>, refused: set<string>)
    returns (ok: bool, message: string, trashed: seq<string>)
    ensures ok <==> target in fs && !fs[target].isFile
    ensures target !in fs ==> message == "Le dossier n'existe pas" && trashed == []
    ensures IsFile(fs, target) ==> message == NotADirectoryText(target) && trashed == []
    ensures ok ==> message == "Contenu mis \U{e0} la corbeille"
    ensures ok ==> trashed == Unrefused(Trashable(listing), refused)
    ensures ok ==> forall n :: n in trashed <==> n in listing && n != "images" && n !in refused
    ensures "images" !in trashed
  {
    if target !in fs {
      return false, "Le dossier n'existe pas", [];
    }
    if fs[target].isFile {
      return false, NotADirectoryText(target), [];
    }
    trashed := [];
    var i := 0;
    while i < |listing|
      invariant 0 <= i <= |listing|
      invariant trashed == Unrefused(Trashable(listing[..i]), refused)
    {
      assert listing[..i + 1] == listing[..i] + [listing[i]];
      TrashableAppend(listing[..i], listing[i]);
      if listing[i] != "images" {
        UnrefusedAppend(Trashable(listing[..i]), listing[i], refused);
        if listing[i] !in refused {
          trashed := trashed + [listing[i]];
        }
      } else {
        assert Trashable(listing[..i + 1]) == Trashable(listing[..i]);
      }
      i := i + 1;
    }
    assert listing[..i] == listing;
    return true, "Contenu mis \U{e0} la corbeille", trashed;
  }

  lemma {:induction false} TrashableAppend(names: seq<string>, n: string)
    ensures Trashable(names + [n]) == Trashable(names) + (if n == "images" then [] else [n])
  {
    if names != [] {
      assert (names + [n])[1..] == names[1..] + [n];
      TrashableAppend(names[1..], n);
    } else {
      assert Trashable([n]) == (if n == "images" then [] else [n]) + Trashable([]);
    }
  }
}
