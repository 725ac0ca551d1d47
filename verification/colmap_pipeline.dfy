/** `ColmapEngine.run` and its stages (app/core/engine.py) as functions of the engine's
    state: each stage takes the file system, the number of cancellation polls and of
    process launches so far, and returns its result, the new state and the events it
    produced, in order. The oracles fix what the outside world answers. The lemmas say
    that nothing is done once a poll has read true, that the processes are launched in
    the pipeline's order, that progress only goes up and reaches 100 exactly on success,
    and that a run nobody cancels, whose tools all succeed, creates the dataset. */
module ColmapPipeline {
  import opened Text
  import opened Host
  import Paths
  import opened Colmap

  /** What the pipeline does that can be observed, in order. `Launched` is an attempt to
      start a process (made also when the binary turns out to be missing). */
  datatype Event =
    | Polled(cancelled: bool)
    | Launched(argv: seq<string>)
    | Copied(src: string, dst: string)
    | MovedToSources
    | Upscaled(name: string)
    | Progress(value: int)
    | WroteConfig(path: string, config: BrushConfig)

  /** The answers of the world: the cancellation flag, the outcome of the k-th process
      started, the files under the input in walk order, whether the input resolves to
      the images directory, whether the upscaler is installed and its model loads, and
      the files found in `images_src`. */
  datatype Oracles = Oracles(
    cancel: Schedule,
    outcome: nat -> ProcOutcome,
    tree: seq<string>,
    inputIsImagesDir: bool,
    upscaleInstalled: bool,
    modelLoads: bool,
    sourceListing: seq<string>)

  datatype St = St(fs: FileSystem, polls: nat, launches: nat)

  /** A stage's result, the state after it, and what it did. */
  datatype Out<R> = Out(r: R, st: St, log: seq<Event>)

  /** The second element of the pair `run` returns; the first is True exactly for
      `DatasetCreated`. */
  datatype RunMessage =
    | InputNotFound(path: string)
    | VideoNotFound(path: string)
    | PrepareFailed
    | UpscaleFailed
    | ExtractionFailed
    | MatchingFailed
    | ReconstructionFailed
    | UndistortionFailed
    | UserCancelled
    | Error(text: string)
    | DatasetCreated(projectDir: string)

  function MessageText(m: RunMessage): string {
    match m
    case InputNotFound(p) => "Entr\U{e9}e introuvable: " + p
    case VideoNotFound(p) => "Vid\U{e9}o introuvable: " + p
    case PrepareFailed => "Echec preparation images"
    case UpscaleFailed => "Echec Upscale"
    case ExtractionFailed => "\U{c9}chec extraction features"
    case MatchingFailed => "\U{c9}chec matching"
    case ReconstructionFailed => "\U{c9}chec reconstruction"
    case UndistortionFailed => "Echec undistortion"
    case UserCancelled => "Arrete par l'utilisateur"
    case Error(t) => t
    case DatasetCreated(p) => "Dataset cree: " + p
  }

  /** `tr` is not imported in engine.py, so each `tr("USER_CANCELLED")` raises this. */
  const NameErrorText := "name 'tr' is not defined"

  // ---------------------------------------------------------------- the stages

  /** `self.is_cancelled()` */
  function PollF(o: Oracles, s: St): Out<bool> {
    var c := CancelledAt(o.cancel, s.polls);
    Out(c, s.(polls := s.polls + 1), [Polled(c)])
  }

  /** The loop over a process's output: one poll per line; true when a poll read true
      (the process is then terminated). */
  function LinesF(o: Oracles, s: St, n: nat): Out<bool>
    decreases n
  {
    if n == 0 then Out(false, s, [])
    else
      var p := PollF(o, s);
      if p.r then p
      else
        var q := LinesF(o, p.st, n - 1);
        Out(q.r, q.st, p.log + q.log)
  }

  /** `run_command(cmd)` (and `extract_frames_from_video`, whose None and False results
      the caller treats alike): True only when no poll read true and the exit code is 0. */
  function CommandF(o: Oracles, s: St, argv: seq<string>): Out<bool> {
    var s1 := s.(launches := s.launches + 1);
    match o.outcome(s.launches)
    case NotFound => Out(false, s1, [Launched(argv)])
    case Ran(lines, exit) =>
      var a := LinesF(o, s1, |lines|);
      if a.r then Out(false, a.st, [Launched(argv)] + a.log)
      else
        var b := PollF(o, a.st);
        Out(!b.r && exit == 0, b.st, [Launched(argv)] + a.log + b.log)
  }

  /** `Path(segment.strip())` as text. */
  function VideoPath(segment: string): string {
    Paths.PathStr(Strip(segment))
  }

  /** `extract_frames_from_video(video, images_dir, prefix=<prefix of the stem>)` */
  function ExtractArgv(c: Setup, video: string): seq<string> {
    FfmpegArgv(c, video, ImagesDir(c), VideoPrefix(Paths.Stem(video)))
  }

  /** A video named in the input and the extraction that would be run for it. */
  datatype Job = Job(path: string, argv: seq<string>)

  function JobFor(c: Setup, segment: string): Job {
    var v := VideoPath(segment);
    Job(v, ExtractArgv(c, v))
  }

  function VideoJobs(c: Setup, segments: seq<string>): (r: seq<Job>)
    ensures |r| == |segments|
    ensures forall i :: 0 <= i < |r| ==> r[i] == JobFor(c, segments[i])
  {
    seq(|segments|, i requires 0 <= i < |segments| => JobFor(c, segments[i]))
  }

  /** The loop over the "|"-separated videos: a poll, then a missing video is skipped
      and an existing one extracted; the first failed extraction stops the loop. */
  function VideosF(o: Oracles, s: St, jobs: seq<Job>): Out<bool>
    decreases |jobs|
  {
    if jobs == [] then Out(true, s, [])
    else
      var p := PollF(o, s);
      if p.r then Out(false, p.st, p.log)
      else if jobs[0].path !in p.st.fs then
        var q := VideosF(o, p.st, jobs[1..]);
        Out(q.r, q.st, p.log + q.log)
      else
        var e := CommandF(o, p.st, jobs[0].argv);
        if !e.r then Out(false, e.st, p.log + e.log)
        else
          var q := VideosF(o, e.st, jobs[1..]);
          Out(q.r, q.st, p.log + e.log + q.log)
  }

  /** The extractions the video loop launches when nothing fails: those of the videos
      that exist. */
  function VideoPlan(fs: FileSystem, jobs: seq<Job>): seq<seq<string>>
    decreases |jobs|
  {
    if jobs == [] then []
    else (if jobs[0].path in fs then [jobs[0].argv] else []) + VideoPlan(fs, jobs[1..])
  }

  /** `5 + int((i / total) * 15)`, the progress reported while copying image i. */
  function CopyProgress(i: nat, total: nat): (r: int)
    requires i < total
    ensures 5 <= r <= 19
  {
    DivBelow(15 * i, total, 15);
    5 + (15 * i) / total
  }

  /** The progress reported after copying image i: every tenth image and the last one. */
  function CopyReport(i: nat, total: nat): (r: seq<Event>)
    requires i < total
    ensures |r| <= 1 && forall e :: e in r ==> e == Progress(CopyProgress(i, total))
    ensures r != [] <==> i % 10 == 0 || i == total - 1
  {
    if i % 10 == 0 || i == total - 1 then [Progress(CopyProgress(i, total))] else []
  }

  /** Where the copy loop puts a source, given the files that exist at that moment. */
  type Placement = (string, FileSystem) -> string

  function CopyTarget(c: Setup): Placement {
    (f: string, fs: FileSystem) => TargetName(ImagesDir(c), f, fs)
  }

  /** The copy loop from image `i` on: a poll, the copy (to `<parent>_<name>` when the
      name is taken; `copy2` keeps the source's metadata), and a progress report every
      tenth image and at the last one. A source that has disappeared makes `copy2`
      raise, which the step turns into False. */
  function CopyF(o: Oracles, place: Placement, s: St, files: seq<string>, i: nat): Out<bool>
    decreases |files| - i
  {
    if i >= |files| then Out(true, s, [])
    else
      var p := PollF(o, s);
      if p.r then Out(false, p.st, p.log)
      else
        var src := files[i];
        if src !in p.st.fs then Out(false, p.st, p.log)
        else
          var dst := place(src, p.st.fs);
          var s2 := p.st.(fs := p.st.fs[dst := p.st.fs[src]]);
          var ev := [Copied(src, dst)] + CopyReport(i, |files|);
          var q := CopyF(o, place, s2, files, i + 1);
          Out(q.r, q.st, p.log + ev + q.log)
  }

  /** What image preparation works from, fixed by the setup: whether the input is a
      video list, the input as text, the extraction of each listed video, and where a
      copied image goes. */
  datatype Inputs = Inputs(video: bool, input: string, jobs: seq<Job>, place: Placement)

  function InputsOf(c: Setup): (n: Inputs)
    ensures n.video <==> c.inputType == "video"
    ensures |n.jobs| == |Split(InputText(c), '|')|
  {
    Inputs(c.inputType == "video", InputText(c), VideoJobs(c, Split(InputText(c), '|')), CopyTarget(c))
  }

  /** `_prepare_images(images_dir)` */
  function PrepareF(o: Oracles, n: Inputs, s: St): Out<bool> {
    if n.video then
      var p := PollF(o, s);
      if p.r then Out(false, p.st, p.log)
      else
        var q := VideosF(o, p.st, n.jobs);
        Out(q.r, q.st, p.log + q.log)
    else if o.inputIsImagesDir then Out(true, s, [])
    else
      var files := SelectImages(o.tree, s.fs);
      if |files| == 0 then Out(true, s, [])
      else CopyF(o, n.place, s, files, 0)
  }

  function PreparePlan(n: Inputs, fs: FileSystem): seq<seq<string>> {
    if n.video then VideoPlan(fs, n.jobs) else []
  }

  /** The files of `images_src` the upscaler takes: suffix .jpg, .png or .jpeg in any case. */
  function UpscaleInputs(names: seq<string>): (r: seq<string>)
    ensures forall n :: n in r <==> n in names && Lower(Paths.Suffix(n)) in [".jpg", ".png", ".jpeg"]
  {
    if names == [] then []
    else
      var head: seq<string> := if Lower(Paths.Suffix(names[0])) in [".jpg", ".png", ".jpeg"] then [names[0]] else [];
      head + UpscaleInputs(names[1..])
  }

  function UpscaleLoopF(o: Oracles, s: St, files: seq<string>, i: nat): Out<bool>
    decreases |files| - i
  {
    if i >= |files| then Out(true, s, [])
    else
      var p := PollF(o, s);
      if p.r then Out(false, p.st, p.log)
      else
        var q := UpscaleLoopF(o, p.st, files, i + 1);
        Out(q.r, q.st, p.log + [Upscaled(files[i])] + q.log)
  }

  /** The images the upscaler works through: those of `images_src`, sorted. */
  function UpscaleQueue(o: Oracles): seq<string> {
    Sort(UpscaleInputs(o.sourceListing))
  }

  /** `_run_upscale` as a decision over the oracles, with `sources` the `images_src`
      directory: a missing upscaler is not an error, an existing `images_src` means the
      work was done before, a model that does not load is a failure (the images have
      been moved by then). */
  function UpscaleF(o: Oracles, sources: string, queue: seq<string>, s: St): Out<bool> {
    var p := PollF(o, s);
    if p.r then Out(false, p.st, p.log)
    else if !o.upscaleInstalled then Out(true, p.st, p.log)
    else if sources in p.st.fs then Out(true, p.st, p.log)
    else
      var s2 := p.st.(fs := MakeDir(p.st.fs, sources));
      if !o.modelLoads then Out(false, s2, p.log + [MovedToSources])
      else
        var q := UpscaleLoopF(o, s2, queue, 0);
        Out(q.r, q.st, p.log + [MovedToSources] + q.log)
  }

  /** The `except Exception` handler of `run`, reached here only through the NameError
      of `tr`: it polls once more. */
  function HandlerF(o: Oracles, s: St): Out<RunMessage> {
    var p := PollF(o, s);
    Out(if p.r then UserCancelled else Error(NameErrorText), p.st, p.log)
  }

  /** One of the extraction, matching and mapping stages: None to go on, or the message
      `run` returns. */
  function StageF(o: Oracles, s: St, argv: seq<string>, fail: RunMessage): Out<Option<RunMessage>> {
    var p := PollF(o, s);
    if p.r then
      var h := HandlerF(o, p.st);
      Out(Some(h.r), h.st, p.log + h.log)
    else
      var e := CommandF(o, p.st, argv);
      if e.r then Out(None, e.st, p.log + e.log)
      else
        var q := PollF(o, e.st);
        if q.r then
          var h := HandlerF(o, q.st);
          Out(Some(h.r), h.st, p.log + e.log + q.log + h.log)
        else Out(Some(fail), q.st, p.log + e.log + q.log)
  }

  /** The undistortion stage, which first creates `dense/`: its failure path names the
      cancellation itself. */
  function UndistortF(o: Oracles, dense: string, argv: seq<string>, s: St): Out<Option<RunMessage>> {
    var p := PollF(o, s);
    if p.r then
      var h := HandlerF(o, p.st);
      Out(Some(h.r), h.st, p.log + h.log)
    else
      var e := CommandF(o, p.st.(fs := MakeDir(p.st.fs, dense)), argv);
      if e.r then Out(None, e.st, p.log + e.log)
      else
        var q := PollF(o, e.st);
        Out(Some(if q.r then UserCancelled else UndistortionFailed), q.st, p.log + e.log + q.log)
  }

  /** What the reconstruction runs and writes, fixed by the setup. */
  datatype Stages = Stages(
    extract: seq<string>,
    matching: seq<string>,
    mapping: seq<string>,
    undistort: Option<seq<string>>,
    sparse: string,
    dense: string,
    config: string,
    descriptor: BrushConfig,
    project: string)

  function StagesOf(c: Setup): (k: Stages)
    ensures k.undistort.Some? <==> c.params.undistortImages
  {
    Stages(
      FeatureExtractionArgv(c, DatabasePath(c), ImagesDir(c)),
      MatchingArgv(c, DatabasePath(c)),
      MapperArgv(c, DatabasePath(c), ImagesDir(c), SparseDir(c)),
      if c.params.undistortImages then Some(UndistorterArgv(c, ImagesDir(c), SparseDir(c), DenseDir(c))) else None,
      SparseDir(c),
      DenseDir(c),
      ConfigPath(c),
      BrushConfigFor(c, ProjectDir(c), ImagesDir(c), SparseDir(c)),
      ProjectDir(c))
  }

  /** From the optional undistortion to the end: progress 95, a last poll, the Brush
      descriptor and progress 100. */
  function FinishF(o: Oracles, k: Stages, s: St): Out<RunMessage> {
    FinishAfter(o, k, UndistortStep(o, k, s))
  }

  /** The undistortion, when the setup asks for it. */
  function UndistortStep(o: Oracles, k: Stages, s: St): Out<Option<RunMessage>> {
    if k.undistort.Some? then UndistortF(o, k.dense, k.undistort.value, s) else Out(None, s, [])
  }

  /** The finish once the undistortion step `u` is done. */
  function FinishAfter(o: Oracles, k: Stages, u: Out<Option<RunMessage>>): Out<RunMessage> {
    if u.r.Some? then Out(u.r.value, u.st, u.log)
    else
      var p := PollF(o, u.st);
      if p.r then Out(UserCancelled, p.st, u.log + [Progress(95)] + p.log)
      else Out(DatasetCreated(k.project), p.st,
               u.log + [Progress(95)] + p.log + [WroteConfig(k.config, k.descriptor), Progress(100)])
  }

  function MapPhaseF(o: Oracles, k: Stages, s: St): Out<RunMessage> {
    var m := StageF(o, s, k.mapping, ReconstructionFailed);
    if m.r.Some? then Out(m.r.value, m.st, m.log)
    else
      var f := FinishF(o, k, m.st);
      Out(f.r, f.st, m.log + [Progress(90)] + f.log)
  }

  function MatchPhaseF(o: Oracles, k: Stages, s: St): Out<RunMessage> {
    var b := StageF(o, s, k.matching, MatchingFailed);
    if b.r.Some? then Out(b.r.value, b.st, b.log)
    else
      var n := MapPhaseF(o, k, b.st);
      Out(n.r, n.st, b.log + [Progress(75)] + n.log)
  }

  /** From `sparse/` onwards: progress 25, then extraction, matching, mapping and the rest. */
  function ReconstructF(o: Oracles, k: Stages, s: St): Out<RunMessage> {
    var s0 := s.(fs := MakeDir(s.fs, k.sparse));
    var a := StageF(o, s0, k.extract, ExtractionFailed);
    if a.r.Some? then Out(a.r.value, a.st, [Progress(25)] + a.log)
    else
      var n := MatchPhaseF(o, k, a.st);
      Out(n.r, n.st, [Progress(25)] + a.log + [Progress(50)] + n.log)
  }

  /** Everything `run` derives from its setup before it starts. */
  datatype Setting = Setting(
    prep: Inputs,
    project: string,
    images: string,
    checkpoints: string,
    upscale: bool,
    sources: string,
    stages: Stages)

  function SettingOf(c: Setup): Setting {
    Setting(InputsOf(c), ProjectDir(c), ImagesDir(c), CheckpointsDir(c),
            c.upscaleActive, ImagesSourceDir(c), StagesOf(c))
  }

  /** The project directory with `images/` and `checkpoints/`. */
  function LayoutFs(t: Setting, fs: FileSystem): (r: FileSystem)
    ensures r.Keys == fs.Keys + {t.project, t.images, t.checkpoints}
    ensures forall q :: q in fs ==> r[q] == fs[q]
  {
    MakeDir(MakeDir(MakeDir(fs, t.project), t.images), t.checkpoints)
  }

  /** `run()`: the project layout, the input check, image preparation, the optional
      upscale, then the reconstruction. */
  function RunF(o: Oracles, c: Setup, s: St): Out<RunMessage> {
    RunWith(o, SettingOf(c), s)
  }

  function RunWith(o: Oracles, t: Setting, s: St): Out<RunMessage> {
    var s0 := s.(fs := LayoutFs(t, s.fs));
    var input := t.prep.input;
    if !t.prep.video && input !in s0.fs then Out(InputNotFound(input), s0, [])
    else if t.prep.video && '|' !in input && input !in s0.fs then Out(VideoNotFound(input), s0, [])
    else
      var prep := PrepareF(o, t.prep, s0);
      var up := UpscaleStep(o, t, prep.st);
      Sequenced(prep, up, ReconstructF(o, t.stages, up.st))
  }

  /** The upscale when it is switched on; otherwise nothing happens. */
  function UpscaleStep(o: Oracles, t: Setting, s: St): Out<bool> {
    if t.upscale then UpscaleF(o, t.sources, UpscaleQueue(o), s) else Out(true, s, [])
  }

  /** Preparation, upscale and reconstruction one after the other: a later part only
      happens when the earlier ones succeeded. */
  function Sequenced(prep: Out<bool>, up: Out<bool>, rec: Out<RunMessage>): Out<RunMessage> {
    if !prep.r then Out(PrepareFailed, prep.st, prep.log)
    else if !up.r then Out(UpscaleFailed, up.st, prep.log + up.log)
    else Out(rec.r, rec.st, prep.log + up.log + rec.log)
  }

  /** The processes a run launches when nothing fails. */
  function FinishPlan(k: Stages): seq<seq<string>> { if k.undistort.Some? then [k.undistort.value] else [] }
  function MapPlan(k: Stages): seq<seq<string>> { [k.mapping] + FinishPlan(k) }
  function MatchPlan(k: Stages): seq<seq<string>> { [k.matching] + MapPlan(k) }
  function ReconstructPlan(k: Stages): seq<seq<string>> { [k.extract] + MatchPlan(k) }
  function RunPlan(t: Setting, fs: FileSystem): seq<seq<string>> {
    PreparePlan(t.prep, LayoutFs(t, fs)) + ReconstructPlan(t.stages)
  }

  const Milestones: seq<int> := [25, 50, 75, 90, 95, 100]

  // ---------------------------------------------------------------- reading the log

  predicate Seen(log: seq<Event>) { Polled(true) in log }

  /** Nothing but polls. */
  predicate NoActions(log: seq<Event>) {
    log == [] || (log[0].Polled? && NoActions(log[1..]))
  }

  /** Once a poll has read true, only polls follow. */
  predicate CancelClean(log: seq<Event>) {
    log == [] || if log[0] == Polled(true) then NoActions(log[1..]) else CancelClean(log[1..])
  }

  function Launches(log: seq<Event>): seq<seq<string>> {
    if log == [] then [] else (if log[0].Launched? then [log[0].argv] else []) + Launches(log[1..])
  }

  function Progresses(log: seq<Event>): seq<int> {
    if log == [] then [] else (if log[0].Progress? then [log[0].value] else []) + Progresses(log[1..])
  }

  /** The sources of the copies made, in order. */
  function Copies(log: seq<Event>): seq<string> {
    if log == [] then [] else (if log[0].Copied? then [log[0].src] else []) + Copies(log[1..])
  }

  /** The images handed to the upscaler, in order. */
  function Upscales(log: seq<Event>): seq<string> {
    if log == [] then [] else (if log[0].Upscaled? then [log[0].name] else []) + Upscales(log[1..])
  }

  predicate IsPrefix<T(==)>(a: seq<T>, b: seq<T>) { |a| <= |b| && b[..|a|] == a }

  predicate NonDecreasing(s: seq<int>) { forall i, j :: 0 <= i < j < |s| ==> s[i] <= s[j] }

  /** The progress values from 25 up, in order: those the reconstruction reports. */
  function AtLeast25(s: seq<int>): seq<int> {
    if s == [] then [] else (if s[0] >= 25 then [s[0]] else []) + AtLeast25(s[1..])
  }

  predicate NoCancel(o: Oracles) { o.cancel.None? }

  ghost predicate AllSucceed(o: Oracles) {
    forall k: nat :: o.outcome(k).Ran? && o.outcome(k).exit == 0
  }

  /** What every stage keeps: the counters only grow, nothing is done after a poll read
      true, and a poll that read true means every later poll reads true as well. */
  predicate Sound(o: Oracles, s: St, t: St, log: seq<Event>) {
    && s.polls <= t.polls && s.launches <= t.launches
    && CancelClean(log)
    && (Seen(log) ==> CancelledAt(o.cancel, t.polls))
  }

  // ---------------------------------------------------------------- log algebra

  lemma {:induction false} LaunchesConcat(a: seq<Event>, b: seq<Event>)
    ensures Launches(a + b) == Launches(a) + Launches(b)
  {
    if a != [] {
      assert (a + b)[1..] == a[1..] + b;
      LaunchesConcat(a[1..], b);
    } else {
      assert a + b == b;
    }
  }

  lemma {:induction false} ProgressesConcat(a: seq<Event>, b: seq<Event>)
    ensures Progresses(a + b) == Progresses(a) + Progresses(b)
  {
    if a != [] {
      assert (a + b)[1..] == a[1..] + b;
      ProgressesConcat(a[1..], b);
    } else {
      assert a + b == b;
    }
  }

  lemma {:induction false} QuietConcat(a: seq<Event>, b: seq<Event>)
    ensures NoActions(a + b) <==> NoActions(a) && NoActions(b)
    ensures Seen(a + b) <==> Seen(a) || Seen(b)
  {
    if a != [] {
      assert (a + b)[1..] == a[1..] + b;
      assert (a + b)[0] == a[0];
      QuietConcat(a[1..], b);
    } else {
      assert a + b == b;
    }
  }

  lemma LogConcat(a: seq<Event>, b: seq<Event>)
    ensures Launches(a + b) == Launches(a) + Launches(b)
    ensures Progresses(a + b) == Progresses(a) + Progresses(b)
    ensures NoActions(a + b) <==> NoActions(a) && NoActions(b)
    ensures Seen(a + b) <==> Seen(a) || Seen(b)
  {
    LaunchesConcat(a, b);
    ProgressesConcat(a, b);
    QuietConcat(a, b);
  }

  lemma {:induction false} QuietLog(log: seq<Event>)
    requires NoActions(log)
    ensures Launches(log) == [] && Progresses(log) == [] && CancelClean(log)
    ensures Copies(log) == [] && Upscales(log) == []
  {
    if log != [] {
      QuietLog(log[1..]);
    }
  }

  lemma {:induction false} CleanConcat(a: seq<Event>, b: seq<Event>)
    requires CancelClean(a) && CancelClean(b)
    requires Seen(a) ==> NoActions(b)
    ensures CancelClean(a + b)
  {
    if a == [] {
      assert a + b == b;
    } else {
      assert (a + b)[1..] == a[1..] + b;
      assert (a + b)[0] == a[0];
      assert a == [a[0]] + a[1..];
      if a[0] == Polled(true) {
        QuietConcat(a[1..], b);
      } else {
        CleanConcat(a[1..], b);
      }
    }
  }

  /** The facts about a log of one event other than a poll. */
  /** Polls around a log change none of its projections. */
  lemma QuietAround(a: seq<Event>, b: seq<Event>, c: seq<Event>)
    requires NoActions(a) && NoActions(c)
    ensures Launches(a + b + c) == Launches(b) && Progresses(a + b + c) == Progresses(b)
  {
    QuietLog(a);
    QuietLog(c);
    LaunchesConcat(a, b);
    LaunchesConcat(a + b, c);
    ProgressesConcat(a, b);
    ProgressesConcat(a + b, c);
  }

  lemma QuietAround4(a: seq<Event>, b: seq<Event>, c: seq<Event>, d: seq<Event>)
    requires NoActions(a) && NoActions(c) && NoActions(d)
    ensures Launches(a + b + c + d) == Launches(b) && Progresses(a + b + c + d) == Progresses(b)
  {
    QuietConcat(c, d);
    QuietAround(a, b, c + d);
    assert a + b + c + d == a + b + (c + d);
  }

  lemma EventFacts(e: Event)
    requires !e.Polled?
    ensures CancelClean([e]) && !Seen([e]) && !NoActions([e])
    ensures Launches([e]) == (if e.Launched? then [e.argv] else [])
    ensures Progresses([e]) == (if e.Progress? then [e.value] else [])
    ensures Copies([e]) == (if e.Copied? then [e.src] else [])
    ensures Upscales([e]) == (if e.Upscaled? then [e.name] else [])
  {
    assert [e][1..] == [];
  }

  lemma PairFacts(e1: Event, e2: Event)
    requires !e1.Polled? && !e2.Polled?
    ensures CancelClean([e1, e2]) && !Seen([e1, e2])
    ensures Launches([e1, e2]) == Launches([e1]) + Launches([e2])
    ensures Progresses([e1, e2]) == Progresses([e1]) + Progresses([e2])
  {
    EventFacts(e1);
    EventFacts(e2);
    assert [e1, e2] == [e1] + [e2];
    CleanConcat([e1], [e2]);
    LogConcat([e1], [e2]);
  }

  /** Two sound steps in a row make a sound step, when nothing is done after a cancellation. */
  lemma SoundSeq(o: Oracles, s1: St, s2: St, s3: St, a: seq<Event>, b: seq<Event>)
    requires Sound(o, s1, s2, a) && Sound(o, s2, s3, b)
    requires Seen(a) ==> NoActions(b)
    ensures Sound(o, s1, s3, a + b)
  {
    CleanConcat(a, b);
    LogConcat(a, b);
  }

  lemma SoundQuiet(o: Oracles, s: St, t: St, log: seq<Event>)
    requires s.polls <= t.polls && s.launches <= t.launches && NoActions(log)
    requires Seen(log) ==> CancelledAt(o.cancel, t.polls)
    ensures Sound(o, s, t, log)
  {
    QuietLog(log);
  }

  lemma PollFacts(o: Oracles, s: St)
    ensures var p := PollF(o, s);
      && Sound(o, s, p.st, p.log) && NoActions(p.log)
      && (p.r <==> Seen(p.log)) && (p.r <==> CancelledAt(o.cancel, s.polls))
      && p.st == s.(polls := s.polls + 1)
  {
    var p := PollF(o, s);
    SoundQuiet(o, s, p.st, p.log);
  }

  lemma DivBelow(a: nat, n: nat, k: nat)
    requires n > 0 && a < k * n
    ensures a / n < k
  {
  }

  lemma DivMonotone(a: nat, b: nat, n: nat)
    requires n > 0 && a <= b
    ensures a / n <= b / n
  {
    var q := b / n;
    assert b == n * q + b % n;
    assert (q + 1) * n == n * q + n;
    DivBelow(a, n, q + 1);
  }

  lemma SliceCons<T>(s: seq<T>, i: nat)
    requires i < |s|
    ensures s[i..] == [s[i]] + s[i + 1..]
  {
  }

  lemma PrefixCons<T>(h: T, a: seq<T>, b: seq<T>)
    requires IsPrefix(a, b)
    ensures IsPrefix([h] + a, [h] + b)
  {
    assert ([h] + b)[..|a| + 1] == [h] + b[..|a|];
  }

  lemma PrefixAppend<T>(a: seq<T>, b: seq<T>, x: seq<T>, y: seq<T>)
    requires IsPrefix(x, y)
    ensures IsPrefix(a + x, a + y)
    ensures IsPrefix(a, a + y)
  {
    assert (a + y)[..|a| + |x|] == a + y[..|x|];
    assert (a + y)[..|a|] == a;
  }

  // ---------------------------------------------------------------- stage lemmas

  lemma {:induction false} LinesFacts(o: Oracles, s: St, n: nat)
    ensures var x := LinesF(o, s, n);
      && Sound(o, s, x.st, x.log) && NoActions(x.log)
      && (x.r <==> Seen(x.log))
      && x.st.fs == s.fs && x.st.launches == s.launches
      && (NoCancel(o) ==> !x.r)
    decreases n
  {
    if n > 0 {
      var p := PollF(o, s);
      PollFacts(o, s);
      if !p.r {
        var q := LinesF(o, p.st, n - 1);
        LinesFacts(o, p.st, n - 1);
        SoundSeq(o, s, p.st, q.st, p.log, q.log);
        LogConcat(p.log, q.log);
      }
    } else {
      SoundQuiet(o, s, s, []);
    }
  }

  lemma CommandFacts(o: Oracles, s: St, argv: seq<string>)
    ensures CommandEffect(o, s, argv, CommandF(o, s, argv))
  {
    if o.outcome(s.launches).NotFound? {
      EventFacts(Launched(argv));
    } else {
      CommandStarted(o, s, argv);
    }
  }

  /** What a command does: it is sound, a cancellation seen makes it fail, it starts
      `argv` and only it, reports no progress and leaves the files alone; without a
      cancellation a zero exit code makes it succeed. */
  predicate CommandEffect(o: Oracles, s: St, argv: seq<string>, x: Out<bool>) {
    && Sound(o, s, x.st, x.log)
    && (Seen(x.log) ==> !x.r)
    && Launches(x.log) == [argv] && Progresses(x.log) == []
    && x.st.fs == s.fs
    && (NoCancel(o) && o.outcome(s.launches).Ran? && o.outcome(s.launches).exit == 0 ==> x.r)
  }

  lemma CommandStarted(o: Oracles, s: St, argv: seq<string>)
    requires o.outcome(s.launches).Ran?
    ensures CommandEffect(o, s, argv, CommandF(o, s, argv))
  {
    var s1 := s.(launches := s.launches + 1);
    var lines := o.outcome(s.launches).lines;
    var exit := o.outcome(s.launches).exit;
    var a := LinesF(o, s1, |lines|);
    LinesFacts(o, s1, |lines|);
    if a.r {
      assert CommandF(o, s, argv) == Out(false, a.st, [Launched(argv)] + a.log);
      LaunchThen(o, s, s1, false, a.st, argv, a.log);
    } else {
      var b := PollF(o, a.st);
      PollFacts(o, a.st);
      SoundSeq(o, s1, a.st, b.st, a.log, b.log);
      QuietConcat(a.log, b.log);
      LogConcat(a.log, b.log);
      assert [Launched(argv)] + a.log + b.log == [Launched(argv)] + (a.log + b.log);
      assert CommandF(o, s, argv) == Out(!b.r && exit == 0, b.st, [Launched(argv)] + (a.log + b.log));
      LaunchThen(o, s, s1, !b.r && exit == 0, b.st, argv, a.log + b.log);
    }
  }

  /** A start followed by polls only, ending in `r`: sound, that one command started, no
      progress. */
  lemma LaunchThen(o: Oracles, s: St, s1: St, r: bool, t: St, argv: seq<string>, rest: seq<Event>)
    requires s1 == s.(launches := s.launches + 1) && o.outcome(s.launches).Ran?
    requires Sound(o, s1, t, rest) && NoActions(rest) && t.fs == s.fs
    requires Seen(rest) ==> !r
    requires NoCancel(o) && o.outcome(s.launches).exit == 0 ==> r
    ensures CommandEffect(o, s, argv, Out(r, t, [Launched(argv)] + rest))
  {
    var l: seq<Event> := [Launched(argv)];
    EventFacts(Launched(argv));
    assert Sound(o, s, s1, l);
    QuietLog(rest);
    SoundSeq(o, s, s1, t, l, rest);
    LogConcat(l, rest);
  }

  /** A boolean stage is well behaved from `s`: it is sound and a cancellation seen
      makes it return False. */
  predicate Ok(o: Oracles, s: St, x: Out<bool>) {
    Sound(o, s, x.st, x.log) && (Seen(x.log) ==> !x.r)
  }

  lemma PollOk(o: Oracles, s: St)
    ensures var p := PollF(o, s);
      && Ok(o, s, Out(!p.r, p.st, p.log)) && Ok(o, s, Out(false, p.st, p.log))
      && Launches(p.log) == [] && Progresses(p.log) == []
  {
    PollFacts(o, s);
    QuietLog(PollF(o, s).log);
  }

  /** A stage that went on after a successful first part. */
  lemma Chain(o: Oracles, s: St, x: Out<bool>, y: Out<bool>)
    requires Ok(o, s, x) && x.r && Ok(o, x.st, y)
    ensures Ok(o, s, Out(y.r, y.st, x.log + y.log))
    ensures Launches(x.log + y.log) == Launches(x.log) + Launches(y.log)
    ensures Progresses(x.log + y.log) == Progresses(x.log) + Progresses(y.log)
  {
    SoundSeq(o, s, x.st, y.st, x.log, y.log);
    LogConcat(x.log, y.log);
  }

  lemma {:induction false} VideosFacts(o: Oracles, s: St, jobs: seq<Job>)
    ensures var x := VideosF(o, s, jobs);
      && Ok(o, s, x)
      && Progresses(x.log) == []
      && x.st.fs == s.fs
      && (NoCancel(o) && (AllSucceed(o) || VideoPlan(s.fs, jobs) == []) ==> x.r)
    decreases |jobs|
  {
    if jobs == [] {
      SoundQuiet(o, s, s, []);
    } else {
      var p := PollF(o, s);
      PollOk(o, s);
      var p1 := Out(!p.r, p.st, p.log);
      if !p.r {
        if jobs[0].path !in p.st.fs {
          VideosFacts(o, p.st, jobs[1..]);
          Chain(o, s, p1, VideosF(o, p.st, jobs[1..]));
        } else {
          var e := CommandF(o, p.st, jobs[0].argv);
          CommandFacts(o, p.st, jobs[0].argv);
          Chain(o, s, p1, e);
          if e.r {
            VideosFacts(o, e.st, jobs[1..]);
            Chain(o, s, Out(e.r, e.st, p.log + e.log), VideosF(o, e.st, jobs[1..]));
          }
        }
      }
    }
  }

  /** The video loop launches the extractions of the videos that exist, in order, and
      stops at the first that fails. */
  lemma {:induction false} VideosLaunches(o: Oracles, s: St, jobs: seq<Job>)
    ensures var x := VideosF(o, s, jobs);
      && IsPrefix(Launches(x.log), VideoPlan(s.fs, jobs))
      && (x.r ==> Launches(x.log) == VideoPlan(s.fs, jobs))
    decreases |jobs|
  {
    if jobs != [] {
      var p := PollF(o, s);
      PollQuiet(o, s);
      if !p.r {
        if jobs[0].path !in p.st.fs {
          var q := VideosF(o, p.st, jobs[1..]);
          VideosLaunches(o, p.st, jobs[1..]);
          SkippedStep(p.log, q.log, VideoPlan(s.fs, jobs[1..]), q.r);
        } else {
          var e := CommandF(o, p.st, jobs[0].argv);
          CommandLaunch(o, p.st, jobs[0].argv);
          if e.r {
            var q := VideosF(o, e.st, jobs[1..]);
            VideosLaunches(o, e.st, jobs[1..]);
            LaunchedStep(p.log, e.log, q.log, jobs[0].argv, VideoPlan(s.fs, jobs[1..]), q.r);
          } else {
            LaunchedStep(p.log, e.log, [], jobs[0].argv, VideoPlan(s.fs, jobs[1..]), false);
          }
        }
      }
    }
  }

  /** A poll launches nothing and leaves the files alone. */
  lemma PollQuiet(o: Oracles, s: St)
    ensures Launches(PollF(o, s).log) == [] && PollF(o, s).st.fs == s.fs
  {
    assert PollF(o, s).log[1..] == [];
  }

  /** A command launches its argv and leaves the files alone. */
  lemma CommandLaunch(o: Oracles, s: St, argv: seq<string>)
    ensures Launches(CommandF(o, s, argv).log) == [argv] && CommandF(o, s, argv).st.fs == s.fs
  {
    CommandFacts(o, s, argv);
  }

  /** A skipped video adds nothing to what the rest launches. */
  lemma SkippedStep(a: seq<Event>, b: seq<Event>, plan: seq<seq<string>>, r: bool)
    requires Launches(a) == [] && IsPrefix(Launches(b), plan) && (r ==> Launches(b) == plan)
    ensures IsPrefix(Launches(a + b), plan) && (r ==> Launches(a + b) == plan)
  {
    LaunchesConcat(a, b);
  }

  /** A launched video comes before what the rest launches; `b` is empty when it failed. */
  lemma LaunchedStep(a: seq<Event>, e: seq<Event>, b: seq<Event>, argv: seq<string>, plan: seq<seq<string>>, r: bool)
    requires Launches(a) == [] && Launches(e) == [argv]
    requires IsPrefix(Launches(b), plan) && (r ==> Launches(b) == plan)
    ensures IsPrefix(Launches(a + e + b), [argv] + plan) && (r ==> Launches(a + e + b) == [argv] + plan)
  {
    LaunchesConcat(a, e);
    LaunchesConcat(a + e, b);
    PrefixAppend([argv], [argv], Launches(b), plan);
  }

  lemma {:induction false} ItemsConcat(a: seq<Event>, b: seq<Event>)
    ensures Copies(a + b) == Copies(a) + Copies(b)
    ensures Upscales(a + b) == Upscales(a) + Upscales(b)
  {
    if a != [] {
      assert (a + b)[1..] == a[1..] + b;
      ItemsConcat(a[1..], b);
    } else {
      assert a + b == b;
    }
  }

  lemma ReportFacts(i: nat, n: nat)
    requires i < n
    ensures var r := CopyReport(i, n);
      && Launches(r) == [] && Copies(r) == [] && Upscales(r) == [] && !Seen(r) && CancelClean(r)
      && Progresses(r) == (if r == [] then [] else [CopyProgress(i, n)])
  {
    if CopyReport(i, n) != [] {
      EventFacts(Progress(CopyProgress(i, n)));
    }
  }

  /** The events of one copy. */
  lemma CopyEventFacts(src: string, dst: string, i: nat, n: nat)
    requires i < n
    ensures var ev := [Copied(src, dst)] + CopyReport(i, n);
      && Launches(ev) == [] && Copies(ev) == [src] && Upscales(ev) == [] && !Seen(ev) && CancelClean(ev)
      && Progresses(ev) == (if CopyReport(i, n) == [] then [] else [CopyProgress(i, n)])
  {
    EventFacts(Copied(src, dst));
    ReportFacts(i, n);
    LogConcat([Copied(src, dst)], CopyReport(i, n));
    ItemsConcat([Copied(src, dst)], CopyReport(i, n));
    CleanConcat([Copied(src, dst)], CopyReport(i, n));
  }

  lemma {:induction false} CopyFacts(o: Oracles, place: Placement, s: St, files: seq<string>, i: nat)
    ensures var x := CopyF(o, place, s, files, i);
      && Ok(o, s, x)
      && Launches(x.log) == []
      && s.fs.Keys <= x.st.fs.Keys
      && (NoCancel(o) && (forall j :: i <= j < |files| ==> files[j] in s.fs) ==> x.r)
    decreases |files| - i
  {
    if i >= |files| {
      SoundQuiet(o, s, s, []);
    } else {
      var p := PollF(o, s);
      PollOk(o, s);
      PollFacts(o, s);
      var src := files[i];
      if !p.r && src in p.st.fs {
        var dst := place(src, p.st.fs);
        var s2 := p.st.(fs := p.st.fs[dst := p.st.fs[src]]);
        var ev := [Copied(src, dst)] + CopyReport(i, |files|);
        CopyEventFacts(src, dst, i, |files|);
        var pe := Out(true, s2, p.log + ev);
        Chain(o, s, Out(true, p.st, p.log), Out(true, s2, ev));
        CopyFacts(o, place, s2, files, i + 1);
        Chain(o, s, pe, CopyF(o, place, s2, files, i + 1));
      }
    }
  }

  lemma ItemsStep(plog: seq<Event>, ev: seq<Event>, qlog: seq<Event>, src: string, rest: seq<string>)
    requires Copies(plog) == [] && Upscales(plog) == []
    requires Copies(ev) == [src] && Upscales(ev) == []
    requires IsPrefix(Copies(qlog), rest) && Upscales(qlog) == []
    ensures IsPrefix(Copies(plog + ev + qlog), [src] + rest)
    ensures Copies(qlog) == rest ==> Copies(plog + ev + qlog) == [src] + rest
    ensures Upscales(plog + ev + qlog) == []
  {
    ItemsConcat(plog, ev);
    ItemsConcat(plog + ev, qlog);
    PrefixAppend([src], [src], Copies(qlog), rest);
  }

  /** The copy loop copies the selected images in order, each once, and all of them when
      it succeeds. */
  lemma {:induction false} CopyItems(o: Oracles, place: Placement, s: St, files: seq<string>, i: nat)
    requires i <= |files|
    ensures var x := CopyF(o, place, s, files, i);
      && IsPrefix(Copies(x.log), files[i..])
      && (x.r ==> Copies(x.log) == files[i..])
      && Upscales(x.log) == []
    decreases |files| - i
  {
    if i < |files| {
      var p := PollF(o, s);
      PollFacts(o, s);
      QuietLog(p.log);
      var src := files[i];
      if !p.r && src in p.st.fs {
        var dst := place(src, p.st.fs);
        var s2 := p.st.(fs := p.st.fs[dst := p.st.fs[src]]);
        CopyEventFacts(src, dst, i, |files|);
        CopyItems(o, place, s2, files, i + 1);
        SliceCons(files, i);
        ItemsStep(p.log, [Copied(src, dst)] + CopyReport(i, |files|), CopyF(o, place, s2, files, i + 1).log, src, files[i + 1..]);
      }
    }
  }

  lemma CopyProgressRises(i: nat, n: nat)
    requires i < n
    ensures i + 1 < n ==> CopyProgress(i, n) <= CopyProgress(i + 1, n)
  {
    if i + 1 < n {
      DivMonotone(15 * i, 15 * (i + 1), n);
    }
  }

  lemma RisingConcat(a: seq<int>, b: seq<int>, lo: int, mid: int)
    requires lo <= mid
    requires forall v :: v in a ==> 5 <= v <= 19 && v == lo
    requires NonDecreasing(b)
    requires forall v :: v in b ==> 5 <= v <= 19 && mid <= v
    ensures NonDecreasing(a + b)
    ensures forall v :: v in a + b ==> 5 <= v <= 19 && lo <= v
  {
    forall k, m | 0 <= k < m < |a + b| ensures (a + b)[k] <= (a + b)[m] {
      if m >= |a| && k < |a| {
        assert (a + b)[m] == b[m - |a|] && (a + b)[k] == a[k];
        assert a[k] in a && b[m - |a|] in b;
      } else if k >= |a| {
        assert (a + b)[k] == b[k - |a|] && (a + b)[m] == b[m - |a|];
      } else {
        assert (a + b)[k] == a[k] && (a + b)[m] == a[m];
        assert a[k] in a && a[m] in a;
      }
    }
  }

  lemma ProgressStep(plog: seq<Event>, ev: seq<Event>, qlog: seq<Event>, lo: int, mid: int)
    requires Progresses(plog) == []
    requires lo <= mid
    requires forall v :: v in Progresses(ev) ==> 5 <= v <= 19 && v == lo
    requires NonDecreasing(Progresses(qlog))
    requires forall v :: v in Progresses(qlog) ==> 5 <= v <= 19 && mid <= v
    ensures NonDecreasing(Progresses(plog + ev + qlog))
    ensures forall v :: v in Progresses(plog + ev + qlog) ==> 5 <= v <= 19 && lo <= v
  {
    ProgressesConcat(plog, ev);
    ProgressesConcat(plog + ev, qlog);
    assert Progresses(plog + ev + qlog) == Progresses(ev) + Progresses(qlog);
    RisingConcat(Progresses(ev), Progresses(qlog), lo, mid);
  }

  /** The copy loop reports progress in 5..19, never going down. */
  lemma {:induction false} CopyProgressFacts(o: Oracles, place: Placement, s: St, files: seq<string>, i: nat)
    ensures var x := CopyF(o, place, s, files, i);
      && NonDecreasing(Progresses(x.log))
      && (forall v :: v in Progresses(x.log) ==> 5 <= v <= 19 && (i < |files| ==> CopyProgress(i, |files|) <= v))
    decreases |files| - i
  {
    if i < |files| {
      var p := PollF(o, s);
      PollOk(o, s);
      var src := files[i];
      if !p.r && src in p.st.fs {
        var dst := place(src, p.st.fs);
        var s2 := p.st.(fs := p.st.fs[dst := p.st.fs[src]]);
        var q := CopyF(o, place, s2, files, i + 1);
        CopyProgressFacts(o, place, s2, files, i + 1);
        CopyStepProgress(p.log, src, dst, i, |files|, q.log);
        assert CopyF(o, place, s, files, i).log == p.log + ([Copied(src, dst)] + CopyReport(i, |files|)) + q.log;
      }
    }
  }

  /** One copied file: its report sits below the reports of the files after it. */
  lemma CopyStepProgress(plog: seq<Event>, src: string, dst: string, i: nat, n: nat, qlog: seq<Event>)
    requires i < n && Progresses(plog) == []
    requires NonDecreasing(Progresses(qlog)) && (i + 1 == n ==> Progresses(qlog) == [])
    requires forall v :: v in Progresses(qlog) ==> 5 <= v <= 19 && (i + 1 < n ==> CopyProgress(i + 1, n) <= v)
    ensures var all := plog + ([Copied(src, dst)] + CopyReport(i, n)) + qlog;
      && NonDecreasing(Progresses(all))
      && (forall v :: v in Progresses(all) ==> 5 <= v <= 19 && CopyProgress(i, n) <= v)
  {
    CopyEventFacts(src, dst, i, n);
    var mid := if i + 1 < n then CopyProgress(i + 1, n) else 19;
    CopyProgressRises(i, n);
    ProgressStep(plog, [Copied(src, dst)] + CopyReport(i, n), qlog, CopyProgress(i, n), mid);
  }

  lemma ItemsStep2(plog: seq<Event>, name: string, qlog: seq<Event>, rest: seq<string>)
    requires Upscales(plog) == [] && IsPrefix(Upscales(qlog), rest)
    ensures IsPrefix(Upscales(plog + [Upscaled(name)] + qlog), [name] + rest)
    ensures Upscales(qlog) == rest ==> Upscales(plog + [Upscaled(name)] + qlog) == [name] + rest
  {
    ItemsConcat(plog, [Upscaled(name)]);
    ItemsConcat(plog + [Upscaled(name)], qlog);
    PrefixAppend([name], [name], Upscales(qlog), rest);
  }

  lemma {:induction false} UpscaleLoopFacts(o: Oracles, s: St, files: seq<string>, i: nat)
    ensures var x := UpscaleLoopF(o, s, files, i);
      && Ok(o, s, x) && Launches(x.log) == [] && Progresses(x.log) == []
      && x.st.fs == s.fs
      && (NoCancel(o) ==> x.r)
    decreases |files| - i
  {
    if i >= |files| {
      SoundQuiet(o, s, s, []);
    } else {
      var p := PollF(o, s);
      PollOk(o, s);
      PollFacts(o, s);
      if !p.r {
        var u: seq<Event> := [Upscaled(files[i])];
        EventFacts(Upscaled(files[i]));
        Chain(o, s, Out(true, p.st, p.log), Out(true, p.st, u));
        UpscaleLoopFacts(o, p.st, files, i + 1);
        Chain(o, s, Out(true, p.st, p.log + u), UpscaleLoopF(o, p.st, files, i + 1));
      }
    }
  }

  /** The upscale loop hands the images over in order, each once, all of them when it
      is not interrupted. */
  lemma {:induction false} UpscaleLoopItems(o: Oracles, s: St, files: seq<string>, i: nat)
    requires i <= |files|
    ensures var x := UpscaleLoopF(o, s, files, i);
      && IsPrefix(Upscales(x.log), files[i..])
      && (x.r ==> Upscales(x.log) == files[i..])
    decreases |files| - i
  {
    if i < |files| {
      var p := PollF(o, s);
      PollFacts(o, s);
      QuietLog(p.log);
      if !p.r {
        UpscaleLoopItems(o, p.st, files, i + 1);
        SliceCons(files, i);
        ItemsStep2(p.log, files[i], UpscaleLoopF(o, p.st, files, i + 1).log, files[i + 1..]);
      }
    }
  }

  lemma UpscaleFacts(o: Oracles, sources: string, queue: seq<string>, s: St)
    ensures var x := UpscaleF(o, sources, queue, s);
      && Ok(o, s, x) && Launches(x.log) == [] && Progresses(x.log) == []
      && s.fs.Keys <= x.st.fs.Keys
      && (NoCancel(o) && (o.upscaleInstalled ==> o.modelLoads) ==> x.r)
  {
    var p := PollF(o, s);
    PollOk(o, s);
    PollFacts(o, s);
    if !p.r && o.upscaleInstalled && sources !in p.st.fs {
      var s2 := p.st.(fs := MakeDir(p.st.fs, sources));
      var m: seq<Event> := [MovedToSources];
      EventFacts(MovedToSources);
      assert Sound(o, p.st, s2, m);
      Chain(o, s, Out(true, p.st, p.log), Out(true, s2, m));
      if o.modelLoads {
        var files := queue;
        UpscaleLoopFacts(o, s2, files, 0);
        Chain(o, s, Out(true, s2, p.log + m), UpscaleLoopF(o, s2, files, 0));
      }
    }
  }

  /** On a first run with the upscaler installed, a successful upscale has handed over
      every image of the queue, in order; when
      `images_src` already exists nothing is upscaled again. */
  lemma UpscaleItems(o: Oracles, sources: string, queue: seq<string>, s: St)
    ensures var x := UpscaleF(o, sources, queue, s);
      && (sources in s.fs ==> Upscales(x.log) == [])
      && (o.upscaleInstalled && sources !in s.fs && x.r ==>
            Upscales(x.log) == queue)
  {
    var p := PollF(o, s);
    PollFacts(o, s);
    QuietLog(p.log);
    if !p.r && o.upscaleInstalled && sources !in p.st.fs && o.modelLoads {
      var s2 := p.st.(fs := MakeDir(p.st.fs, sources));
      var files := queue;
      var q := UpscaleLoopF(o, s2, files, 0);
      UpscaleLoopItems(o, s2, files, 0);
      ItemsConcat(p.log, [MovedToSources]);
      ItemsConcat(p.log + [MovedToSources], q.log);
      assert files[0..] == files;
    }
  }

  lemma PrepareFacts(o: Oracles, n: Inputs, s: St)
    ensures var x := PrepareF(o, n, s);
      && Ok(o, s, x)
      && s.fs.Keys <= x.st.fs.Keys
      && (NoCancel(o) && AllSucceed(o) ==> x.r)
  {
    if n.video {
      var p := PollF(o, s);
      PollOk(o, s);
      PollFacts(o, s);
      if !p.r {
        var jobs := n.jobs;
        VideosFacts(o, p.st, jobs);
        Chain(o, s, Out(true, p.st, p.log), VideosF(o, p.st, jobs));
      }
    } else if o.inputIsImagesDir {
      SoundQuiet(o, s, s, []);
    } else {
      var files := SelectImages(o.tree, s.fs);
      if |files| == 0 {
        SoundQuiet(o, s, s, []);
      } else {
        CopyFacts(o, n.place, s, files, 0);
        forall j | 0 <= j < |files| ensures files[j] in s.fs {
          SelectImagesMembers(o.tree, s.fs, files[j]);
        }
      }
    }
  }

  /** Preparation launches the extractions of the existing videos in order, all of them
      when it succeeds; it reports progress only while copying, in 5..19, never going
      down; and a successful copy has copied every selected image. */
  lemma PrepareEffects(o: Oracles, n: Inputs, s: St)
    ensures var x := PrepareF(o, n, s);
      && IsPrefix(Launches(x.log), PreparePlan(n, s.fs))
      && (x.r ==> Launches(x.log) == PreparePlan(n, s.fs))
      && NonDecreasing(Progresses(x.log))
      && (forall v :: v in Progresses(x.log) ==> 5 <= v <= 19)
      && (!n.video && !o.inputIsImagesDir && x.r ==> Copies(x.log) == SelectImages(o.tree, s.fs))
  {
    if n.video {
      var p := PollF(o, s);
      PollOk(o, s);
      PollFacts(o, s);
      if !p.r {
        var jobs := n.jobs;
        VideosFacts(o, p.st, jobs);
        VideosLaunches(o, p.st, jobs);
        LogConcat(p.log, VideosF(o, p.st, jobs).log);
      }
    } else if !o.inputIsImagesDir {
      var files := SelectImages(o.tree, s.fs);
      if |files| > 0 {
        CopyFacts(o, n.place, s, files, 0);
        CopyProgressFacts(o, n.place, s, files, 0);
        CopyItems(o, n.place, s, files, 0);
        assert files[0..] == files;
      }
    }
  }

  // ---------------------------------------------------------------- the reconstruction

  lemma HandlerFacts(o: Oracles, s: St)
    ensures var h := HandlerF(o, s);
      && Sound(o, s, h.st, h.log) && NoActions(h.log)
      && (h.r == UserCancelled <==> CancelledAt(o.cancel, s.polls))
      && (h.r == UserCancelled <==> Seen(h.log))
      && (h.r == UserCancelled || h.r == Error(NameErrorText))
      && h.st.fs == s.fs && h.st.launches == s.launches
  {
    PollFacts(o, s);
  }

  /** A stage is well behaved: it is sound, it reports the cancellation exactly when a
      poll read true, and otherwise only its own failure. */
  predicate StageOk(o: Oracles, s: St, x: Out<Option<RunMessage>>, fail: RunMessage) {
    && Sound(o, s, x.st, x.log)
    && (Seen(x.log) <==> x.r == Some(UserCancelled))
    && (x.r.Some? ==> x.r.value == fail || x.r.value == UserCancelled)
  }

  /** A stage launches its process at most once, and always when it lets the run go on. */
  predicate StageEffect(x: Out<Option<RunMessage>>, argv: seq<string>) {
    && Progresses(x.log) == []
    && (Launches(x.log) == [] || Launches(x.log) == [argv])
    && (x.r.None? ==> Launches(x.log) == [argv])
  }

  lemma CancelLater(o: Oracles, a: nat, b: nat)
    requires CancelledAt(o.cancel, a) && a <= b
    ensures CancelledAt(o.cancel, b)
  {
  }

  lemma StageSound(o: Oracles, s: St, argv: seq<string>, fail: RunMessage)
    requires fail != UserCancelled
    ensures StageOk(o, s, StageF(o, s, argv, fail), fail)
  {
    var p := PollF(o, s);
    PollFacts(o, s);
    if p.r {
      var h := HandlerF(o, p.st);
      HandlerFacts(o, p.st);
      CancelLater(o, s.polls, p.st.polls);
      SoundSeq(o, s, p.st, h.st, p.log, h.log);
      QuietConcat(p.log, h.log);
    } else {
      var e := CommandF(o, p.st, argv);
      CommandFacts(o, p.st, argv);
      SoundSeq(o, s, p.st, e.st, p.log, e.log);
      QuietConcat(p.log, e.log);
      if !e.r {
        var q := PollF(o, e.st);
        PollFacts(o, e.st);
        SoundSeq(o, s, e.st, q.st, p.log + e.log, q.log);
        QuietConcat(p.log + e.log, q.log);
        if q.r {
          var h := HandlerF(o, q.st);
          HandlerFacts(o, q.st);
          CancelLater(o, e.st.polls, q.st.polls);
          SoundSeq(o, s, q.st, h.st, p.log + e.log + q.log, h.log);
          QuietConcat(p.log + e.log + q.log, h.log);
        }
      }
    }
  }

  lemma StageEffects(o: Oracles, s: St, argv: seq<string>, fail: RunMessage)
    ensures StageEffect(StageF(o, s, argv, fail), argv)
  {
    var p := PollF(o, s);
    PollFacts(o, s);
    if p.r {
      var h := HandlerF(o, p.st);
      HandlerFacts(o, p.st);
      QuietConcat(p.log, h.log);
      QuietLog(p.log + h.log);
    } else {
      var e := CommandF(o, p.st, argv);
      CommandFacts(o, p.st, argv);
      if e.r {
        QuietAround(p.log, e.log, []);
        assert p.log + e.log + [] == p.log + e.log;
      } else {
        var q := PollF(o, e.st);
        PollFacts(o, e.st);
        if q.r {
          var h := HandlerF(o, q.st);
          HandlerFacts(o, q.st);
          QuietAround4(p.log, e.log, q.log, h.log);
        } else {
          QuietAround(p.log, e.log, q.log);
        }
      }
    }
  }

  lemma StageCompletes(o: Oracles, s: St, argv: seq<string>, fail: RunMessage)
    ensures var x := StageF(o, s, argv, fail);
      && x.st.fs == s.fs
      && (NoCancel(o) && AllSucceed(o) ==> x.r.None?)
  {
    var p := PollF(o, s);
    PollFacts(o, s);
    if p.r {
      HandlerFacts(o, p.st);
    } else {
      var e := CommandF(o, p.st, argv);
      CommandFacts(o, p.st, argv);
      if !e.r {
        var q := PollF(o, e.st);
        PollFacts(o, e.st);
        if q.r {
          HandlerFacts(o, q.st);
        }
      }
    }
  }

  lemma UndistortSound(o: Oracles, dense: string, argv: seq<string>, s: St)
    ensures StageOk(o, s, UndistortF(o, dense, argv, s), UndistortionFailed)
  {
    var p := PollF(o, s);
    PollFacts(o, s);
    if p.r {
      var h := HandlerF(o, p.st);
      HandlerFacts(o, p.st);
      CancelLater(o, s.polls, p.st.polls);
      SoundSeq(o, s, p.st, h.st, p.log, h.log);
      QuietConcat(p.log, h.log);
    } else {
      var s1 := p.st.(fs := MakeDir(p.st.fs, dense));
      var e := CommandF(o, s1, argv);
      CommandFacts(o, s1, argv);
      SoundSeq(o, s, s1, e.st, p.log, e.log);
      QuietConcat(p.log, e.log);
      if !e.r {
        var q := PollF(o, e.st);
        PollFacts(o, e.st);
        SoundSeq(o, s, e.st, q.st, p.log + e.log, q.log);
        QuietConcat(p.log + e.log, q.log);
      }
    }
  }

  lemma UndistortEffects(o: Oracles, dense: string, argv: seq<string>, s: St)
    ensures StageEffect(UndistortF(o, dense, argv, s), argv)
  {
    var p := PollF(o, s);
    PollFacts(o, s);
    if p.r {
      var h := HandlerF(o, p.st);
      HandlerFacts(o, p.st);
      QuietConcat(p.log, h.log);
      QuietLog(p.log + h.log);
    } else {
      var s1 := p.st.(fs := MakeDir(p.st.fs, dense));
      var e := CommandF(o, s1, argv);
      CommandFacts(o, s1, argv);
      if e.r {
        QuietAround(p.log, e.log, []);
        assert p.log + e.log + [] == p.log + e.log;
      } else {
        var q := PollF(o, e.st);
        PollFacts(o, e.st);
        QuietAround(p.log, e.log, q.log);
      }
    }
  }

  lemma UndistortCompletes(o: Oracles, dense: string, argv: seq<string>, s: St)
    ensures NoCancel(o) && AllSucceed(o) ==> UndistortF(o, dense, argv, s).r.None?
  {
    var p := PollF(o, s);
    PollFacts(o, s);
    if !p.r {
      CommandFacts(o, p.st.(fs := MakeDir(p.st.fs, dense)), argv);
    }
  }

  predicate ReconstructMessage(k: Stages, m: RunMessage) {
    || m == ExtractionFailed || m == MatchingFailed || m == ReconstructionFailed
    || m == UndistortionFailed || m == UserCancelled || m == DatasetCreated(k.project)
  }

  /** A phase of the reconstruction is well behaved: sound, the cancellation reported
      exactly when seen, and one of the reconstruction's own messages. */
  predicate PhaseOk(o: Oracles, s: St, x: Out<RunMessage>, k: Stages) {
    && Sound(o, s, x.st, x.log)
    && (Seen(x.log) <==> x.r == UserCancelled)
    && ReconstructMessage(k, x.r)
  }

  /** A phase reports a prefix of its progress marks, all of them exactly on success. */
  predicate ProgressEffect(x: Out<RunMessage>, marks: seq<int>) {
    IsPrefix(Progresses(x.log), marks) && (x.r.DatasetCreated? <==> Progresses(x.log) == marks)
  }

  /** A phase launches a prefix of its plan, all of it on success. */
  predicate LaunchEffect(x: Out<RunMessage>, plan: seq<seq<string>>) {
    IsPrefix(Launches(x.log), plan) && (x.r.DatasetCreated? ==> Launches(x.log) == plan)
  }

  predicate PhaseEffect(x: Out<RunMessage>, plan: seq<seq<string>>, marks: seq<int>) {
    ProgressEffect(x, marks) && LaunchEffect(x, plan)
  }

  lemma FinishSound(o: Oracles, k: Stages, s: St)
    ensures PhaseOk(o, s, FinishF(o, k, s), k)
    ensures FinishF(o, k, s).r in {UndistortionFailed, UserCancelled, DatasetCreated(k.project)}
  {
    var u := if k.undistort.Some? then UndistortF(o, k.dense, k.undistort.value, s) else Out(None, s, []);
    if k.undistort.Some? {
      UndistortSound(o, k.dense, k.undistort.value, s);
    } else {
      SoundQuiet(o, s, s, []);
    }
    if u.r.None? {
      var p := PollF(o, u.st);
      PollFacts(o, u.st);
      var m: seq<Event> := [Progress(95)];
      EventFacts(Progress(95));
      SoundSeq(o, s, u.st, u.st, u.log, m);
      QuietConcat(u.log, m);
      SoundSeq(o, s, u.st, p.st, u.log + m, p.log);
      QuietConcat(u.log + m, p.log);
      if !p.r {
        var w: seq<Event> := [WroteConfig(k.config, k.descriptor), Progress(100)];
        PairFacts(WroteConfig(k.config, k.descriptor), Progress(100));
        SoundSeq(o, s, p.st, p.st, u.log + m + p.log, w);
        QuietConcat(u.log + m + p.log, w);
      }
    }
  }

  lemma UndistortStepEffect(o: Oracles, k: Stages, s: St)
    ensures var u := UndistortStep(o, k, s);
      && Progresses(u.log) == []
      && IsPrefix(Launches(u.log), FinishPlan(k))
      && (u.r.None? ==> Launches(u.log) == FinishPlan(k))
      && (u.r.Some? ==> !u.r.value.DatasetCreated?)
      && (NoCancel(o) && AllSucceed(o) ==> u.r.None?)
  {
    if k.undistort.Some? {
      UndistortSound(o, k.dense, k.undistort.value, s);
      UndistortEffects(o, k.dense, k.undistort.value, s);
      UndistortCompletes(o, k.dense, k.undistort.value, s);
    }
  }

  lemma FinishAfterProgress(o: Oracles, k: Stages, u: Out<Option<RunMessage>>)
    requires Progresses(u.log) == []
    requires u.r.Some? ==> !u.r.value.DatasetCreated?
    ensures ProgressEffect(FinishAfter(o, k, u), [95, 100])
  {
    if u.r.None? {
      if CancelledAt(o.cancel, u.st.polls) {
        FinishAfterCancelled(o, k, u);
      } else {
        FinishAfterDone(o, k, u);
      }
    }
  }

  lemma FinishAfterCancelled(o: Oracles, k: Stages, u: Out<Option<RunMessage>>)
    requires Progresses(u.log) == [] && u.r.None? && CancelledAt(o.cancel, u.st.polls)
    ensures Progresses(FinishAfter(o, k, u).log) == [95]
  {
    TailProgress(u.log, 95, true, []);
    assert u.log + [Progress(95)] + [Polled(true)] + [] == u.log + [Progress(95)] + [Polled(true)];
  }

  lemma FinishAfterDone(o: Oracles, k: Stages, u: Out<Option<RunMessage>>)
    requires Progresses(u.log) == [] && u.r.None? && !CancelledAt(o.cancel, u.st.polls)
    ensures Progresses(FinishAfter(o, k, u).log) == [95, 100]
  {
    var w: seq<Event> := [WroteConfig(k.config, k.descriptor), Progress(100)];
    TailProgress(u.log, 95, false, w);
    PairFacts(WroteConfig(k.config, k.descriptor), Progress(100));
    EventFacts(WroteConfig(k.config, k.descriptor));
    EventFacts(Progress(100));
  }

  lemma TailProgress(a: seq<Event>, m: int, c: bool, w: seq<Event>)
    ensures Progresses(a + [Progress(m)] + [Polled(c)] + w) == Progresses(a) + [m] + Progresses(w)
  {
    var x := a + [Progress(m)];
    var y := x + [Polled(c)];
    EventFacts(Progress(m));
    PolledNoProgress(c);
    ProgressesConcat(a, [Progress(m)]);
    ProgressesConcat(x, [Polled(c)]);
    ProgressesConcat(y, w);
    assert Progresses(y) == Progresses(a) + [m];
  }

  lemma PolledNoProgress(c: bool)
    ensures Progresses([Polled(c)]) == []
  {
    assert [Polled(c)][1..] == [];
  }

  lemma FinishAfterLaunches(o: Oracles, k: Stages, u: Out<Option<RunMessage>>)
    requires IsPrefix(Launches(u.log), FinishPlan(k))
    requires u.r.None? ==> Launches(u.log) == FinishPlan(k)
    requires u.r.Some? ==> !u.r.value.DatasetCreated?
    ensures LaunchEffect(FinishAfter(o, k, u), FinishPlan(k))
    ensures FinishAfter(o, k, u).r.DatasetCreated? ==> WroteConfig(k.config, k.descriptor) in FinishAfter(o, k, u).log
  {
    if u.r.None? {
      var c := CancelledAt(o.cancel, u.st.polls);
      var w: seq<Event> := if c then [] else [WroteConfig(k.config, k.descriptor), Progress(100)];
      TailLaunches(u.log, 95, c, w);
      if !c {
        PairFacts(WroteConfig(k.config, k.descriptor), Progress(100));
        EventFacts(WroteConfig(k.config, k.descriptor));
        EventFacts(Progress(100));
        FinishAfterWrites(o, k, u);
      } else {
        assert u.log + [Progress(95)] + [Polled(c)] + w == u.log + [Progress(95)] + [Polled(c)];
      }
    }
  }

  lemma FinishAfterWrites(o: Oracles, k: Stages, u: Out<Option<RunMessage>>)
    requires u.r.None? && !CancelledAt(o.cancel, u.st.polls)
    ensures WroteConfig(k.config, k.descriptor) in FinishAfter(o, k, u).log
  {
    var w: seq<Event> := [WroteConfig(k.config, k.descriptor), Progress(100)];
    assert FinishAfter(o, k, u).log == (u.log + [Progress(95)] + [Polled(false)]) + w;
    assert w[0] in w;
  }

  lemma TailLaunches(a: seq<Event>, m: int, c: bool, w: seq<Event>)
    ensures Launches(a + [Progress(m)] + [Polled(c)] + w) == Launches(a) + Launches(w)
  {
    var x := a + [Progress(m)];
    var y := x + [Polled(c)];
    QuietLaunches(Progress(m));
    QuietLaunches(Polled(c));
    LaunchesConcat(a, [Progress(m)]);
    LaunchesConcat(x, [Polled(c)]);
    LaunchesConcat(y, w);
    assert Launches(y) == Launches(a);
  }

  /** An event other than a start adds no command. */
  lemma QuietLaunches(e: Event)
    requires !e.Launched?
    ensures Launches([e]) == []
  {
    assert [e][1..] == [];
  }

  lemma FinishEffects(o: Oracles, k: Stages, s: St)
    ensures var x := FinishF(o, k, s);
      && PhaseEffect(x, FinishPlan(k), [95, 100])
      && (x.r.DatasetCreated? ==> WroteConfig(k.config, k.descriptor) in x.log)
  {
    UndistortStepEffect(o, k, s);
    FinishAfterProgress(o, k, UndistortStep(o, k, s));
    FinishAfterLaunches(o, k, UndistortStep(o, k, s));
  }

  lemma FinishCompletes(o: Oracles, k: Stages, s: St)
    ensures NoCancel(o) && AllSucceed(o) ==> FinishF(o, k, s).r == DatasetCreated(k.project)
  {
    UndistortStepEffect(o, k, s);
    PollFacts(o, UndistortStep(o, k, s).st);
  }

  lemma PhaseStop(o: Oracles, s: St, m: Out<Option<RunMessage>>, argv: seq<string>, fail: RunMessage,
                  k: Stages, plan: seq<seq<string>>, marks: seq<int>)
    requires StageOk(o, s, m, fail) && StageEffect(m, argv) && m.r.Some?
    requires ReconstructMessage(k, fail) && !fail.DatasetCreated? && marks != []
    ensures PhaseOk(o, s, Out(m.r.value, m.st, m.log), k)
    ensures PhaseEffect(Out(m.r.value, m.st, m.log), [argv] + plan, marks)
  {
    PrefixAppend([argv], [argv], [], plan);
  }

  lemma PhaseConsOk(o: Oracles, s: St, m: Out<Option<RunMessage>>, fail: RunMessage,
                    mark: int, f: Out<RunMessage>, k: Stages)
    requires StageOk(o, s, m, fail) && m.r.None?
    requires PhaseOk(o, m.st, f, k)
    ensures PhaseOk(o, s, Out(f.r, f.st, m.log + [Progress(mark)] + f.log), k)
  {
    EventFacts(Progress(mark));
    SoundSeq(o, s, m.st, m.st, m.log, [Progress(mark)]);
    QuietConcat(m.log, [Progress(mark)]);
    SoundSeq(o, s, m.st, f.st, m.log + [Progress(mark)], f.log);
    QuietConcat(m.log + [Progress(mark)], f.log);
  }

  lemma PhaseConsProgress(m: Out<Option<RunMessage>>, mark: int, f: Out<RunMessage>, marks: seq<int>)
    requires Progresses(m.log) == []
    requires ProgressEffect(f, marks)
    ensures ProgressEffect(Out(f.r, f.st, m.log + [Progress(mark)] + f.log), [mark] + marks)
  {
    var t := m.log + [Progress(mark)] + f.log;
    EventFacts(Progress(mark));
    ProgressesConcat(m.log, [Progress(mark)]);
    ProgressesConcat(m.log + [Progress(mark)], f.log);
    var q := Progresses(f.log);
    assert Progresses(t) == [mark] + q;
    PrefixCons(mark, q, marks);
    if [mark] + q == [mark] + marks {
      assert q == ([mark] + q)[1..];
    }
  }

  lemma PhaseConsLaunches(m: Out<Option<RunMessage>>, argv: seq<string>, mark: int, f: Out<RunMessage>, plan: seq<seq<string>>)
    requires StageEffect(m, argv) && m.r.None?
    requires LaunchEffect(f, plan)
    ensures LaunchEffect(Out(f.r, f.st, m.log + [Progress(mark)] + f.log), [argv] + plan)
  {
    var t := m.log + [Progress(mark)] + f.log;
    EventFacts(Progress(mark));
    LaunchesConcat(m.log, [Progress(mark)]);
    LaunchesConcat(m.log + [Progress(mark)], f.log);
    assert Launches(t) == [argv] + Launches(f.log);
    PrefixCons(argv, Launches(f.log), plan);
  }

  lemma PhaseConsEffect(m: Out<Option<RunMessage>>, argv: seq<string>,
                        mark: int, f: Out<RunMessage>, plan: seq<seq<string>>, marks: seq<int>)
    requires StageEffect(m, argv) && m.r.None?
    requires PhaseEffect(f, plan, marks)
    ensures PhaseEffect(Out(f.r, f.st, m.log + [Progress(mark)] + f.log), [argv] + plan, [mark] + marks)
  {
    PhaseConsProgress(m, mark, f, marks);
    PhaseConsLaunches(m, argv, mark, f, plan);
  }

  /** Mapping, then the finish. */
  lemma MapPhaseSound(o: Oracles, k: Stages, s: St)
    ensures PhaseOk(o, s, MapPhaseF(o, k, s), k)
  {
    var m := StageF(o, s, k.mapping, ReconstructionFailed);
    StageSound(o, s, k.mapping, ReconstructionFailed);
    if m.r.None? {
      FinishSound(o, k, m.st);
      PhaseConsOk(o, s, m, ReconstructionFailed, 90, FinishF(o, k, m.st), k);
    }
  }

  lemma MapPhaseEffects(o: Oracles, k: Stages, s: St)
    ensures PhaseEffect(MapPhaseF(o, k, s), MapPlan(k), [90, 95, 100])
  {
    var m := StageF(o, s, k.mapping, ReconstructionFailed);
    StageSound(o, s, k.mapping, ReconstructionFailed);
    StageEffects(o, s, k.mapping, ReconstructionFailed);
    if m.r.Some? {
      PhaseStop(o, s, m, k.mapping, ReconstructionFailed, k, FinishPlan(k), [90, 95, 100]);
    } else {
      FinishEffects(o, k, m.st);
      PhaseConsEffect(m, k.mapping, 90, FinishF(o, k, m.st), FinishPlan(k), [95, 100]);
    }
  }

  lemma MatchPhaseSound(o: Oracles, k: Stages, s: St)
    ensures PhaseOk(o, s, MatchPhaseF(o, k, s), k)
  {
    var b := StageF(o, s, k.matching, MatchingFailed);
    StageSound(o, s, k.matching, MatchingFailed);
    if b.r.None? {
      MapPhaseSound(o, k, b.st);
      PhaseConsOk(o, s, b, MatchingFailed, 75, MapPhaseF(o, k, b.st), k);
    }
  }

  lemma MatchPhaseEffects(o: Oracles, k: Stages, s: St)
    ensures PhaseEffect(MatchPhaseF(o, k, s), MatchPlan(k), [75, 90, 95, 100])
  {
    var b := StageF(o, s, k.matching, MatchingFailed);
    StageSound(o, s, k.matching, MatchingFailed);
    StageEffects(o, s, k.matching, MatchingFailed);
    if b.r.Some? {
      PhaseStop(o, s, b, k.matching, MatchingFailed, k, MapPlan(k), [75, 90, 95, 100]);
    } else {
      MapPhaseEffects(o, k, b.st);
      PhaseConsEffect(b, k.matching, 75, MapPhaseF(o, k, b.st), MapPlan(k), [90, 95, 100]);
    }
  }

  /** The reconstruction after its first progress report. */
  function ExtractPhaseF(o: Oracles, k: Stages, s: St): Out<RunMessage> {
    var s0 := s.(fs := MakeDir(s.fs, k.sparse));
    var a := StageF(o, s0, k.extract, ExtractionFailed);
    if a.r.Some? then Out(a.r.value, a.st, a.log)
    else
      var n := MatchPhaseF(o, k, a.st);
      Out(n.r, n.st, a.log + [Progress(50)] + n.log)
  }

  lemma ExtractPhaseSound(o: Oracles, k: Stages, s: St)
    ensures PhaseOk(o, s, ExtractPhaseF(o, k, s), k)
  {
    var s0 := s.(fs := MakeDir(s.fs, k.sparse));
    var a := StageF(o, s0, k.extract, ExtractionFailed);
    StageSound(o, s0, k.extract, ExtractionFailed);
    if a.r.None? {
      MatchPhaseSound(o, k, a.st);
      PhaseConsOk(o, s0, a, ExtractionFailed, 50, MatchPhaseF(o, k, a.st), k);
    }
  }

  lemma ExtractPhaseEffects(o: Oracles, k: Stages, s: St)
    ensures PhaseEffect(ExtractPhaseF(o, k, s), ReconstructPlan(k), [50, 75, 90, 95, 100])
  {
    var s0 := s.(fs := MakeDir(s.fs, k.sparse));
    var a := StageF(o, s0, k.extract, ExtractionFailed);
    StageSound(o, s0, k.extract, ExtractionFailed);
    StageEffects(o, s0, k.extract, ExtractionFailed);
    if a.r.Some? {
      PhaseStop(o, s0, a, k.extract, ExtractionFailed, k, MatchPlan(k), [50, 75, 90, 95, 100]);
    } else {
      MatchPhaseEffects(o, k, a.st);
      PhaseConsEffect(a, k.extract, 50, MatchPhaseF(o, k, a.st), MatchPlan(k), [75, 90, 95, 100]);
    }
  }

  lemma ReconstructSplit(o: Oracles, k: Stages, s: St)
    ensures var x := ReconstructF(o, k, s);
      var y := ExtractPhaseF(o, k, s);
      x == Out(y.r, y.st, [Progress(25)] + y.log)
  {
    var s0 := s.(fs := MakeDir(s.fs, k.sparse));
    var a := StageF(o, s0, k.extract, ExtractionFailed);
    if a.r.None? {
      var n := MatchPhaseF(o, k, a.st);
      assert [Progress(25)] + a.log + [Progress(50)] + n.log == [Progress(25)] + (a.log + [Progress(50)] + n.log);
    }
  }

  /** The reconstruction: sound, cancellation reported exactly when seen, the stages
      launched in order (extraction, matching, mapping, then undistortion when asked
      for), progress 25, 50, 75, 90, 95, 100 in that order and complete exactly on
      success. */
  lemma ReconstructFacts(o: Oracles, k: Stages, s: St)
    ensures var x := ReconstructF(o, k, s);
      && PhaseOk(o, s, x, k) && PhaseEffect(x, ReconstructPlan(k), Milestones)
  {
    ReconstructSplit(o, k, s);
    ExtractPhaseSound(o, k, s);
    ExtractPhaseEffects(o, k, s);
    assert Milestones == [25] + [50, 75, 90, 95, 100];
    PhaseHead(o, s, 25, ExtractPhaseF(o, k, s), k, ReconstructPlan(k), [50, 75, 90, 95, 100]);
  }

  /** A progress report in front of a phase. */
  lemma PhaseHead(o: Oracles, s: St, mark: int, y: Out<RunMessage>, k: Stages,
                  plan: seq<seq<string>>, marks: seq<int>)
    requires PhaseOk(o, s, y, k) && PhaseEffect(y, plan, marks)
    ensures var x := Out(y.r, y.st, [Progress(mark)] + y.log);
      PhaseOk(o, s, x, k) && PhaseEffect(x, plan, [mark] + marks)
  {
    EventFacts(Progress(mark));
    SoundSeq(o, s, s, y.st, [Progress(mark)], y.log);
    QuietConcat([Progress(mark)], y.log);
    LaunchesConcat([Progress(mark)], y.log);
    ProgressesConcat([Progress(mark)], y.log);
    var q := Progresses(y.log);
    PrefixCons(mark, q, marks);
    if [mark] + q == [mark] + marks {
      assert q == ([mark] + q)[1..];
    }
  }

  /** Nobody cancels and every tool succeeds: the dataset is created. */
  lemma ReconstructCompletes(o: Oracles, k: Stages, s: St)
    requires NoCancel(o) && AllSucceed(o)
    ensures ReconstructF(o, k, s).r == DatasetCreated(k.project)
  {
    var s0 := s.(fs := MakeDir(s.fs, k.sparse));
    StageCompletes(o, s0, k.extract, ExtractionFailed);
    var a := StageF(o, s0, k.extract, ExtractionFailed);
    StageCompletes(o, a.st, k.matching, MatchingFailed);
    var b := StageF(o, a.st, k.matching, MatchingFailed);
    StageCompletes(o, b.st, k.mapping, ReconstructionFailed);
    var m := StageF(o, b.st, k.mapping, ReconstructionFailed);
    FinishCompletes(o, k, m.st);
  }

  // ---------------------------------------------------------------- the whole run

  /** What `run` can answer once the input was found. */
  predicate RunMessageAfterInput(m: RunMessage, project: string) {
    || m == PrepareFailed || m == UpscaleFailed || m == ExtractionFailed
    || m == MatchingFailed || m == ReconstructionFailed || m == UndistortionFailed
    || m == UserCancelled || m == DatasetCreated(project)
  }

  lemma UpscaleStepFacts(o: Oracles, t: Setting, s: St)
    ensures var x := UpscaleStep(o, t, s);
      && Ok(o, s, x) && Launches(x.log) == [] && Progresses(x.log) == []
      && (NoCancel(o) && (t.upscale && o.upscaleInstalled ==> o.modelLoads) ==> x.r)
  {
    if t.upscale {
      UpscaleFacts(o, t.sources, UpscaleQueue(o), s);
    } else {
      SoundQuiet(o, s, s, []);
    }
  }

  lemma SequencedSound(o: Oracles, s: St, prep: Out<bool>, up: Out<bool>, rec: Out<RunMessage>, k: Stages)
    requires Ok(o, s, prep) && Ok(o, prep.st, up) && PhaseOk(o, up.st, rec, k)
    ensures var x := Sequenced(prep, up, rec);
      && Sound(o, s, x.st, x.log)
      && RunMessageAfterInput(x.r, k.project)
      && (x.r == UserCancelled ==> Seen(x.log))
      && (Seen(x.log) ==> x.r == PrepareFailed || x.r == UpscaleFailed || x.r == UserCancelled)
  {
    if prep.r {
      SoundSeq(o, s, prep.st, up.st, prep.log, up.log);
      QuietConcat(prep.log, up.log);
      if up.r {
        SoundSeq(o, s, up.st, rec.st, prep.log + up.log, rec.log);
        QuietConcat(prep.log + up.log, rec.log);
      }
    }
  }

  lemma PrefixLonger<T>(a: seq<T>, b: seq<T>, c: seq<T>)
    requires IsPrefix(a, b)
    ensures IsPrefix(a, b + c)
  {
    assert (b + c)[..|a|] == b[..|a|];
  }

  lemma SequencedLaunches(prep: Out<bool>, up: Out<bool>, rec: Out<RunMessage>,
                          before: seq<seq<string>>, plan: seq<seq<string>>)
    requires IsPrefix(Launches(prep.log), before) && (prep.r ==> Launches(prep.log) == before)
    requires Launches(up.log) == [] && LaunchEffect(rec, plan)
    ensures var x := Sequenced(prep, up, rec);
      && IsPrefix(Launches(x.log), before + plan)
      && (x.r.DatasetCreated? ==> Launches(x.log) == before + plan)
  {
    if !prep.r {
      PrefixLonger(Launches(prep.log), before, plan);
    } else {
      LaunchesConcat(prep.log, up.log);
      assert Launches(prep.log + up.log) == before;
      if !up.r {
        PrefixLonger(before, before, plan);
      } else {
        LaunchesConcat(prep.log + up.log, rec.log);
        PrefixAppend(before, before, Launches(rec.log), plan);
      }
    }
  }

  lemma {:induction false} AtLeast25Concat(a: seq<int>, b: seq<int>)
    ensures AtLeast25(a + b) == AtLeast25(a) + AtLeast25(b)
  {
    if a != [] {
      assert (a + b)[1..] == a[1..] + b;
      AtLeast25Concat(a[1..], b);
    } else {
      assert a + b == b;
    }
  }

  lemma {:induction false} AtLeast25None(a: seq<int>)
    requires forall v :: v in a ==> v < 25
    ensures AtLeast25(a) == []
  {
    if a != [] {
      assert a[0] in a;
      assert forall v :: v in a[1..] ==> v in a;
      AtLeast25None(a[1..]);
    }
  }

  lemma {:induction false} AtLeast25All(a: seq<int>)
    requires forall v :: v in a ==> v >= 25
    ensures AtLeast25(a) == a
  {
    if a != [] {
      assert a[0] in a;
      assert forall v :: v in a[1..] ==> v in a;
      AtLeast25All(a[1..]);
      assert a == [a[0]] + a[1..];
    }
  }

  /** A prefix of the milestones rises, stays at or above 25, and holds 100 only when
      it is all of them. */
  lemma MilestonePrefix(b: seq<int>)
    requires IsPrefix(b, Milestones)
    ensures NonDecreasing(b)
    ensures forall v :: v in b ==> v in Milestones && v >= 25
    ensures 100 in b <==> b == Milestones
  {
    var m := Milestones;
    assert forall i :: 0 <= i < |b| ==> b[i] == m[i];
    assert NonDecreasing(m) by {
      forall i, j | 0 <= i < j < |m| ensures m[i] <= m[j] {
        assert m[0] == 25 && m[1] == 50 && m[2] == 75 && m[3] == 90 && m[4] == 95 && m[5] == 100;
      }
    }
    forall v | v in b ensures v in m && v >= 25 {
      var i :| 0 <= i < |b| && b[i] == v;
      assert m[i] in m;
    }
    if 100 in b {
      var i :| 0 <= i < |b| && b[i] == 100;
      assert m[0] == 25 && m[1] == 50 && m[2] == 75 && m[3] == 90 && m[4] == 95 && m[5] == 100;
      assert i == 5;
      assert b == m[..6] == m;
    }
    if b == m {
      assert m[5] in m;
    }
  }

  lemma SequencedProgress(prep: Out<bool>, up: Out<bool>, rec: Out<RunMessage>)
    requires NonDecreasing(Progresses(prep.log))
    requires forall v :: v in Progresses(prep.log) ==> 5 <= v <= 19
    requires Progresses(up.log) == [] && ProgressEffect(rec, Milestones)
    ensures ProgressOk(Sequenced(prep, up, rec))
  {
    var a := Progresses(prep.log);
    AtLeast25None(a);
    if prep.r {
      ProgressesConcat(prep.log, up.log);
      if up.r {
        var b := Progresses(rec.log);
        ProgressesConcat(prep.log + up.log, rec.log);
        assert Progresses(prep.log + up.log + rec.log) == a + b;
        JoinedProgress(a, b);
      } else {
        assert Progresses(prep.log + up.log) == a + [];
        assert a + [] == a;
      }
    }
  }

  /** Copy progress, in 5..19 and never going down, followed by a prefix of the
      milestones: the whole never goes down, and its values from 25 up are the
      milestones reached. */
  lemma JoinedProgress(a: seq<int>, b: seq<int>)
    requires NonDecreasing(a) && forall v :: v in a ==> 5 <= v <= 19
    requires IsPrefix(b, Milestones)
    ensures NonDecreasing(a + b)
    ensures forall v :: v in a + b ==> 5 <= v <= 19 || v in Milestones
    ensures IsPrefix(AtLeast25(a + b), Milestones) && AtLeast25(a + b) == b
    ensures 100 in a + b <==> b == Milestones
  {
    AtLeast25None(a);
    MilestonePrefix(b);
    AtLeast25All(b);
    AtLeast25Concat(a, b);
    RisingJoin(a, b);
  }

  /** Two rising sequences, every value of the first below every value of the second. */
  lemma RisingJoin(a: seq<int>, b: seq<int>)
    requires NonDecreasing(a) && NonDecreasing(b)
    requires forall v :: v in a ==> v <= 19
    requires forall v :: v in b ==> v >= 25
    ensures NonDecreasing(a + b)
  {
    forall i, j | 0 <= i < j < |a + b| ensures (a + b)[i] <= (a + b)[j] {
      if j < |a| {
        assert (a + b)[i] == a[i] && (a + b)[j] == a[j];
      } else if i >= |a| {
        assert (a + b)[i] == b[i - |a|] && (a + b)[j] == b[j - |a|];
      } else {
        assert (a + b)[i] == a[i] && a[i] in a;
        assert (a + b)[j] == b[j - |a|] && b[j - |a|] in b;
      }
    }
  }

  /** The input was found: `run` goes on to the three parts. */
  predicate InputFound(t: Setting, fs: FileSystem) {
    var input := t.prep.input;
    && (!t.prep.video ==> input in LayoutFs(t, fs))
    && (t.prep.video && '|' !in input ==> input in LayoutFs(t, fs))
  }

  /** The three parts of a run whose input was found. */
  function Parts(o: Oracles, t: Setting, s: St): Out<RunMessage> {
    var s0 := s.(fs := LayoutFs(t, s.fs));
    var prep := PrepareF(o, t.prep, s0);
    var up := UpscaleStep(o, t, prep.st);
    Sequenced(prep, up, ReconstructF(o, t.stages, up.st))
  }

  lemma RunShape(o: Oracles, t: Setting, s: St)
    ensures var x := RunWith(o, t, s);
      && (InputFound(t, s.fs) ==> x == Parts(o, t, s))
      && (!InputFound(t, s.fs) ==>
            && x.log == [] && x.st == s.(fs := LayoutFs(t, s.fs))
            && x.r.path == t.prep.input
            && (x.r.InputNotFound? <==> !t.prep.video) && (x.r.VideoNotFound? <==> t.prep.video))
  {
  }

  lemma PartsSound(o: Oracles, t: Setting, s: St)
    ensures var x := Parts(o, t, s);
      && Sound(o, s, x.st, x.log)
      && RunMessageAfterInput(x.r, t.stages.project)
      && (x.r == UserCancelled ==> Seen(x.log))
      && (Seen(x.log) ==> x.r == PrepareFailed || x.r == UpscaleFailed || x.r == UserCancelled)
  {
    var s0 := s.(fs := LayoutFs(t, s.fs));
    var prep := PrepareF(o, t.prep, s0);
    var up := UpscaleStep(o, t, prep.st);
    PrepareFacts(o, t.prep, s0);
    UpscaleStepFacts(o, t, prep.st);
    ReconstructFacts(o, t.stages, up.st);
    SequencedSound(o, s0, prep, up, ReconstructF(o, t.stages, up.st), t.stages);
  }

  /** A run is sound, never reports the internal error, reports a cancellation only
      when one was seen, and once one was seen reports it or the failure of the part
      it interrupted. */
  lemma RunSound(o: Oracles, t: Setting, s: St)
    ensures var x := RunWith(o, t, s);
      && Sound(o, s, x.st, x.log)
      && !x.r.Error?
      && (x.r == UserCancelled ==> Seen(x.log))
      && (Seen(x.log) ==> x.r == PrepareFailed || x.r == UpscaleFailed || x.r == UserCancelled)
  {
    RunShape(o, t, s);
    if InputFound(t, s.fs) {
      PartsSound(o, t, s);
    } else {
      SoundQuiet(o, s, s.(fs := LayoutFs(t, s.fs)), []);
    }
  }

  /** The two answers of the input check, each exactly when its input is missing, with
      nothing done but the project layout. */
  lemma RunValidation(o: Oracles, t: Setting, s: St)
    ensures var x := RunWith(o, t, s);
      var input := t.prep.input;
      var fs := LayoutFs(t, s.fs);
      && (x.r.InputNotFound? <==> !t.prep.video && input !in fs)
      && (x.r.VideoNotFound? <==> t.prep.video && '|' !in input && input !in fs)
      && (!InputFound(t, s.fs) ==> x.r.path == input && x.log == [] && x.st == s.(fs := fs))
  {
    RunShape(o, t, s);
    if InputFound(t, s.fs) {
      PartsSound(o, t, s);
    }
  }

  lemma PartsLaunches(o: Oracles, t: Setting, s: St)
    ensures var x := Parts(o, t, s);
      && IsPrefix(Launches(x.log), RunPlan(t, s.fs))
      && (x.r.DatasetCreated? ==> Launches(x.log) == RunPlan(t, s.fs))
  {
    var s0 := s.(fs := LayoutFs(t, s.fs));
    var prep := PrepareF(o, t.prep, s0);
    var up := UpscaleStep(o, t, prep.st);
    PrepareEffects(o, t.prep, s0);
    UpscaleStepFacts(o, t, prep.st);
    ReconstructFacts(o, t.stages, up.st);
    SequencedLaunches(prep, up, ReconstructF(o, t.stages, up.st), PreparePlan(t.prep, s0.fs), ReconstructPlan(t.stages));
  }

  /** The processes a run starts are the planned ones in order, cut short on failure,
      all of them when the dataset is created. */
  lemma RunLaunches(o: Oracles, t: Setting, s: St)
    ensures var x := RunWith(o, t, s);
      && IsPrefix(Launches(x.log), RunPlan(t, s.fs))
      && (x.r.DatasetCreated? ==> Launches(x.log) == RunPlan(t, s.fs))
  {
    RunShape(o, t, s);
    if InputFound(t, s.fs) {
      PartsLaunches(o, t, s);
    }
  }

  /** The progress bar never goes back: values from the image copy (5 to 19), then the
      reconstruction's milestones in order; 100 is reached exactly when the dataset is
      created. */
  predicate ProgressOk(x: Out<RunMessage>) {
    var ps := Progresses(x.log);
    && NonDecreasing(ps)
    && (forall v :: v in ps ==> 5 <= v <= 19 || v in Milestones)
    && IsPrefix(AtLeast25(ps), Milestones)
    && (100 in ps <==> x.r.DatasetCreated?)
  }

  lemma PartsProgress(o: Oracles, t: Setting, s: St)
    ensures ProgressOk(Parts(o, t, s))
  {
    var s0 := s.(fs := LayoutFs(t, s.fs));
    var prep := PrepareF(o, t.prep, s0);
    var up := UpscaleStep(o, t, prep.st);
    PrepareEffects(o, t.prep, s0);
    UpscaleStepFacts(o, t, prep.st);
    ReconstructFacts(o, t.stages, up.st);
    SequencedProgress(prep, up, ReconstructF(o, t.stages, up.st));
  }

  lemma RunProgress(o: Oracles, t: Setting, s: St)
    ensures ProgressOk(RunWith(o, t, s))
  {
    RunShape(o, t, s);
    if InputFound(t, s.fs) {
      PartsProgress(o, t, s);
    }
  }

  lemma PartsComplete(o: Oracles, t: Setting, s: St)
    requires NoCancel(o) && AllSucceed(o)
    requires t.upscale && o.upscaleInstalled ==> o.modelLoads
    ensures Parts(o, t, s).r == DatasetCreated(t.stages.project)
  {
    var s0 := s.(fs := LayoutFs(t, s.fs));
    var prep := PrepareF(o, t.prep, s0);
    PrepareFacts(o, t.prep, s0);
    UpscaleStepFacts(o, t, prep.st);
    ReconstructCompletes(o, t.stages, UpscaleStep(o, t, prep.st).st);
  }

  /** Nobody cancels, every tool succeeds, the input exists and the upscaler, when
      switched on and installed, loads its model: the dataset is created. */
  lemma RunCompletes(o: Oracles, c: Setup, s: St)
    requires NoCancel(o) && AllSucceed(o) && InputFound(SettingOf(c), s.fs)
    requires c.upscaleActive && o.upscaleInstalled ==> o.modelLoads
    ensures RunF(o, c, s).r == DatasetCreated(ProjectDir(c))
  {
    RunShape(o, SettingOf(c), s);
    PartsComplete(o, SettingOf(c), s);
  }
}
