/** The multi-video 4DGS preparation (app/core/four_dgs_engine.py): the sorted video
    scan, one `cam_NN` image directory per video filled by ffmpeg, then either
    ns-process-data or the three COLMAP stages. Processes, the directory listing and the
    moment another thread calls `stop` are inputs; directories created and commands
    started are recorded. */
module FourDGS {
  import opened Text
  import opened Host
  import opened Paths
  import HostSystem

  /** What `process_dataset` and `extract_frames` end with: a boolean, or an exception
      that escapes them (its text). */
  datatype Verdict = Done(ok: bool) | Raised(message: string)

  /** What the engine meets: the names `os.listdir(videos_dir)` returns (None when it
      raises), what the n-th command started meets, the read of `stop_requested` from
      which `stop()` has been called, whether ns-process-data is on PATH, whether the
      host is Apple Silicon, and its core count. */
  datatype FourWorld = FourWorld(
    listing: Option<seq<string>>,
    outcome: nat -> ProcOutcome,
    stopAt: Schedule,
    nerfstudio: bool,
    silicon: bool,
    cpu: Option<nat>)

  /** The engine's state: the stop flag, the number of reads of it so far, the commands
      started (in order, also those that could not be found) and the directories made. */
  datatype St = St(stop: bool, polls: nat, launched: seq<seq<string>>, made: seq<string>)

  /** A step's result, the state after it and the lines it logged. */
  datatype Out<R> = Out(r: R, st: St, log: seq<string>)

  /** The step `x` was taken: `r` is its result, `st` the state after it, and `after`
      is `before` followed by the lines it logged. */
  predicate Follows<R(==)>(x: Out<R>, r: R, st: St, before: seq<string>, after: seq<string>) {
    r == x.r && st == x.st && after == before + x.log
  }

  /** The numbered frame files ffmpeg writes. */
  const FramePattern := "%05d.jpg"
  /** The image directory under a dataset root. */
  const ImagesDir := "images"
  /** The sparse model directory under a dataset root. */
  const SparseDir := "sparse"
  /** The COLMAP database under a dataset root. */
  const DatabaseFile := "database.db"
  const ExecPrefix := "Exec: "
  const ExceptionPrefix := "Exception: "
  const ExtractErrorPrefix := "Erreur extraction "
  const ExtractionHeader := "--- COLMAP: Feature Extraction ---"
  const MatchingHeader := "--- COLMAP: Feature Matching ---"
  const MapperHeader := "--- COLMAP: Mapper (Sparse Reconstruction) ---"
  const ScanPrefix := "Scan du dossier : "
  const NoVideos := "Aucune vidéo trouvée."
  const ExtractionDone := "Extraction terminée."
  const NsDetected := "ns-process-data détecté. Lancement du processing Nerfstudio..."
  const NsFailed := "Echec ns-process-data."
  const NsMissing := "Nerfstudio non trouvé. Lancement mode dégradé (COLMAP manuel uniquement)."

  /** The text of the FileNotFoundError raised for a missing program or directory. */
  function NotFoundText(path: string): string {
    "[Errno 2] No such file or directory: '" + path + "'"
  }

  /** The program a command line names. */
  function Program(argv: seq<string>): string {
    if argv == [] then "" else argv[0]
  }

  /** `repr` of a list of strings, for names without quotes or backslashes. */
  function ListRepr(items: seq<string>): string {
    "[" + Join(Quoted(items), ", ") + "]"
  }

  function Quoted(items: seq<string>): (r: seq<string>)
    ensures |r| == |items|
  {
    if items == [] then [] else ["'" + items[0] + "'"] + Quoted(items[1..])
  }

  /** The names of the signals `signal.Signals` knows, by number, as numbered on macOS. */
  const SignalTable := ["SIGHUP", "SIGINT", "SIGQUIT", "SIGILL", "SIGTRAP", "SIGABRT", "SIGEMT", "SIGFPE",
                        "SIGKILL", "SIGBUS", "SIGSEGV", "SIGSYS", "SIGPIPE", "SIGALRM", "SIGTERM", "SIGURG",
                        "SIGSTOP", "SIGTSTP", "SIGCONT", "SIGCHLD", "SIGTTIN", "SIGTTOU", "SIGIO", "SIGXCPU",
                        "SIGXFSZ", "SIGVTALRM", "SIGPROF", "SIGWINCH", "SIGINFO", "SIGUSR1", "SIGUSR2"]

  function SignalName(n: int): Option<string> {
    if 1 <= n <= |SignalTable| then Some(SignalTable[n - 1]) else None
  }

  /** `str` of the CalledProcessError `check_call` raises for a nonzero exit code: a
      negative code is the signal that killed the process. */
  function CalledProcessErrorText(argv: seq<string>, code: int): string {
    var head := "Command '" + ListRepr(argv) + "' ";
    if code < 0 then
      match SignalName(-code)
      case Some(name) => head + "died with <Signals." + name + ": " + IntToString(-code) + ">."
      case None => head + "died with unknown signal " + IntToString(-code) + "."
    else head + "returned non-zero exit status " + IntToString(code) + "."
  }

  /** A process killed by a signal `signal.Signals` knows: the error names it. */
  lemma KilledByNamedSignal(argv: seq<string>, n: nat, name: string)
    requires n > 0 && SignalName(n) == Some(name)
    ensures CalledProcessErrorText(argv, -(n as int))
      == "Command '" + ListRepr(argv) + "' " + "died with <Signals." + name + ": " + NatToString(n) + ">."
  {
  }

  /** A process killed by a signal number it does not know: the error gives the number. */
  lemma KilledByUnknownSignal(argv: seq<string>, n: nat)
    requires n > 0 && SignalName(n) == None
    ensures CalledProcessErrorText(argv, -(n as int))
      == "Command '" + ListRepr(argv) + "' " + "died with unknown signal " + NatToString(n) + "."
  {
  }

  /** A process that exited with a positive code: the error gives the exit status. */
  lemma ExitedNonZero(argv: seq<string>, n: nat)
    requires n > 0
    ensures CalledProcessErrorText(argv, n)
      == "Command '" + ListRepr(argv) + "' " + "returned non-zero exit status " + NatToString(n) + "."
  {
  }

  /** `terminate()` and `kill()` send SIGTERM (15) and SIGKILL (9); 32 and above name no signal. */
  lemma SignalNames()
    ensures SignalName(15) == Some("SIGTERM") && SignalName(9) == Some("SIGKILL")
    ensures forall n :: n >= 32 ==> SignalName(n) == None
  {
  }

  /** One read of `stop_requested`. A `stop()` from the other thread that has happened
      by now sets the flag, and nothing clears it. */
  function Poll(w: FourWorld, s: St): (r: St)
    ensures r.stop <==> s.stop || CancelledAt(w.stopAt, s.polls)
    ensures r.polls == s.polls + 1 && r.launched == s.launched && r.made == s.made
  {
    s.(stop := s.stop || CancelledAt(w.stopAt, s.polls), polls := s.polls + 1)
  }

  // ---------------------------------------------------------------- _run_cmd

  /** The `while True` loop of `_run_cmd` over the output `lines` of a process that
      exits with `exit`: each turn reads the flag (a set flag terminates the process and
      gives -1), then reads a line; the empty string is the end of the output, after
      which the exit code is returned; other lines are logged stripped. */
  function StreamF(w: FourWorld, s: St, lines: seq<string>, exit: int): (r: Out<int>)
    ensures r.st.launched == s.launched && r.st.made == s.made
    ensures r.st.polls > s.polls && (s.stop ==> r.st.stop)
    decreases |lines|
  {
    var s1 := Poll(w, s);
    if s1.stop then Out(-1, s1, [])
    else if lines == [] || lines[0] == "" then Out(exit, s1, [])
    else
      var rest := StreamF(w, s1, lines[1..], exit);
      Out(rest.r, rest.st, [Strip(lines[0])] + rest.log)
  }

  /** `_run_cmd(cmd)`: -1 when the flag is set, when the command cannot be started
      (the exception is logged) or when the flag is seen set while it runs; otherwise
      the process's exit code. */
  function CmdF(w: FourWorld, s: St, argv: seq<string>): (r: Out<int>)
    ensures r.st.made == s.made && (s.stop ==> r.st.stop)
    ensures r.st.launched == s.launched || r.st.launched == s.launched + [argv]
  {
    var s1 := Poll(w, s);
    if s1.stop then Out(-1, s1, [])
    else
      var s2 := s1.(launched := s1.launched + [argv]);
      var exec := ExecPrefix + Join(argv, " ");
      match w.outcome(|s1.launched|) {
        case NotFound => Out(-1, s2, [exec, ExceptionPrefix + NotFoundText(Program(argv))])
        case Ran(lines, exit) =>
          var o := StreamF(w, s2, lines, exit);
          Out(o.r, o.st, [exec] + o.log)
      }
  }

  /** Once the flag is set, `_run_cmd` starts nothing and returns -1. */
  lemma CmdStopped(w: FourWorld, s: St, argv: seq<string>)
    requires s.stop
    ensures var o := CmdF(w, s, argv);
      o.r == -1 && o.st.launched == s.launched && o.log == [] && o.st.stop
  {
  }

  /** A result other than -1 is the exit code of the command, which was started. */
  lemma CmdExitCode(w: FourWorld, s: St, argv: seq<string>)
    requires CmdF(w, s, argv).r != -1
    ensures var n := |s.launched|;
      && w.outcome(n).Ran? && CmdF(w, s, argv).r == w.outcome(n).exit
      && CmdF(w, s, argv).st.launched == s.launched + [argv]
  {
    var s1 := Poll(w, s);
    var s2 := s1.(launched := s1.launched + [argv]);
    if w.outcome(|s.launched|).Ran? {
      StreamResult(w, s2, w.outcome(|s.launched|).lines, w.outcome(|s.launched|).exit);
    }
  }

  /** The loop returns the exit code or -1, and with no stop ever it returns the code
      after logging every line before the end of the output. */
  lemma {:induction false} StreamResult(w: FourWorld, s: St, lines: seq<string>, exit: int)
    ensures StreamF(w, s, lines, exit).r == -1 || StreamF(w, s, lines, exit).r == exit
    ensures !s.stop && w.stopAt.None? && (forall i :: 0 <= i < |lines| ==> lines[i] != "") ==>
      StreamF(w, s, lines, exit).r == exit && |StreamF(w, s, lines, exit).log| == |lines|
    decreases |lines|
  {
    var s1 := Poll(w, s);
    if !s1.stop && lines != [] && lines[0] != "" {
      StreamResult(w, s1, lines[1..], exit);
    }
  }

  // ---------------------------------------------------------------- extract_frames

  /** The ffmpeg command of `extract_frames`: every frame at `fps` frames per second,
      JPEG quality 2, numbered files in `outDir`. */
  function FrameArgv(ffmpeg: string, video: string, outDir: string, fps: int): (r: seq<string>)
    ensures |r| == 8 && r[0] == ffmpeg && r[2] == video && r[4] == FrameRate(fps)
    ensures r[7] == OsJoin(outDir, FramePattern) && EndsWith(r[7], FramePattern)
  {
    [ffmpeg, "-i", video, "-vf", FrameRate(fps), "-q:v", "2", OsJoin(outDir, FramePattern)]
  }

  /** The video filter `f"fps={fps}"`. */
  function FrameRate(fps: int): string {
    "fps=" + IntToString(fps)
  }

  /** The rate reads back from the filter. */
  lemma FrameRateReadsBack(fps: int)
    ensures StartsWith(FrameRate(fps), "fps=") && ParseInt(FrameRate(fps)[4..]) == Some(fps)
  {
    var rate := FrameRate(fps);
    assert rate[..4] == "fps=" && rate[4..] == IntToString(fps);
    ParseIntToString(fps);
  }

  /** `extract_frames(video_path, output_dir, fps)`: False at once when the flag is set;
      otherwise the directory is made and ffmpeg run; a nonzero code is logged and gives
      False, a missing ffmpeg raises. */
  function ExtractF(w: FourWorld, s: St, ffmpeg: string, video: string, outDir: string, fps: int): (r: Out<Verdict>)
    ensures s.stop ==> r.st.stop
  {
    var s1 := Poll(w, s);
    if s1.stop then Out(Done(false), s1, [])
    else FfmpegF(w, s1, ffmpeg, video, outDir, fps)
  }

  /** The ffmpeg run of `extract_frames` once the flag was read unset: the output
      directory is made, ffmpeg started, and a non-zero code logged. */
  function FfmpegF(w: FourWorld, s: St, ffmpeg: string, video: string, outDir: string, fps: int): (r: Out<Verdict>)
    ensures r.st.stop == s.stop
  {
    var argv := FrameArgv(ffmpeg, video, outDir, fps);
    var s2 := s.(launched := s.launched + [argv], made := s.made + [outDir]);
    match w.outcome(|s.launched|) {
      case NotFound => Out(Raised(NotFoundText(ffmpeg)), s2, [])
      case Ran(_, exit) =>
        if exit == 0 then Out(Done(true), s2, [])
        else Out(Done(false), s2, [ExtractErrorPrefix + video + ": " + CalledProcessErrorText(argv, exit)])
    }
  }

  /** An extraction succeeds exactly when the flag was not set and ffmpeg returned 0;
      it starts ffmpeg exactly when the flag was not set. */
  lemma ExtractSucceeds(w: FourWorld, s: St, ffmpeg: string, video: string, outDir: string, fps: int)
    ensures var o := ExtractF(w, s, ffmpeg, video, outDir, fps);
      var n := |s.launched|;
      && (o.r == Done(true) <==> !Poll(w, s).stop && w.outcome(n).Ran? && w.outcome(n).exit == 0)
      && (o.st.launched == s.launched + [FrameArgv(ffmpeg, video, outDir, fps)] <==> !Poll(w, s).stop)
      && (Poll(w, s).stop ==> o.st.launched == s.launched && o.r == Done(false))
  {
  }

  // ---------------------------------------------------------------- run_colmap

  /** The feature extractor command: OPENCV cameras, one shared camera, and no GPU
      SIFT on Apple Silicon. */
  function ExtractorArgv(colmap: string, root: string, silicon: bool): (r: seq<string>)
    ensures |r| >= 2 && r[..2] == [colmap, "feature_extractor"]
    ensures (r[|r| - 1] == "--SiftExtraction.use_gpu=0") <==> silicon
  {
    [colmap, "feature_extractor",
     "--database_path", OsJoin(root, DatabaseFile),
     "--image_path", OsJoin(root, ImagesDir),
     "--ImageReader.camera_model", "OPENCV",
     "--ImageReader.single_camera", "1"]
      + (if silicon then ["--SiftExtraction.use_gpu=0"] else [])
  }

  /** The exhaustive matcher command, without GPU matching on Apple Silicon. */
  function MatcherArgv(colmap: string, root: string, silicon: bool): (r: seq<string>)
    ensures |r| >= 2 && r[..2] == [colmap, "exhaustive_matcher"]
    ensures (r[|r| - 1] == "--SiftMatching.use_gpu=0") <==> silicon
  {
    [colmap, "exhaustive_matcher", "--database_path", OsJoin(root, DatabaseFile)]
      + (if silicon then ["--SiftMatching.use_gpu=0"] else [])
  }

  /** The mapper command, writing into `sparse` with the given thread count. */
  function MapperArgv(colmap: string, root: string, threads: nat): (r: seq<string>)
    ensures |r| == 9 && r[0] == colmap && r[1] == "mapper" && r[7] == OsJoin(root, SparseDir)
    ensures r[|r| - 1] == "--Mapper.num_threads=" + NatToString(threads)
  {
    [colmap, "mapper",
     "--database_path", OsJoin(root, DatabaseFile),
     "--image_path", OsJoin(root, ImagesDir),
     "--output_path", OsJoin(root, SparseDir),
     "--Mapper.num_threads=" + NatToString(threads)]
  }

  /** The three stages of `run_colmap`, each with the header logged before it. */
  function ColmapStages(colmap: string, root: string, silicon: bool, threads: nat): (r: seq<(string, seq<string>)>)
    ensures |r| == 3
  {
    [(ExtractionHeader, ExtractorArgv(colmap, root, silicon)),
     (MatchingHeader, MatcherArgv(colmap, root, silicon)),
     (MapperHeader, MapperArgv(colmap, root, threads))]
  }

  function Argvs(stages: seq<(string, seq<string>)>): (r: seq<seq<string>>)
    ensures |r| == |stages|
  {
    if stages == [] then [] else [stages[0].1] + Argvs(stages[1..])
  }

  /** Stages run one after the other, each announced by its header; the first that
      does not return 0 ends the run with False. */
  function StagesF(w: FourWorld, s: St, stages: seq<(string, seq<string>)>): (r: Out<bool>)
    ensures r.st.made == s.made && (s.stop ==> r.st.stop)
    decreases |stages|
  {
    if stages == [] then Out(true, s, [])
    else
      var c := CmdF(w, s, stages[0].1);
      if c.r != 0 then Out(false, c.st, [stages[0].0] + c.log)
      else
        var rest := StagesF(w, c.st, stages[1..]);
        Out(rest.r, rest.st, [stages[0].0] + c.log + rest.log)
  }

  /** `after` is `before` followed by the first few of `cmds`, all of them when `whole`. */
  predicate StartedPrefix(before: seq<seq<string>>, after: seq<seq<string>>, cmds: seq<seq<string>>, whole: bool) {
    && |before| <= |after| <= |before| + |cmds|
    && after == before + cmds[..|after| - |before|]
    && (whole ==> |after| == |before| + |cmds|)
  }

  lemma StartedNone(before: seq<seq<string>>, cmds: seq<seq<string>>, whole: bool)
    requires whole ==> cmds == []
    ensures StartedPrefix(before, before, cmds, whole)
  {
    assert before + cmds[..0] == before;
  }

  lemma StartedFirst(before: seq<seq<string>>, a: seq<string>, tail: seq<seq<string>>, whole: bool)
    requires whole ==> tail == []
    ensures StartedPrefix(before, before + [a], [a] + tail, whole)
  {
    assert ([a] + tail)[..1] == [a];
  }

  lemma StartedCons(before: seq<seq<string>>, a: seq<string>, after: seq<seq<string>>, tail: seq<seq<string>>, whole: bool)
    requires StartedPrefix(before + [a], after, tail, whole)
    ensures StartedPrefix(before, after, [a] + tail, whole)
  {
    var m := |after| - |before| - 1;
    assert ([a] + tail)[..m + 1] == [a] + tail[..m];
    assert before + [a] + tail[..m] == before + ([a] + tail[..m]);
  }

  lemma StartedGrows(before: seq<seq<string>>, after: seq<seq<string>>, cmds: seq<seq<string>>, whole: bool)
    requires StartedPrefix(before, after, cmds, whole)
    ensures |after| >= |before| && after[..|before|] == before
    ensures whole ==> after == before + cmds
  {
    var m := |after| - |before|;
    assert after[..|before|] == before;
    if whole {
      assert cmds[..m] == cmds;
    }
  }

  /** The stages start their commands in order and stop at the first failure: what is
      started is a prefix of the stage commands, all of them when the result is True. */
  lemma {:induction false} StagesInOrder(w: FourWorld, s: St, stages: seq<(string, seq<string>)>)
    ensures var o := StagesF(w, s, stages);
      StartedPrefix(s.launched, o.st.launched, Argvs(stages), o.r)
    decreases |stages|
  {
    if stages != [] {
      var c := CmdF(w, s, stages[0].1);
      var tail := Argvs(stages[1..]);
      assert Argvs(stages) == [stages[0].1] + tail;
      if c.r != 0 {
        if c.st.launched == s.launched {
          StartedNone(s.launched, Argvs(stages), false);
        } else {
          StartedFirst(s.launched, stages[0].1, tail, false);
        }
      } else {
        CmdExitCode(w, s, stages[0].1);
        StagesInOrder(w, c.st, stages[1..]);
        var o := StagesF(w, c.st, stages[1..]);
        StartedCons(s.launched, stages[0].1, o.st.launched, tail, o.r);
      }
    } else {
      StartedNone(s.launched, [], StagesF(w, s, stages).r);
    }
  }

  /** When the stages succeed, every command they started returned 0. */
  lemma {:induction false} StagesSucceeded(w: FourWorld, s: St, stages: seq<(string, seq<string>)>)
    ensures StagesF(w, s, stages).r ==>
      forall i :: |s.launched| <= i < |s.launched| + |stages| ==> w.outcome(i).Ran? && w.outcome(i).exit == 0
    decreases |stages|
  {
    if stages != [] {
      var c := CmdF(w, s, stages[0].1);
      if c.r == 0 {
        CmdExitCode(w, s, stages[0].1);
        StagesSucceeded(w, c.st, stages[1..]);
        assert |c.st.launched| == |s.launched| + 1;
      }
    }
  }

  /** `run_colmap(dataset_root)`: False at once when the flag is set; otherwise
      `sparse` is made and the three stages run. */
  function ColmapF(w: FourWorld, s: St, colmap: string, root: string): (r: Out<bool>)
    ensures s.stop ==> r.st.stop
  {
    var s1 := Poll(w, s);
    if s1.stop then Out(false, s1, [])
    else
      var threads := HostSystem.OptimalThreads(w.silicon, w.cpu);
      StagesF(w, s1.(made := s1.made + [OsJoin(root, SparseDir)]), ColmapStages(colmap, root, w.silicon, threads))
  }

  /** Once the flag is set, `run_colmap` starts nothing and returns False. */
  lemma ColmapStopped(w: FourWorld, s: St, colmap: string, root: string)
    requires s.stop
    ensures var o := ColmapF(w, s, colmap, root);
      !o.r && o.st.launched == s.launched && o.st.made == s.made && o.st.stop
  {
  }

  // ---------------------------------------------------------------- process_dataset

  /** The names `process_dataset` takes for videos: lowercase ending .mp4, .mov, .avi or
      .mkv. */
  predicate IsVideo(name: string) {
    var l := Lower(name);
    EndsWith(l, ".mp4") || EndsWith(l, ".mov") || EndsWith(l, ".avi") || EndsWith(l, ".mkv")
  }

  function VideoFilter(names: seq<string>): (r: seq<string>)
    ensures forall n :: n in r <==> n in names && IsVideo(n)
  {
    if names == [] then []
    else
      var head: seq<string> := if IsVideo(names[0]) then [names[0]] else [];
      head + VideoFilter(names[1..])
  }

  /** The videos, sorted: exactly the video names of the listing, each as often as it is
      listed, in order. */
  function Videos(names: seq<string>): (r: seq<string>)
    ensures Sorted(r) && multiset(r) == multiset(VideoFilter(names))
    ensures forall n :: n in r <==> n in names && IsVideo(n)
  {
    var r := Sort(VideoFilter(names));
    assert forall n :: n in r <==> n in multiset(r);
    r
  }

  /** `f"{n:02d}"` for a count: at least two digits. */
  function Pad2(n: nat): string {
    if n < 10 then "0" + NatToString(n) else NatToString(n)
  }

  /** `f"cam_{idx:02d}"` */
  function CamName(idx: nat): string {
    "cam_" + Pad2(idx)
  }

  lemma DigitsLeadingZero(x: string)
    requires forall i :: 0 <= i < |x| ==> IsDigit(x[i]) || x[i] == '_'
    ensures var z := "0" + x;
      (forall i :: 0 <= i < |z| ==> IsDigit(z[i]) || z[i] == '_') && DigitsValue(z) == DigitsValue(x)
    decreases |x|
  {
    var z := "0" + x;
    if x != [] {
      DigitsLeadingZero(x[..|x| - 1]);
      assert z[..|z| - 1] == "0" + x[..|x| - 1];
    }
  }

  lemma Pad2Value(n: nat)
    ensures WellFormedDigits(Pad2(n)) && DigitsValue(Pad2(n)) == n
  {
    DigitsValueOfNat(n);
    if n < 10 {
      var d := NatToString(n);
      var p := Pad2(n);
      DigitsLeadingZero(d);
      assert p[0] == '0' && p[|p| - 1] == d[|d| - 1];
      assert forall i :: 0 <= i < |p| - 1 ==> p[i] != '_';
    }
  }

  /** `int` reads the padded number back. */
  lemma Pad2ReadsBack(n: nat)
    ensures ParseInt(Pad2(n)) == Some(n)
  {
    var p := Pad2(n);
    Pad2Value(n);
    EdgesStrip(p);
    assert p[0] != '-' && p[0] != '+';
  }

  /** The number reads back from the camera directory's name, which starts "cam_". */
  lemma CamNameReadsBack(idx: nat)
    ensures StartsWith(CamName(idx), "cam_") && ParseInt(CamName(idx)[4..]) == Some(idx)
  {
    var c := CamName(idx);
    assert c[..4] == "cam_" && c[4..] == Pad2(idx);
    Pad2ReadsBack(idx);
  }

  /** Different videos get different camera directories. */
  lemma CamNamesDistinct(i: nat, j: nat)
    requires i != j
    ensures CamName(i) != CamName(j)
  {
    CamNameReadsBack(i);
    CamNameReadsBack(j);
  }

  /** Up to 100 videos, the camera directory names are "cam_" and two digits. */
  lemma CamNameTwoDigits(idx: nat)
    requires idx < 100
    ensures |CamName(idx)| == 6
  {
    if idx >= 10 {
      assert NatToString(idx) == NatToString(idx / 10) + [DigitChar(idx % 10)];
    }
  }

  /** The line logged before extracting a video. */
  function ExtractLine(video: string, cam: string, fps: int): string {
    "Extraction " + video + " -> " + cam + " (" + IntToString(fps) + " fps)..."
  }

  /** The line logged once the videos are counted. */
  function FoundLine(n: nat): string {
    "Trouvé " + NatToString(n) + " vidéos. Début extraction..."
  }

  /** The extraction loop from video `idx` on: the flag is read before each video, the
      k-th video goes into `images/cam_{k:02d}`, and the first extraction that does not
      succeed ends the loop with its verdict. */
  function ExtractAllF(w: FourWorld, s: St, ffmpeg: string, videosDir: string, imagesRoot: string,
                       videos: seq<string>, idx: nat, fps: int): (r: Out<Verdict>)
    ensures s.stop ==> r.st.stop
    decreases |videos| - idx
  {
    if idx >= |videos| then Out(Done(true), s, [])
    else
      var s1 := Poll(w, s);
      if s1.stop then Out(Done(false), s1, [])
      else
        var cam := CamName(idx);
        var line := ExtractLine(videos[idx], cam, fps);
        var x := ExtractF(w, s1, ffmpeg, OsJoin(videosDir, videos[idx]), OsJoin(imagesRoot, cam), fps);
        if x.r != Done(true) then Out(x.r, x.st, [line] + x.log)
        else
          var rest := ExtractAllF(w, x.st, ffmpeg, videosDir, imagesRoot, videos, idx + 1, fps);
          Out(rest.r, rest.st, [line] + x.log + rest.log)
  }

  /** ffmpeg missing: the FileNotFoundError propagates, nothing is logged. */
  lemma FfmpegMissing(w: FourWorld, s: St, ffmpeg: string, video: string, outDir: string, fps: int)
    requires w.outcome(|s.launched|).NotFound?
    ensures FfmpegF(w, s, ffmpeg, video, outDir, fps)
      == Out(Raised(NotFoundText(ffmpeg)), s.(launched := s.launched + [FrameArgv(ffmpeg, video, outDir, fps)], made := s.made + [outDir]), [])
  {
  }

  /** ffmpeg exits 0: True, nothing logged. */
  lemma FfmpegSucceeded(w: FourWorld, s: St, ffmpeg: string, video: string, outDir: string, fps: int)
    requires w.outcome(|s.launched|).Ran? && w.outcome(|s.launched|).exit == 0
    ensures FfmpegF(w, s, ffmpeg, video, outDir, fps)
      == Out(Done(true), s.(launched := s.launched + [FrameArgv(ffmpeg, video, outDir, fps)], made := s.made + [outDir]), [])
  {
  }

  /** A non-zero exit of ffmpeg: False, with the error line logged. */
  lemma FfmpegFailed(w: FourWorld, s: St, ffmpeg: string, video: string, outDir: string, fps: int,
                     exit: int, line: string)
    requires w.outcome(|s.launched|).Ran? && w.outcome(|s.launched|).exit == exit && exit != 0
    requires line == ExtractErrorPrefix + video + ": " + CalledProcessErrorText(FrameArgv(ffmpeg, video, outDir, fps), exit)
    ensures FfmpegF(w, s, ffmpeg, video, outDir, fps)
      == Out(Done(false), s.(launched := s.launched + [FrameArgv(ffmpeg, video, outDir, fps)], made := s.made + [outDir]), [line])
  {
  }

  /** The ffmpeg commands for the videos from `lo` up to, not including, `hi`. */
  function FrameArgvs(ffmpeg: string, videosDir: string, imagesRoot: string, videos: seq<string>,
                      lo: nat, hi: nat, fps: int): (r: seq<seq<string>>)
    requires lo <= hi <= |videos|
    ensures |r| == hi - lo
    decreases hi - lo
  {
    if lo == hi then []
    else
      [FrameArgv(ffmpeg, OsJoin(videosDir, videos[lo]), OsJoin(imagesRoot, CamName(lo)), fps)]
        + FrameArgvs(ffmpeg, videosDir, imagesRoot, videos, lo + 1, hi, fps)
  }

  /** The loop extracts the videos in sorted order into their own camera directories:
      what it starts is the ffmpeg commands of the first few videos from `idx` on, all
      of them when it succeeds. */
  lemma {:induction false} ExtractAllInOrder(w: FourWorld, s: St, ffmpeg: string, videosDir: string, imagesRoot: string,
                                             videos: seq<string>, idx: nat, fps: int)
    requires idx <= |videos|
    ensures var o := ExtractAllF(w, s, ffmpeg, videosDir, imagesRoot, videos, idx, fps);
      StartedPrefix(s.launched, o.st.launched, FrameArgvs(ffmpeg, videosDir, imagesRoot, videos, idx, |videos|, fps), o.r == Done(true))
    decreases |videos| - idx
  {
    if idx == |videos| {
      InOrderEnd(w, s, ffmpeg, videosDir, imagesRoot, videos, idx, fps);
    } else if Poll(w, s).stop || Poll(w, Poll(w, s)).stop {
      InOrderStopped(w, s, ffmpeg, videosDir, imagesRoot, videos, idx, fps);
    } else if ExtractF(w, Poll(w, s), ffmpeg, OsJoin(videosDir, videos[idx]), OsJoin(imagesRoot, CamName(idx)), fps).r != Done(true) {
      InOrderFirstFails(w, s, ffmpeg, videosDir, imagesRoot, videos, idx, fps);
    } else {
      ExtractAllInOrder(w, ExtractF(w, Poll(w, s), ffmpeg, OsJoin(videosDir, videos[idx]), OsJoin(imagesRoot, CamName(idx)), fps).st, ffmpeg, videosDir, imagesRoot, videos, idx + 1, fps);
      InOrderNext(w, s, ffmpeg, videosDir, imagesRoot, videos, idx, fps);
    }
  }

  /** Past the last video nothing more is started. */
  lemma InOrderEnd(w: FourWorld, s: St, ffmpeg: string, videosDir: string, imagesRoot: string,
                 videos: seq<string>, idx: nat, fps: int)
    requires idx == |videos|
    ensures var o := ExtractAllF(w, s, ffmpeg, videosDir, imagesRoot, videos, idx, fps);
      StartedPrefix(s.launched, o.st.launched, FrameArgvs(ffmpeg, videosDir, imagesRoot, videos, idx, |videos|, fps), o.r == Done(true))
  {
    StartedNone(s.launched, [], true);
  }

  /** The flag read set before the video's extraction (or by it): nothing more started. */
  lemma InOrderStopped(w: FourWorld, s: St, ffmpeg: string, videosDir: string, imagesRoot: string,
                 videos: seq<string>, idx: nat, fps: int)
    requires idx < |videos| && (Poll(w, s).stop || Poll(w, Poll(w, s)).stop)
    ensures var o := ExtractAllF(w, s, ffmpeg, videosDir, imagesRoot, videos, idx, fps);
      StartedPrefix(s.launched, o.st.launched, FrameArgvs(ffmpeg, videosDir, imagesRoot, videos, idx, |videos|, fps), o.r == Done(true))
  {
    StartedNone(s.launched, FrameArgvs(ffmpeg, videosDir, imagesRoot, videos, idx, |videos|, fps), false);
  }

  /** The video's extraction started its command and did not succeed: the loop ends there. */
  lemma InOrderFirstFails(w: FourWorld, s: St, ffmpeg: string, videosDir: string, imagesRoot: string,
                 videos: seq<string>, idx: nat, fps: int)
    requires idx < |videos| && !Poll(w, s).stop && !Poll(w, Poll(w, s)).stop
    requires ExtractF(w, Poll(w, s), ffmpeg, OsJoin(videosDir, videos[idx]), OsJoin(imagesRoot, CamName(idx)), fps).r != Done(true)
    ensures var o := ExtractAllF(w, s, ffmpeg, videosDir, imagesRoot, videos, idx, fps);
      StartedPrefix(s.launched, o.st.launched, FrameArgvs(ffmpeg, videosDir, imagesRoot, videos, idx, |videos|, fps), o.r == Done(true))
  {
    var video := OsJoin(videosDir, videos[idx]);
    var camDir := OsJoin(imagesRoot, CamName(idx));
    var a := FrameArgv(ffmpeg, video, camDir, fps);
    var tail := FrameArgvs(ffmpeg, videosDir, imagesRoot, videos, idx + 1, |videos|, fps);
    ExtractStarted(w, Poll(w, s), ffmpeg, video, camDir, fps);
    StartedFirst(s.launched, a, tail, false);
  }

  /** The video's extraction started its command and succeeded: the rest of the loop follows. */
  lemma InOrderNext(w: FourWorld, s: St, ffmpeg: string, videosDir: string, imagesRoot: string,
                 videos: seq<string>, idx: nat, fps: int)
    requires idx < |videos| && !Poll(w, s).stop && !Poll(w, Poll(w, s)).stop
    requires ExtractF(w, Poll(w, s), ffmpeg, OsJoin(videosDir, videos[idx]), OsJoin(imagesRoot, CamName(idx)), fps).r == Done(true)
    requires var x := ExtractF(w, Poll(w, s), ffmpeg, OsJoin(videosDir, videos[idx]), OsJoin(imagesRoot, CamName(idx)), fps);
      var rest := ExtractAllF(w, x.st, ffmpeg, videosDir, imagesRoot, videos, idx + 1, fps);
      StartedPrefix(x.st.launched, rest.st.launched, FrameArgvs(ffmpeg, videosDir, imagesRoot, videos, idx + 1, |videos|, fps), rest.r == Done(true))
    ensures var o := ExtractAllF(w, s, ffmpeg, videosDir, imagesRoot, videos, idx, fps);
      StartedPrefix(s.launched, o.st.launched, FrameArgvs(ffmpeg, videosDir, imagesRoot, videos, idx, |videos|, fps), o.r == Done(true))
  {
    var video := OsJoin(videosDir, videos[idx]);
    var camDir := OsJoin(imagesRoot, CamName(idx));
    var x := ExtractF(w, Poll(w, s), ffmpeg, video, camDir, fps);
    var a := FrameArgv(ffmpeg, video, camDir, fps);
    var tail := FrameArgvs(ffmpeg, videosDir, imagesRoot, videos, idx + 1, |videos|, fps);
    var rest := ExtractAllF(w, x.st, ffmpeg, videosDir, imagesRoot, videos, idx + 1, fps);
    ExtractStarted(w, Poll(w, s), ffmpeg, video, camDir, fps);
    StartedCons(s.launched, a, rest.st.launched, tail, rest.r == Done(true));
  }

  /** An extraction that was not stopped started its ffmpeg command. */
  lemma ExtractStarted(w: FourWorld, s: St, ffmpeg: string, video: string, outDir: string, fps: int)
    requires !Poll(w, s).stop
    ensures ExtractF(w, s, ffmpeg, video, outDir, fps).st.launched == s.launched + [FrameArgv(ffmpeg, video, outDir, fps)]
  {
  }

  /** The command ns-process-data is given: the images directory and the output. */
  function NsArgv(imagesRoot: string, out: string): seq<string> {
    ["ns-process-data", "images", "--data", imagesRoot, "--output-dir", out, "--verbose"]
  }

  /** After the extraction: ns-process-data when it is on PATH, its exit code 0 being
      success; otherwise `run_colmap` on the output directory. */
  function FinishF(w: FourWorld, s: St, colmap: string, imagesRoot: string, out: string): (r: Out<Verdict>)
    ensures r.r.Done?
  {
    if w.nerfstudio then
      var c := CmdF(w, s, NsArgv(imagesRoot, out));
      if c.r != 0 then Out(Done(false), c.st, [NsDetected] + c.log + [NsFailed])
      else Out(Done(true), c.st, [NsDetected] + c.log)
    else
      var c := ColmapF(w, s, colmap, out);
      Out(Done(c.r), c.st, [NsMissing] + c.log)
  }

  /** With ns-process-data the result is whether it returned 0, and no COLMAP command is
      started; without it the result is that of `run_colmap`. */
  lemma FinishChoice(w: FourWorld, s: St, colmap: string, imagesRoot: string, out: string)
    ensures var o := FinishF(w, s, colmap, imagesRoot, out);
      && (w.nerfstudio ==>
            o.r == Done(CmdF(w, s, NsArgv(imagesRoot, out)).r == 0)
            && (o.st.launched == s.launched || o.st.launched == s.launched + [NsArgv(imagesRoot, out)]))
      && (!w.nerfstudio ==> o.r == Done(ColmapF(w, s, colmap, out).r) && o.st == ColmapF(w, s, colmap, out).st)
  {
  }

  /** `process_dataset(videos_dir, output_dir, fps)` */
  function ProcessF(w: FourWorld, s: St, ffmpeg: string, colmap: string, videosDir: string, out: string, fps: int): Out<Verdict> {
    var scan := [ScanPrefix + videosDir];
    match w.listing {
      case None => Out(Raised(NotFoundText(videosDir)), s, scan)
      case Some(names) =>
        var videos := Videos(names);
        if videos == [] then Out(Done(false), s, scan + [NoVideos])
        else
          var o := ProcessVideosF(w, s, ffmpeg, colmap, videosDir, out, fps, videos);
          Out(o.r, o.st, scan + [FoundLine(|videos|)] + o.log)
    }
  }

  /** The rest of `process_dataset` once videos were found: the image directory is made,
      the frames are extracted, and only on success the COLMAP steps run. */
  function ProcessVideosF(w: FourWorld, s: St, ffmpeg: string, colmap: string, videosDir: string, out: string, fps: int,
                          videos: seq<string>): Out<Verdict> {
    var imagesRoot := OsJoin(out, ImagesDir);
    var e := ExtractAllF(w, s.(made := s.made + [imagesRoot]), ffmpeg, videosDir, imagesRoot, videos, 0, fps);
    if e.r != Done(true) then e
    else
      var f := FinishF(w, e.st, colmap, imagesRoot, out);
      Out(f.r, f.st, e.log + [ExtractionDone] + f.log)
  }

  /** Without videos the run is False and starts nothing. */
  lemma ProcessNoVideos(w: FourWorld, s: St, ffmpeg: string, colmap: string, videosDir: string, out: string, fps: int)
    requires w.listing.Some? && forall i :: 0 <= i < |w.listing.value| ==> !IsVideo(w.listing.value[i])
    ensures var o := ProcessF(w, s, ffmpeg, colmap, videosDir, out, fps);
      o.r == Done(false) && o.st == s && o.log == [ScanPrefix + videosDir, NoVideos]
  {
    VideosNone(w.listing.value);
  }

  /** A listing without a video name has no videos. */
  lemma VideosNone(names: seq<string>)
    requires forall i :: 0 <= i < |names| ==> !IsVideo(names[i])
    ensures Videos(names) == []
  {
    FilterNone(names);
    assert |multiset(Videos(names))| == 0;
  }

  lemma {:induction false} FilterNone(names: seq<string>)
    requires forall i :: 0 <= i < |names| ==> !IsVideo(names[i])
    ensures VideoFilter(names) == []
    decreases |names|
  {
    if names != [] {
      assert forall i :: 0 <= i < |names[1..]| ==> names[1..][i] == names[i + 1];
      FilterNone(names[1..]);
    }
  }

  /** Once the flag is set, `process_dataset` starts nothing: it ends False (or with the
      listing's exception). */
  lemma ProcessStopped(w: FourWorld, s: St, ffmpeg: string, colmap: string, videosDir: string, out: string, fps: int)
    requires s.stop
    ensures var o := ProcessF(w, s, ffmpeg, colmap, videosDir, out, fps);
      o.st.launched == s.launched && (w.listing.Some? ==> o.r == Done(false))
  {
  }

  /** A successful run extracted every video, in sorted order, before anything else. */
  lemma ProcessExtractsAll(w: FourWorld, s: St, ffmpeg: string, colmap: string, videosDir: string, out: string, fps: int)
    requires ProcessF(w, s, ffmpeg, colmap, videosDir, out, fps).r == Done(true)
    ensures w.listing.Some?
    ensures var videos := Videos(w.listing.value);
      var all := FrameArgvs(ffmpeg, videosDir, OsJoin(out, ImagesDir), videos, 0, |videos|, fps);
      var launched := ProcessF(w, s, ffmpeg, colmap, videosDir, out, fps).st.launched;
      videos != [] && |launched| >= |s.launched| + |all| && launched[..|s.launched| + |all|] == s.launched + all
  {
    ProcessParts(w, s, ffmpeg, colmap, videosDir, out, fps);
    VideosExtractsAll(w, s, ffmpeg, colmap, videosDir, out, fps, Videos(w.listing.value));
  }

  /** A successful run had videos and ends where the part after finding them ends. */
  lemma ProcessParts(w: FourWorld, s: St, ffmpeg: string, colmap: string, videosDir: string, out: string, fps: int)
    requires ProcessF(w, s, ffmpeg, colmap, videosDir, out, fps).r == Done(true)
    ensures w.listing.Some? && Videos(w.listing.value) != []
    ensures var o := ProcessVideosF(w, s, ffmpeg, colmap, videosDir, out, fps, Videos(w.listing.value));
      o.r == Done(true) && ProcessF(w, s, ffmpeg, colmap, videosDir, out, fps).st == o.st
  {
  }

  /** After the videos were found, a success extracted every one of them, in order,
      before anything else was started. */
  lemma VideosExtractsAll(w: FourWorld, s: St, ffmpeg: string, colmap: string, videosDir: string, out: string, fps: int,
                          videos: seq<string>)
    requires ProcessVideosF(w, s, ffmpeg, colmap, videosDir, out, fps, videos).r == Done(true)
    ensures var all := FrameArgvs(ffmpeg, videosDir, OsJoin(out, ImagesDir), videos, 0, |videos|, fps);
      var launched := ProcessVideosF(w, s, ffmpeg, colmap, videosDir, out, fps, videos).st.launched;
      |launched| >= |s.launched| + |all| && launched[..|s.launched| + |all|] == s.launched + all
  {
    var imagesRoot := OsJoin(out, ImagesDir);
    var s0 := s.(made := s.made + [imagesRoot]);
    VideosParts(w, s, ffmpeg, colmap, videosDir, out, fps, videos);
    var e := ExtractAllF(w, s0, ffmpeg, videosDir, imagesRoot, videos, 0, fps);
    var all := FrameArgvs(ffmpeg, videosDir, imagesRoot, videos, 0, |videos|, fps);
    var launched := ProcessVideosF(w, s, ffmpeg, colmap, videosDir, out, fps, videos).st.launched;
    ExtractedAll(w, s0, ffmpeg, videosDir, imagesRoot, fps, videos, e, all);
    FinishedAfter(w, e.st, colmap, imagesRoot, out, launched);
    PrefixThenGrows(s0.launched, e.st.launched, launched, all);
  }

  /** A successful extraction (`e`) started exactly the commands `all`, in order. */
  lemma ExtractedAll(w: FourWorld, s0: St, ffmpeg: string, videosDir: string, imagesRoot: string, fps: int,
                     videos: seq<string>, e: Out<Verdict>, all: seq<seq<string>>)
    requires e == ExtractAllF(w, s0, ffmpeg, videosDir, imagesRoot, videos, 0, fps) && e.r == Done(true)
    requires all == FrameArgvs(ffmpeg, videosDir, imagesRoot, videos, 0, |videos|, fps)
    ensures StartedPrefix(s0.launched, e.st.launched, all, true)
  {
    ExtractAllInOrder(w, s0, ffmpeg, videosDir, imagesRoot, videos, 0, fps);
  }

  /** The last step only adds to the commands started before it (`launched` is the list after it). */
  lemma FinishedAfter(w: FourWorld, st: St, colmap: string, imagesRoot: string, out: string,
                      launched: seq<seq<string>>)
    requires launched == FinishF(w, st, colmap, imagesRoot, out).st.launched
    ensures |launched| >= |st.launched| && launched[..|st.launched|] == st.launched
  {
    FinishGrows(w, st, colmap, imagesRoot, out);
  }

  /** All of `cmds` started, then more after them: the whole begins with `cmds`. */
  lemma PrefixThenGrows(a: seq<seq<string>>, b: seq<seq<string>>, c: seq<seq<string>>, cmds: seq<seq<string>>)
    requires StartedPrefix(a, b, cmds, true) && |c| >= |b| && c[..|b|] == b
    ensures |c| >= |a| + |cmds| && c[..|a| + |cmds|] == a + cmds
  {
    StartedGrows(a, b, cmds, true);
    GrowsAfter(a, cmds, b, c);
  }

  /** A success after the videos were found: the extraction succeeded, and the run ends
      where the steps after it end. */
  lemma VideosParts(w: FourWorld, s: St, ffmpeg: string, colmap: string, videosDir: string, out: string, fps: int,
                    videos: seq<string>)
    requires ProcessVideosF(w, s, ffmpeg, colmap, videosDir, out, fps, videos).r == Done(true)
    ensures var imagesRoot := OsJoin(out, ImagesDir);
      var e := ExtractAllF(w, s.(made := s.made + [imagesRoot]), ffmpeg, videosDir, imagesRoot, videos, 0, fps);
      e.r == Done(true) && ProcessVideosF(w, s, ffmpeg, colmap, videosDir, out, fps, videos).st == FinishF(w, e.st, colmap, imagesRoot, out).st
  {
  }

  /** A sequence that begins with `b = a + all` begins with `a + all`. */
  lemma GrowsAfter<T>(a: seq<T>, all: seq<T>, b: seq<T>, c: seq<T>)
    requires b == a + all && |c| >= |b| && c[..|b|] == b
    ensures |c| >= |a| + |all| && c[..|a| + |all|] == a + all
  {
  }

  /** What runs after the extraction only adds to the commands started. */
  lemma FinishGrows(w: FourWorld, s: St, colmap: string, imagesRoot: string, out: string)
    ensures var o := FinishF(w, s, colmap, imagesRoot, out);
      |o.st.launched| >= |s.launched| && o.st.launched[..|s.launched|] == s.launched
  {
    if !w.nerfstudio {
      var s1 := Poll(w, s);
      if !s1.stop {
        var threads := HostSystem.OptimalThreads(w.silicon, w.cpu);
        var stages := ColmapStages(colmap, out, w.silicon, threads);
        var s2 := s1.(made := s1.made + [OsJoin(out, SparseDir)]);
        StagesInOrder(w, s2, stages);
        StartedGrows(s2.launched, StagesF(w, s2, stages).st.launched, Argvs(stages), StagesF(w, s2, stages).r);
      }
    }
  }

  // ---------------------------------------------------------------- the engine object

  class FourDGSEngine {
    /** `resolve_binary("ffmpeg") or "ffmpeg"` */
    const ffmpeg: string
    /** `resolve_binary("colmap") or "colmap"` */
    const colmap: string
    const world: FourWorld
    var stopRequested: bool
    /** The number of reads of `stop_requested` so far. */
    var polls: nat
    var launched: seq<seq<string>>
    var made: seq<string>
    /** The messages sent to the logger, oldest first. */
    var log: seq<string>

    constructor (ffmpegBin: Option<string>, colmapBin: Option<string>, w: FourWorld)
      ensures ffmpeg == (if ffmpegBin.Some? then ffmpegBin.value else "ffmpeg")
      ensures colmap == (if colmapBin.Some? then colmapBin.value else "colmap")
      ensures world == w && !stopRequested && polls == 0 && launched == [] && made == [] && log == []
    {
      ffmpeg := if ffmpegBin.Some? then ffmpegBin.value else "ffmpeg";
      colmap := if colmapBin.Some? then colmapBin.value else "colmap";
      world := w;
      stopRequested, polls, launched, made, log := false, 0, [], [], [];
    }

    /** `stop()`: the flag is set, and stays set. */
    method Stop()
      modifies this
      ensures stopRequested
      ensures polls == old(polls) && launched == old(launched) && made == old(made) && log == old(log)
    {
      stopRequested := true;
    }

    /** One read of `stop_requested`. */
    method ReadStop() returns (b: bool)
      modifies this
      ensures St(stopRequested, polls, launched, made) == Poll(world, old(St(stopRequested, polls, launched, made)))
      ensures b == stopRequested && log == old(log)
    {
      if CancelledAt(world.stopAt, polls) {
        stopRequested := true;
      }
      polls := polls + 1;
      b := stopRequested;
    }

    /** `_run_cmd(cmd)` */
    method RunCmd(argv: seq<string>) returns (code: int)
      modifies this
      ensures Follows(CmdF(world, old(St(stopRequested, polls, launched, made)), argv), code,
                      St(stopRequested, polls, launched, made), old(log), log)
    {
      var stop := ReadStop();
      if stop {
        return -1;
      }
      var attempt := |launched|;
      log := log + [ExecPrefix + Join(argv, " ")];
      launched := launched + [argv];
      match world.outcome(attempt) {
        case NotFound =>
          log := log + [ExceptionPrefix + NotFoundText(Program(argv))];
          return -1;
        case Ran(lines, exit) =>
          code := ReadProcess(lines, exit);
      }
    }

    /** The `while True` loop of `_run_cmd` over a started process. */
    method ReadProcess(lines: seq<string>, exit: int) returns (code: int)
      modifies this
      ensures Follows(StreamF(world, old(St(stopRequested, polls, launched, made)), lines, exit), code,
                      St(stopRequested, polls, launched, made), old(log), log)
    {
      ghost var goal := StreamF(world, St(stopRequested, polls, launched, made), lines, exit);
      ghost var t0 := log;
      var i := 0;
      while true
        invariant 0 <= i <= |lines|
        invariant Resumes(goal, StreamF(world, St(stopRequested, polls, launched, made), lines[i..], exit), t0, log)
        decreases |lines| - i
      {
        var done;
        done, code := ReadLine(lines, i, exit, goal, t0);
        if done {
          return;
        }
        i := i + 1;
      }
    }

    /** One turn of the loop of `_run_cmd`: the flag is read, then line `i` ends the
        loop or is logged. */
    method ReadLine(lines: seq<string>, i: nat, exit: int, ghost goal: Out<int>, ghost t0: seq<string>)
      returns (done: bool, code: int)
      requires i <= |lines|
      requires Resumes(goal, StreamF(world, St(stopRequested, polls, launched, made), lines[i..], exit), t0, log)
      modifies this
      ensures done ==> goal.r == code && goal.st == St(stopRequested, polls, launched, made) && log == t0 + goal.log
      ensures !done ==> i < |lines| && Resumes(goal, StreamF(world, St(stopRequested, polls, launched, made), lines[i + 1..], exit), t0, log)
    {
      ghost var before := St(stopRequested, polls, launched, made);
      StreamUnfold(world, before, lines, i, exit);
      var stop := ReadStop();
      if stop {
        Resumed(goal, t0, log);
        return true, -1;
      }
      if i == |lines| || lines[i] == "" {
        Resumed(goal, t0, log);
        return true, exit;
      }
      ResumesStep(goal, t0, log, Strip(lines[i]), StreamF(world, St(stopRequested, polls, launched, made), lines[i + 1..], exit));
      log := log + [Strip(lines[i])];
      done, code := false, 0;
    }

    /** `extract_frames(video_path, output_dir, fps)` */
    method ExtractFrames(video: string, outDir: string, fps: int) returns (v: Verdict)
      modifies this
      ensures Follows(ExtractF(world, old(St(stopRequested, polls, launched, made)), ffmpeg, video, outDir, fps), v,
                      St(stopRequested, polls, launched, made), old(log), log)
    {
      var stop := ReadStop();
      if stop {
        return Done(false);
      }
      v := RunFfmpeg(video, outDir, fps);
    }

    /** The part of `extract_frames` after the flag was read unset. */
    method RunFfmpeg(video: string, outDir: string, fps: int) returns (v: Verdict)
      modifies this
      ensures Follows(FfmpegF(world, old(St(stopRequested, polls, launched, made)), ffmpeg, video, outDir, fps), v,
                      St(stopRequested, polls, launched, made), old(log), log)
    {
      ghost var s0 := St(stopRequested, polls, launched, made);
      made := made + [outDir];
      var argv := FrameArgv(ffmpeg, video, outDir, fps);
      var attempt := |launched|;
      launched := launched + [argv];
      match world.outcome(attempt) {
        case NotFound =>
          FfmpegMissing(world, s0, ffmpeg, video, outDir, fps);
          v := Raised(NotFoundText(ffmpeg));
        case Ran(_, exit) =>
          if exit == 0 {
            FfmpegSucceeded(world, s0, ffmpeg, video, outDir, fps);
            v := Done(true);
          } else {
            var line := ExtractErrorPrefix + video + ": " + CalledProcessErrorText(argv, exit);
            FfmpegFailed(world, s0, ffmpeg, video, outDir, fps, exit, line);
            log := log + [line];
            v := Done(false);
          }
      }
    }

    /** One COLMAP stage of `run_colmap`: its header is logged, then its command run. A
        zero code leaves the remaining stages to run; any other ends the run with False. */
    method RunStage(ghost stages: seq<(string, seq<string>)>, ghost goal: Out<bool>, ghost t0: seq<string>,
                    header: string, argv: seq<string>) returns (code: int)
      requires stages != [] && stages[0] == (header, argv)
      requires Resumes(goal, StagesF(world, St(stopRequested, polls, launched, made), stages), t0, log)
      modifies this
      ensures code == 0 ==> Resumes(goal, StagesF(world, St(stopRequested, polls, launched, made), stages[1..]), t0, log)
      ensures code != 0 ==> !goal.r && goal.st == St(stopRequested, polls, launched, made) && log == t0 + goal.log
    {
      ghost var pre := log;
      log := log + [header];
      ghost var s0 := St(stopRequested, polls, launched, made);
      code := RunCmd(argv);
      StageDone(world, s0, stages, goal, t0, pre, code, St(stopRequested, polls, launched, made), log);
    }

    /** `run_colmap(dataset_root)` */
    method RunColmap(root: string) returns (ok: bool)
      modifies this
      ensures Follows(ColmapF(world, old(St(stopRequested, polls, launched, made)), colmap, root), ok,
                      St(stopRequested, polls, launched, made), old(log), log)
    {
      var stop := ReadStop();
      if stop {
        return false;
      }
      made := made + [OsJoin(root, SparseDir)];
      var threads := HostSystem.OptimalThreads(world.silicon, world.cpu);
      ok := RunStages(ColmapStages(colmap, root, world.silicon, threads));
    }

    /** The three COLMAP stages of `run_colmap`, each after its header; the first
        non-zero code ends the run with False. */
    method RunStages(stages: seq<(string, seq<string>)>) returns (ok: bool)
      requires |stages| == 3
      modifies this
      ensures Follows(StagesF(world, old(St(stopRequested, polls, launched, made)), stages),
                      ok, St(stopRequested, polls, launched, made), old(log), log)
    {
      ghost var goal := StagesF(world, St(stopRequested, polls, launched, made), stages);
      ghost var t0 := log;
      Resuming(goal, t0);
      var code := RunStage(stages, goal, t0, stages[0].0, stages[0].1);
      if code != 0 {
        return false;
      }
      code := RunStage(stages[1..], goal, t0, stages[1].0, stages[1].1);
      if code != 0 {
        return false;
      }
      code := RunStage(stages[2..], goal, t0, stages[2].0, stages[2].1);
      if code != 0 {
        return false;
      }
      assert stages[2..][1..] == [];
      Resumed(goal, t0, log);
      ok := true;
    }

    /** The `for idx, vid in enumerate(videos)` loop of `process_dataset`. */
    method ExtractVideos(videosDir: string, imagesRoot: string, videos: seq<string>, fps: int) returns (v: Verdict)
      modifies this
      ensures Follows(ExtractAllF(world, old(St(stopRequested, polls, launched, made)), ffmpeg, videosDir, imagesRoot, videos, 0, fps),
                      v, St(stopRequested, polls, launched, made), old(log), log)
    {
      ghost var goal := ExtractAllF(world, St(stopRequested, polls, launched, made), ffmpeg, videosDir, imagesRoot, videos, 0, fps);
      ghost var t0 := log;
      Resuming(goal, t0);
      var idx := 0;
      while idx < |videos|
        invariant idx <= |videos|
        invariant Resumes(goal, ExtractAllF(world, St(stopRequested, polls, launched, made), ffmpeg, videosDir, imagesRoot, videos, idx, fps), t0, log)
        decreases |videos| - idx
      {
        v := ExtractVideo(videosDir, imagesRoot, videos, idx, fps, goal, t0);
        if v != Done(true) {
          return;
        }
        idx := idx + 1;
      }
      Resumed(goal, t0, log);
      v := Done(true);
    }

    /** One turn of `process_dataset`'s loop over the videos: the stop flag is read, then
        video `idx` is extracted. Success leaves the next videos to extract; any other
        verdict is the verdict of the whole loop. */
    method ExtractVideo(videosDir: string, imagesRoot: string, videos: seq<string>, idx: nat, fps: int,
                        ghost goal: Out<Verdict>, ghost t0: seq<string>) returns (v: Verdict)
      requires idx < |videos|
      requires Resumes(goal, ExtractAllF(world, St(stopRequested, polls, launched, made), ffmpeg, videosDir, imagesRoot, videos, idx, fps), t0, log)
      modifies this
      ensures v == Done(true) ==>
        Resumes(goal, ExtractAllF(world, St(stopRequested, polls, launched, made), ffmpeg, videosDir, imagesRoot, videos, idx + 1, fps), t0, log)
      ensures v != Done(true) ==> goal.r == v && goal.st == St(stopRequested, polls, launched, made) && log == t0 + goal.log
    {
      ghost var s := St(stopRequested, polls, launched, made);
      var stop := ReadStop();
      if stop {
        VideoStopped(world, s, ffmpeg, videosDir, imagesRoot, videos, idx, fps, goal, t0, log);
        return Done(false);
      }
      var cam := CamName(idx);
      ghost var pre := log;
      log := log + [ExtractLine(videos[idx], cam, fps)];
      v := ExtractFrames(OsJoin(videosDir, videos[idx]), OsJoin(imagesRoot, cam), fps);
      VideoDone(world, s, ffmpeg, videosDir, imagesRoot, videos, idx, fps, goal, t0, pre, v, St(stopRequested, polls, launched, made), log);
    }

    /** What follows the extraction: ns-process-data when it is on PATH, `run_colmap`
        otherwise. */
    method Finish(imagesRoot: string, out: string) returns (v: Verdict)
      modifies this
      ensures Follows(FinishF(world, old(St(stopRequested, polls, launched, made)), colmap, imagesRoot, out),
                      v, St(stopRequested, polls, launched, made), old(log), log)
    {
      ghost var t0 := log;
      ghost var s0 := St(stopRequested, polls, launched, made);
      if world.nerfstudio {
        ghost var c := CmdF(world, s0, NsArgv(imagesRoot, out));
        log := log + [NsDetected];
        var code := RunCmd(NsArgv(imagesRoot, out));
        if code != 0 {
          log := log + [NsFailed];
          v := Done(false);
          assert FinishF(world, s0, colmap, imagesRoot, out) == Out(Done(false), c.st, [NsDetected] + c.log + [NsFailed]);
          Assoc3(t0, [NsDetected], c.log, [NsFailed]);
        } else {
          v := Done(true);
          assert FinishF(world, s0, colmap, imagesRoot, out) == Out(Done(true), c.st, [NsDetected] + c.log);
          Assoc2(t0, [NsDetected], c.log);
        }
      } else {
        ghost var c := ColmapF(world, s0, colmap, out);
        log := log + [NsMissing];
        var ok := RunColmap(out);
        v := Done(ok);
        assert FinishF(world, s0, colmap, imagesRoot, out) == Out(Done(c.r), c.st, [NsMissing] + c.log);
        Assoc2(t0, [NsMissing], c.log);
      }
    }

    /** `process_dataset(videos_dir, output_dir, fps)` */
    method ProcessDataset(videosDir: string, out: string, fps: int) returns (v: Verdict)
      modifies this
      ensures Follows(ProcessF(world, old(St(stopRequested, polls, launched, made)), ffmpeg, colmap, videosDir, out, fps),
                      v, St(stopRequested, polls, launched, made), old(log), log)
    {
      ghost var t0 := log;
      ghost var s0 := St(stopRequested, polls, launched, made);
      ghost var goal := ProcessF(world, s0, ffmpeg, colmap, videosDir, out, fps);
      var scan := ScanPrefix + videosDir;
      log := log + [scan];
      if world.listing.None? {
        return Raised(NotFoundText(videosDir));
      }
      var videos := Videos(world.listing.value);
      if videos == [] {
        log := log + [NoVideos];
        Assoc2(t0, [scan], [NoVideos]);
        return Done(false);
      }
      var found := FoundLine(|videos|);
      log := log + [found];
      ghost var o := ProcessVideosF(world, s0, ffmpeg, colmap, videosDir, out, fps, videos);
      v := ProcessVideos(videosDir, out, fps, videos);
      Assoc3(t0, [scan], [found], o.log);
    }

    /** The part of `process_dataset` after the videos were found and counted. */
    method ProcessVideos(videosDir: string, out: string, fps: int, videos: seq<string>) returns (v: Verdict)
      modifies this
      ensures Follows(ProcessVideosF(world, old(St(stopRequested, polls, launched, made)), ffmpeg, colmap, videosDir, out, fps, videos),
                      v, St(stopRequested, polls, launched, made), old(log), log)
    {
      ghost var t0 := log;
      ghost var s0 := St(stopRequested, polls, launched, made);
      var imagesRoot := OsJoin(out, ImagesDir);
      made := made + [imagesRoot];
      ghost var e := ExtractAllF(world, s0.(made := s0.made + [imagesRoot]), ffmpeg, videosDir, imagesRoot, videos, 0, fps);
      v := ExtractVideos(videosDir, imagesRoot, videos, fps);
      if v != Done(true) {
        return;
      }
      log := log + [ExtractionDone];
      ghost var f := FinishF(world, e.st, colmap, imagesRoot, out);
      v := Finish(imagesRoot, out);
      Assoc3(t0, e.log, [ExtractionDone], f.log);
    }
  }

  /** Loop bookkeeping: the lines logged so far, followed by what the rest of the loop
      logs, are what the whole loop logs, and the rest ends where the whole does. */
  ghost predicate Resumes<R>(goal: Out<R>, rest: Out<R>, t0: seq<string>, log: seq<string>) {
    goal.r == rest.r && goal.st == rest.st && t0 + goal.log == log + rest.log
  }

  lemma ResumesStep<R>(goal: Out<R>, t0: seq<string>, log: seq<string>, line: string, rest: Out<R>)
    requires Resumes(goal, Out(rest.r, rest.st, [line] + rest.log), t0, log)
    ensures Resumes(goal, rest, t0, log + [line])
  {
    assert log + ([line] + rest.log) == log + [line] + rest.log;
  }

  lemma Resumed<R>(goal: Out<R>, t0: seq<string>, log: seq<string>)
    requires t0 + goal.log == log + []
    ensures log == t0 + goal.log
  {
    assert log + [] == log;
  }

  lemma StreamUnfold(w: FourWorld, s: St, lines: seq<string>, i: nat, exit: int)
    requires i <= |lines|
    ensures var s1 := Poll(w, s);
      StreamF(w, s, lines[i..], exit)
        == if s1.stop then Out(-1, s1, [])
           else if i == |lines| || lines[i] == "" then Out(exit, s1, [])
           else Out(StreamF(w, s1, lines[i + 1..], exit).r, StreamF(w, s1, lines[i + 1..], exit).st,
                    [Strip(lines[i])] + StreamF(w, s1, lines[i + 1..], exit).log)
  {
    if i < |lines| {
      assert lines[i..][0] == lines[i] && lines[i..][1..] == lines[i + 1..];
    }
  }

  lemma Resuming<R>(goal: Out<R>, t0: seq<string>)
    ensures Resumes(goal, goal, t0, t0)
  {
  }

  /** One COLMAP stage taken: its header was logged after `log`, then its command ran
      from `s`. A zero code leaves the remaining stages to run; any other ends the run. */
  lemma StageDone(w: FourWorld, s: St, stages: seq<(string, seq<string>)>, goal: Out<bool>,
                  t0: seq<string>, log: seq<string>, code: int, st: St, after: seq<string>)
    requires stages != []
    requires Resumes(goal, StagesF(w, s, stages), t0, log)
    requires Follows(CmdF(w, s, stages[0].1), code, st, log + [stages[0].0], after)
    ensures code == 0 ==> Resumes(goal, StagesF(w, st, stages[1..]), t0, after)
    ensures code != 0 ==> !goal.r && goal.st == st && after == t0 + goal.log
  {
    var c := CmdF(w, s, stages[0].1);
    if code == 0 {
      Assoc3(log, [stages[0].0], c.log, StagesF(w, c.st, stages[1..]).log);
    } else {
      Assoc2(log, [stages[0].0], c.log);
    }
  }

  /** The flag read before video `idx` was set: the loop ends with False. */
  lemma VideoStopped(w: FourWorld, s: St, ffmpeg: string, videosDir: string, imagesRoot: string,
                     videos: seq<string>, idx: nat, fps: int, goal: Out<Verdict>, t0: seq<string>, log: seq<string>)
    requires idx < |videos| && Poll(w, s).stop
    requires Resumes(goal, ExtractAllF(w, s, ffmpeg, videosDir, imagesRoot, videos, idx, fps), t0, log)
    ensures goal.r == Done(false) && goal.st == Poll(w, s) && log == t0 + goal.log
  {
    assert log + [] == log;
  }

  /** Video `idx` taken: its line was logged after `log`, then it was extracted from the
      state after the read of the flag. Success leaves the next videos to extract; any
      other verdict ends the loop with it. */
  lemma VideoDone(w: FourWorld, s: St, ffmpeg: string, videosDir: string, imagesRoot: string,
                  videos: seq<string>, idx: nat, fps: int, goal: Out<Verdict>, t0: seq<string>, log: seq<string>,
                  v: Verdict, st: St, after: seq<string>)
    requires idx < |videos| && !Poll(w, s).stop
    requires Resumes(goal, ExtractAllF(w, s, ffmpeg, videosDir, imagesRoot, videos, idx, fps), t0, log)
    requires Follows(ExtractF(w, Poll(w, s), ffmpeg, OsJoin(videosDir, videos[idx]), OsJoin(imagesRoot, CamName(idx)), fps),
                     v, st, log + [ExtractLine(videos[idx], CamName(idx), fps)], after)
    ensures v == Done(true) ==> Resumes(goal, ExtractAllF(w, st, ffmpeg, videosDir, imagesRoot, videos, idx + 1, fps), t0, after)
    ensures v != Done(true) ==> goal.r == v && goal.st == st && after == t0 + goal.log
  {
    var x := ExtractF(w, Poll(w, s), ffmpeg, OsJoin(videosDir, videos[idx]), OsJoin(imagesRoot, CamName(idx)), fps);
    var line := ExtractLine(videos[idx], CamName(idx), fps);
    if v == Done(true) {
      Assoc3(log, [line], x.log, ExtractAllF(w, x.st, ffmpeg, videosDir, imagesRoot, videos, idx + 1, fps).log);
    } else {
      Assoc2(log, [line], x.log);
    }
  }

  lemma Assoc2(a: seq<string>, b: seq<string>, c: seq<string>)
    ensures a + (b + c) == a + b + c
  {
  }

  lemma Assoc3(a: seq<string>, b: seq<string>, c: seq<string>, d: seq<string>)
    ensures a + (b + c + d) == a + b + c + d
  {
  }
}
