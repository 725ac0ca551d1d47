/** `ColmapEngine` (app/core/engine.py) as an object: the file system, the number of
    cancellation polls and process launches so far, the process being run, and the
    events produced so far are fields its methods update step by step. Each method is
    proved to do exactly what the function of the same stage in `ColmapPipeline`
    describes, so everything proved there about the functions holds of the object. */
module ColmapEngineObject {
  import opened Text
  import opened Host
  import opened Colmap
  import opened ColmapPipeline

  class Engine {
    /** What the outside world answers, and what `run` derives from the setup. */
    const world: Oracles
    const setting: Setting

    var fs: FileSystem
    var polls: nat
    var launches: nat
    /** `_current_process`: the command line of the process being run, if any. */
    var current: Option<seq<string>>
    /** Everything done so far, in order. */
    var trace: seq<Event>

    /** An engine for the setting `t` (`SettingOf` of the setup it is built from) over
        the file system `fs0`. */
    constructor (o: Oracles, t: Setting, fs0: FileSystem)
      ensures world == o && setting == t
      ensures fs == fs0 && polls == 0 && launches == 0 && trace == [] && current == None
    {
      world := o;
      setting := t;
      fs, polls, launches := fs0, 0, 0;
      current := None;
      trace := [];
    }

    /** `is_cancelled()` */
    method IsCancelled() returns (c: bool)
      modifies this
      ensures Follows(PollF(world, St(old(fs), old(polls), old(launches))), c, St(fs, polls, launches), old(trace), trace)
      ensures current == old(current)
    {
      c := CancelledAt(world.cancel, polls);
      polls := polls + 1;
      trace := trace + [Polled(c)];
    }

    /** `run_command(cmd, description)`, and `extract_frames_from_video`, which runs its
        ffmpeg command the same way: a poll per line of output, a last poll after the
        process ends, True only for exit code 0 with no cancellation seen. */
    method RunCommand(argv: seq<string>) returns (ok: bool)
      modifies this
      ensures Follows(CommandF(world, St(old(fs), old(polls), old(launches)), argv), ok, St(fs, polls, launches), old(trace), trace)
      ensures current == None
    {
      ghost var s0 := St(fs, polls, launches);
      var outcome := world.outcome(launches);
      launches := launches + 1;
      trace := trace + [Launched(argv)];
      if outcome.NotFound? {
        current := None;
        return false;
      }
      current := Some(argv);
      var n := |outcome.lines|;
      ghost var a := LinesF(world, St(fs, polls, launches), n);
      CommandRan(world, s0, argv);
      ghost var t1 := trace;
      var i := 0;
      while i < n
        invariant 0 <= i <= n
        invariant var w := LinesF(world, St(fs, polls, launches), n - i);
          w.r == a.r && w.st == a.st && trace + w.log == t1 + a.log
        invariant current == Some(argv)
      {
        ghost var before := St(fs, polls, launches);
        ghost var tb := trace;
        var c := IsCancelled();
        if c {
          assert LinesF(world, before, n - i).log == [Polled(true)];
          Append3(old(trace), [Launched(argv)], a.log);
          current := None;
          return false;
        }
        LinesStep(world, before, n - i);
        Append3(tb, [Polled(false)], LinesF(world, St(fs, polls, launches), n - i - 1).log);
        i := i + 1;
      }
      assert LinesF(world, St(fs, polls, launches), 0).log == [];
      assert trace == t1 + a.log;
      var c := IsCancelled();
      current := None;
      ok := !c && outcome.exit == 0;
      Append4(old(trace), [Launched(argv)], a.log, [Polled(c)]);
    }

    /** The loop over the "|"-separated videos of `_prepare_images`. */
    method ExtractVideos(jobs: seq<Job>) returns (ok: bool)
      modifies this
      ensures Follows(VideosF(world, St(old(fs), old(polls), old(launches)), jobs), ok, St(fs, polls, launches), old(trace), trace)
      ensures old(current) == None ==> current == None
    {
      ghost var a := VideosF(world, St(fs, polls, launches), jobs);
      ghost var t0 := trace;
      var i := 0;
      while i < |jobs|
        invariant 0 <= i <= |jobs|
        invariant var w := VideosF(world, St(fs, polls, launches), jobs[i..]);
          w.r == a.r && w.st == a.st && trace + w.log == t0 + a.log
        invariant old(current) == None ==> current == None
      {
        ghost var tb := trace;
        ghost var p := PollF(world, St(fs, polls, launches));
        ghost var w := VideosF(world, St(fs, polls, launches), jobs[i..]);
        assert jobs[i..][0] == jobs[i] && jobs[i..][1..] == jobs[i + 1..];
        var c := IsCancelled();
        if c {
          assert w == Out(false, p.st, p.log);
          return false;
        }
        if jobs[i].path in fs {
          ghost var e := CommandF(world, p.st, jobs[i].argv);
          var ok := RunCommand(jobs[i].argv);
          if !ok {
            assert w == Out(false, e.st, p.log + e.log);
            Append3(tb, p.log, e.log);
            return false;
          }
          ghost var q := VideosF(world, e.st, jobs[i + 1..]);
          assert w == Out(q.r, q.st, p.log + e.log + q.log);
          Append4(tb, p.log, e.log, q.log);
        } else {
          ghost var q := VideosF(world, p.st, jobs[i + 1..]);
          assert w == Out(q.r, q.st, p.log + q.log);
          Append3(tb, p.log, q.log);
        }
        i := i + 1;
      }
      assert jobs[|jobs|..] == [];
      ok := true;
    }

    /** The search of `_prepare_images` for images under the input: for each of
        "*.jpg", "*.jpeg" and "*.png" in turn, the regular files of the walk with that
        suffix that are not "*.mask.png". */
    method CollectImages() returns (files: seq<string>)
      ensures files == SelectImages(world.tree, fs)
    {
      var exts := [".jpg", ".jpeg", ".png"];
      files := [];
      var k := 0;
      while k < 3
        invariant 0 <= k <= 3
        invariant k == 0 ==> files == []
        invariant k == 1 ==> files == Matches(world.tree, fs, ".jpg")
        invariant k == 2 ==> files == Matches(world.tree, fs, ".jpg") + Matches(world.tree, fs, ".jpeg")
        invariant k == 3 ==> files == SelectImages(world.tree, fs)
      {
        var found := MatchFiles(exts[k]);
        files := files + found;
        k := k + 1;
      }
    }

    /** One `rglob(ext)` of the search, in walk order. */
    method MatchFiles(ext: string) returns (found: seq<string>)
      ensures found == Matches(world.tree, fs, ext)
    {
      var tree := world.tree;
      found := [];
      var j := 0;
      while j < |tree|
        invariant 0 <= j <= |tree|
        invariant found + Matches(tree[j..], fs, ext) == Matches(tree, fs, ext)
      {
        assert tree[j..][1..] == tree[j + 1..];
        if Kept(fs, tree[j], ext) {
          found := found + [tree[j]];
        }
        j := j + 1;
      }
      assert tree[|tree|..] == [];
    }

    /** The copy loop of `_prepare_images`. */
    method CopyImages(place: Placement, files: seq<string>) returns (ok: bool)
      modifies this
      ensures Follows(CopyF(world, place, St(old(fs), old(polls), old(launches)), files, 0), ok, St(fs, polls, launches), old(trace), trace)
      ensures current == old(current)
    {
      ghost var a := CopyF(world, place, St(fs, polls, launches), files, 0);
      ghost var t0 := trace;
      var i := 0;
      while i < |files|
        invariant 0 <= i <= |files|
        invariant var w := CopyF(world, place, St(fs, polls, launches), files, i);
          w.r == a.r && w.st == a.st && trace + w.log == t0 + a.log
        invariant current == old(current)
      {
        ghost var before := St(fs, polls, launches);
        ghost var tb := trace;
        var c := IsCancelled();
        if c {
          return false;
        }
        var src := files[i];
        if src !in fs {
          return false;
        }
        var dst := place(src, fs);
        fs := fs[dst := fs[src]];
        trace := trace + ([Copied(src, dst)] + CopyReport(i, |files|));
        CopyStep(world, place, before, files, i);
        Append4(tb, [Polled(false)], [Copied(src, dst)] + CopyReport(i, |files|), CopyF(world, place, St(fs, polls, launches), files, i + 1).log);
        i := i + 1;
      }
      ok := true;
    }

    /** `_prepare_images(images_dir)` */
    method PrepareImages() returns (ok: bool)
      modifies this
      ensures Follows(PrepareF(world, setting.prep, St(old(fs), old(polls), old(launches))), ok, St(fs, polls, launches), old(trace), trace)
      ensures old(current) == None ==> current == None
    {
      if setting.prep.video {
        var c := IsCancelled();
        if c {
          return false;
        }
        ok := ExtractVideos(setting.prep.jobs);
      } else if world.inputIsImagesDir {
        ok := true;
      } else {
        var files := CollectImages();
        if |files| == 0 {
          return true;
        }
        ok := CopyImages(setting.prep.place, files);
      }
    }

    /** The loop of `_run_upscale` over the sorted images of `images_src`. */
    method UpscaleImages(files: seq<string>) returns (ok: bool)
      modifies this
      ensures Follows(UpscaleLoopF(world, St(old(fs), old(polls), old(launches)), files, 0), ok, St(fs, polls, launches), old(trace), trace)
      ensures current == old(current)
    {
      ghost var a := UpscaleLoopF(world, St(fs, polls, launches), files, 0);
      ghost var t0 := trace;
      var i := 0;
      while i < |files|
        invariant 0 <= i <= |files|
        invariant var w := UpscaleLoopF(world, St(fs, polls, launches), files, i);
          w.r == a.r && w.st == a.st && trace + w.log == t0 + a.log
        invariant current == old(current)
      {
        ghost var tb := trace;
        ghost var p := PollF(world, St(fs, polls, launches));
        ghost var w := UpscaleLoopF(world, St(fs, polls, launches), files, i);
        var c := IsCancelled();
        if c {
          assert w == Out(false, p.st, p.log);
          return false;
        }
        trace := trace + [Upscaled(files[i])];
        ghost var q := UpscaleLoopF(world, p.st, files, i + 1);
        assert w == Out(q.r, q.st, p.log + [Upscaled(files[i])] + q.log);
        Append4(tb, p.log, [Upscaled(files[i])], q.log);
        i := i + 1;
      }
      ok := true;
    }

    /** `_run_upscale(project_dir, images_dir)` */
    method RunUpscale() returns (ok: bool)
      modifies this
      ensures Follows(UpscaleF(world, setting.sources, UpscaleQueue(world), St(old(fs), old(polls), old(launches))), ok, St(fs, polls, launches), old(trace), trace)
      ensures current == old(current)
    {
      ghost var t0 := trace;
      ghost var p := PollF(world, St(fs, polls, launches));
      var c := IsCancelled();
      if c {
        return false;
      }
      if !world.upscaleInstalled || setting.sources in fs {
        return true;
      }
      fs := MakeDir(fs, setting.sources);
      trace := trace + [MovedToSources];
      assert St(fs, polls, launches) == p.st.(fs := MakeDir(p.st.fs, setting.sources));
      if !world.modelLoads {
        return false;
      }
      var queue := UpscaleQueue(world);
      ghost var q := UpscaleLoopF(world, St(fs, polls, launches), queue, 0);
      ok := UpscaleImages(queue);
      Append4(t0, p.log, [MovedToSources], q.log);
    }

    /** The `except Exception` handler of `run`, entered through the NameError of `tr`. */
    method Handler() returns (m: RunMessage)
      modifies this
      ensures Follows(HandlerF(world, St(old(fs), old(polls), old(launches))), m, St(fs, polls, launches), old(trace), trace)
      ensures current == old(current)
    {
      var c := IsCancelled();
      m := if c then UserCancelled else Error(NameErrorText);
    }

    /** A poll, the tool, and on failure a second poll: None to go on, or what `run`
        returns. */
    method Stage(argv: seq<string>, fail: RunMessage) returns (stop: Option<RunMessage>)
      modifies this
      ensures Follows(StageF(world, St(old(fs), old(polls), old(launches)), argv, fail), stop, St(fs, polls, launches), old(trace), trace)
      ensures old(current) == None ==> current == None
    {
      ghost var t0 := trace;
      ghost var p := PollF(world, St(fs, polls, launches));
      var c := IsCancelled();
      if c {
        ghost var h := HandlerF(world, p.st);
        var m := Handler();
        Append3(t0, p.log, h.log);
        return Some(m);
      }
      ghost var e := CommandF(world, p.st, argv);
      var ok := RunCommand(argv);
      if ok {
        Append3(t0, p.log, e.log);
        return None;
      }
      ghost var q := PollF(world, e.st);
      c := IsCancelled();
      if c {
        ghost var h := HandlerF(world, q.st);
        var m := Handler();
        Append5(t0, p.log, e.log, q.log, h.log);
        return Some(m);
      }
      Append4(t0, p.log, e.log, q.log);
      stop := Some(fail);
    }

    /** The undistortion stage, which creates `dense/` first. */
    method Undistort(dense: string, argv: seq<string>) returns (stop: Option<RunMessage>)
      modifies this
      ensures Follows(UndistortF(world, dense, argv, St(old(fs), old(polls), old(launches))), stop, St(fs, polls, launches), old(trace), trace)
      ensures old(current) == None ==> current == None
    {
      ghost var t0 := trace;
      ghost var p := PollF(world, St(fs, polls, launches));
      var c := IsCancelled();
      if c {
        ghost var h := HandlerF(world, p.st);
        var m := Handler();
        Append3(t0, p.log, h.log);
        return Some(m);
      }
      fs := MakeDir(fs, dense);
      assert St(fs, polls, launches) == p.st.(fs := MakeDir(p.st.fs, dense));
      ghost var e := CommandF(world, St(fs, polls, launches), argv);
      var ok := RunCommand(argv);
      if ok {
        Append3(t0, p.log, e.log);
        return None;
      }
      c := IsCancelled();
      Append4(t0, p.log, e.log, [Polled(c)]);
      stop := Some(if c then UserCancelled else UndistortionFailed);
    }

    /** `create_brush_config(project_dir, images_dir, sparse_dir)` */
    method CreateBrushConfig(path: string, config: BrushConfig)
      modifies this
      ensures St(fs, polls, launches) == St(old(fs), old(polls), old(launches)) && current == old(current)
      ensures trace == old(trace) + [WroteConfig(path, config)]
    {
      trace := trace + [WroteConfig(path, config)];
    }

    /** From the optional undistortion to the end of `run`. */
    method Finish() returns (m: RunMessage)
      modifies this
      ensures Follows(FinishF(world, setting.stages, St(old(fs), old(polls), old(launches))), m, St(fs, polls, launches), old(trace), trace)
      ensures old(current) == None ==> current == None
    {
      var k := setting.stages;
      ghost var t0 := trace;
      ghost var u := UndistortStep(world, k, St(fs, polls, launches));
      if k.undistort.Some? {
        var stop := Undistort(k.dense, k.undistort.value);
        if stop.Some? {
          return stop.value;
        }
      }
      assert trace == t0 + u.log && St(fs, polls, launches) == u.st;
      trace := trace + [Progress(95)];
      var c := IsCancelled();
      if c {
        Append4(t0, u.log, [Progress(95)], [Polled(true)]);
        return UserCancelled;
      }
      CreateBrushConfig(k.config, k.descriptor);
      trace := trace + [Progress(100)];
      m := DatasetCreated(k.project);
      Append6(t0, u.log, [Progress(95)], [Polled(false)], WroteConfig(k.config, k.descriptor), Progress(100));
    }

    /** `run()` from `sparse/` on: extraction, matching and mapping, each followed by
        its progress mark, then the finish. */
    method Reconstruct() returns (m: RunMessage)
      modifies this
      ensures Follows(ReconstructF(world, setting.stages, St(old(fs), old(polls), old(launches))), m, St(fs, polls, launches), old(trace), trace)
      ensures old(current) == None ==> current == None
    {
      var k := setting.stages;
      ghost var t0 := trace;
      fs := MakeDir(fs, k.sparse);
      assert St(fs, polls, launches) == St(old(fs), old(polls), old(launches)).(fs := MakeDir(old(fs), k.sparse));
      trace := trace + [Progress(25)];
      ghost var a := StageF(world, St(fs, polls, launches), k.extract, ExtractionFailed);
      var stop := Stage(k.extract, ExtractionFailed);
      if stop.Some? {
        Append3(t0, [Progress(25)], a.log);
        return stop.value;
      }
      trace := trace + [Progress(50)];
      ghost var t2 := trace;
      ghost var b := StageF(world, St(fs, polls, launches), k.matching, MatchingFailed);
      stop := Stage(k.matching, MatchingFailed);
      if stop.Some? {
        assert MatchPhaseF(world, k, a.st) == Out(stop.value, b.st, b.log);
        Append5(t0, [Progress(25)], a.log, [Progress(50)], b.log);
        return stop.value;
      }
      trace := trace + [Progress(75)];
      ghost var t3 := trace;
      ghost var c := StageF(world, St(fs, polls, launches), k.mapping, ReconstructionFailed);
      stop := Stage(k.mapping, ReconstructionFailed);
      if stop.Some? {
        assert MapPhaseF(world, k, b.st) == Out(stop.value, c.st, c.log);
        Append4(t2, b.log, [Progress(75)], c.log);
        Append5(t0, [Progress(25)], a.log, [Progress(50)], b.log + [Progress(75)] + c.log);
        return stop.value;
      }
      trace := trace + [Progress(90)];
      ghost var f := FinishF(world, k, St(fs, polls, launches));
      m := Finish();
      assert MapPhaseF(world, k, b.st) == Out(f.r, f.st, c.log + [Progress(90)] + f.log);
      Append4(t3, c.log, [Progress(90)], f.log);
      Append4(t2, b.log, [Progress(75)], c.log + [Progress(90)] + f.log);
      Append5(t0, [Progress(25)], a.log, [Progress(50)], b.log + [Progress(75)] + (c.log + [Progress(90)] + f.log));
    }

    /** `run()`: the project layout, the input check, image preparation, the optional
        upscale and the reconstruction; `success` is the first element of the pair. */
    method Run() returns (success: bool, message: string)
      modifies this
      ensures var x := RunWith(world, setting, St(old(fs), old(polls), old(launches)));
        && success == x.r.DatasetCreated? && message == MessageText(x.r)
        && St(fs, polls, launches) == x.st && trace == old(trace) + x.log
      ensures old(current) == None ==> current == None
    {
      var m := RunMessageOf();
      success, message := m.DatasetCreated?, MessageText(m);
    }

    /** The message `run` answers with. */
    method RunMessageOf() returns (m: RunMessage)
      modifies this
      ensures Follows(RunWith(world, setting, St(old(fs), old(polls), old(launches))), m, St(fs, polls, launches), old(trace), trace)
      ensures old(current) == None ==> current == None
    {
      ghost var t0 := trace;
      fs := MakeDir(fs, setting.project);
      fs := MakeDir(fs, setting.images);
      fs := MakeDir(fs, setting.checkpoints);
      assert St(fs, polls, launches) == St(old(fs), old(polls), old(launches)).(fs := LayoutFs(setting, old(fs)));
      var input := setting.prep.input;
      if !setting.prep.video && input !in fs {
        return InputNotFound(input);
      } else if setting.prep.video && '|' !in input && input !in fs {
        return VideoNotFound(input);
      }
      ghost var prep := PrepareF(world, setting.prep, St(fs, polls, launches));
      var ok := PrepareImages();
      if !ok {
        return PrepareFailed;
      }
      ghost var up := UpscaleStep(world, setting, St(fs, polls, launches));
      if setting.upscale {
        ok := RunUpscale();
        if !ok {
          Append3(t0, prep.log, up.log);
          return UpscaleFailed;
        }
      }
      assert trace == t0 + prep.log + up.log;
      ghost var rec := ReconstructF(world, setting.stages, St(fs, polls, launches));
      m := Reconstruct();
      Append4(t0, prep.log, up.log, rec.log);
    }
  }

  /** One image of the copy loop, when no cancellation is read and the source exists. */
  lemma CopyStep(o: Oracles, place: Placement, s: St, files: seq<string>, i: nat)
    requires i < |files| && !CancelledAt(o.cancel, s.polls) && files[i] in s.fs
    ensures var dst := place(files[i], s.fs);
      var q := CopyF(o, place, St(s.fs[dst := s.fs[files[i]]], s.polls + 1, s.launches), files, i + 1);
      var x := CopyF(o, place, s, files, i);
      x.r == q.r && x.st == q.st && x.log == [Polled(false)] + ([Copied(files[i], dst)] + CopyReport(i, |files|)) + q.log
  {
    var dst := place(files[i], s.fs);
    var p := PollF(o, s);
    assert p.st.(fs := p.st.fs[dst := p.st.fs[files[i]]]) == St(s.fs[dst := s.fs[files[i]]], s.polls + 1, s.launches);
  }

  /** The step `x` was taken: `r` is its result, `st` the state after it, and the events
      `after` holds are those of `before` followed by the step's. */
  predicate Follows<R(==)>(x: Out<R>, r: R, st: St, before: seq<Event>, after: seq<Event>) {
    r == x.r && st == x.st && after == before + x.log
  }

  lemma Append6(a: seq<Event>, b: seq<Event>, c: seq<Event>, d: seq<Event>, e: Event, f: Event)
    ensures a + b + c + d + [e] + [f] == a + (b + c + d + [e, f])
  {
  }

  lemma Append5(a: seq<Event>, b: seq<Event>, c: seq<Event>, d: seq<Event>, e: seq<Event>)
    ensures a + b + c + d + e == a + (b + c + d + e)
  {
  }

  lemma Append4(a: seq<Event>, b: seq<Event>, c: seq<Event>, d: seq<Event>)
    ensures a + b + c + d == a + (b + c + d)
  {
  }

  lemma Append3(a: seq<Event>, b: seq<Event>, c: seq<Event>)
    ensures a + b + c == a + (b + c)
  {
  }

  /** A started process: its output loop, then (when no poll read true) the last poll. */
  lemma CommandRan(o: Oracles, s: St, argv: seq<string>)
    requires o.outcome(s.launches).Ran?
    ensures var x := CommandF(o, s, argv);
      var a := LinesF(o, St(s.fs, s.polls, s.launches + 1), |o.outcome(s.launches).lines|);
      var b := PollF(o, a.st);
      && (a.r ==> !x.r && x.st == a.st && x.log == [Launched(argv)] + a.log)
      && (!a.r ==> x.r == (!b.r && o.outcome(s.launches).exit == 0) && x.st == b.st
                   && x.log == [Launched(argv)] + a.log + b.log)
  {
    assert s.(launches := s.launches + 1) == St(s.fs, s.polls, s.launches + 1);
  }

  /** One line of output read without a cancellation. */
  lemma LinesStep(o: Oracles, s: St, n: nat)
    requires n > 0 && !CancelledAt(o.cancel, s.polls)
    ensures var x := LinesF(o, s, n);
      var q := LinesF(o, St(s.fs, s.polls + 1, s.launches), n - 1);
      x.r == q.r && x.st == q.st && x.log == [Polled(false)] + q.log
  {
    assert s.(polls := s.polls + 1) == St(s.fs, s.polls + 1, s.launches);
  }
}
