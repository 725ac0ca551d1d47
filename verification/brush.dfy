/** The Brush trainer launcher (app/core/brush_engine.py): the command line `train`
    builds from its options, and the process state `stop` acts on. Starting the process
    and signalling it are recorded, not performed. */
module BrushTrainer {
  import opened Text
  import opened Host

  /** The keyword arguments `train` reads. `None` stands for an omitted or `None` value;
      the custom arguments are given as the tokens `shlex.split` makes of them. */
  datatype TrainOptions = TrainOptions(
    iterations: Option<int>,
    shDegree: Option<int>,
    device: Option<string>,
    withViewer: bool,
    customArgs: seq<string>)

  /** `train`'s own defaults: 30000 steps, degree 3, device "auto", no viewer. */
  const DefaultOptions := TrainOptions(Some(30000), Some(3), Some("auto"), false, [])

  /** Python truthiness of an optional integer: present and non-zero. */
  predicate Truthy(o: Option<int>) {
    o.Some? && o.value != 0
  }

  /** The two tokens a truthy option adds, none otherwise. */
  function OptionFlag(flag: string, o: Option<int>): seq<string> {
    if Truthy(o) then [flag, IntToString(o.value)] else []
  }

  /** The command `train` starts once the executable `bin` is known. */
  function TrainArgv(bin: string, input: string, output: string, opts: TrainOptions): (r: seq<string>)
    ensures |r| >= 4 && r[..3] == [bin, "--export-path", output] && r[|r| - 1] == input
  {
    [bin, "--export-path", output]
      + OptionFlag("--total-steps", opts.iterations)
      + OptionFlag("--sh-degree", opts.shDegree)
      + (if opts.withViewer then ["--with-viewer"] else [])
      + opts.customArgs
      + [input]
  }

  /** `train`: without an executable it raises RuntimeError before anything starts. */
  function TrainCommand(bin: Option<string>, input: string, output: string, opts: TrainOptions): (r: Result<seq<string>>)
    ensures r.Err? <==> bin.None?
    ensures r.Err? ==> r.error == "Exécutable 'brush' non trouvé."
    ensures r.Ok? ==> r.value == TrainArgv(bin.value, input, output, opts)
  {
    match bin {
      case None => Err("Exécutable 'brush' non trouvé.")
      case Some(b) => Ok(TrainArgv(b, input, output, opts))
    }
  }

  /** What a reader of the command line gets back from it. */
  datatype Decoded = Decoded(
    bin: string, output: string, iterations: Option<int>, shDegree: Option<int>,
    withViewer: bool, customArgs: seq<string>, input: string)

  /** Reads `flag n` off the front of `s` when it is there. */
  function TakeFlag(flag: string, s: seq<string>): (Option<int>, seq<string>) {
    if |s| >= 2 && s[0] == flag then
      match ParseInt(s[1]) {
        case Some(n) => (Some(n), s[2..])
        case None => (None, s)
      }
    else (None, s)
  }

  /** The flags and custom tokens between the export path and the input: the optional
      flags in the order `train` writes them, then whatever follows. */
  datatype Middle = Middle(iterations: Option<int>, shDegree: Option<int>, withViewer: bool, customArgs: seq<string>)

  function DecodeMiddle(s: seq<string>): Middle {
    var (it, rest1) := TakeFlag("--total-steps", s);
    var (sh, rest2) := TakeFlag("--sh-degree", rest1);
    var viewer := rest2 != [] && rest2[0] == "--with-viewer";
    Middle(it, sh, viewer, if viewer then rest2[1..] else rest2)
  }

  /** Parses a Brush command line: executable, export path, the middle part, and the
      input path last. */
  function DecodeTrainArgv(r: seq<string>): Option<Decoded> {
    if |r| < 4 || r[1] != "--export-path" then None
    else
      var m := DecodeMiddle(r[3..|r| - 1]);
      Some(Decoded(r[0], r[2], m.iterations, m.shDegree, m.withViewer, m.customArgs, r[|r| - 1]))
  }

  /** The option as the command line carries it: a falsy one is not emitted at all. */
  function Emitted(o: Option<int>): Option<int> {
    if Truthy(o) then o else None
  }

  /** Custom tokens that do not start like one of the flags `train` writes itself. */
  predicate PlainCustom(custom: seq<string>) {
    custom == [] || (custom[0] != "--total-steps" && custom[0] != "--sh-degree" && custom[0] != "--with-viewer")
  }

  /** The command line keeps everything `train` was given except the device: the output
      after `--export-path`, each truthy count with its value, the viewer switch, the
      custom tokens in order, and the input as the last argument. */
  lemma TrainArgvDecodes(bin: string, input: string, output: string, opts: TrainOptions)
    requires PlainCustom(opts.customArgs)
    ensures DecodeTrainArgv(TrainArgv(bin, input, output, opts))
      == Some(Decoded(bin, output, Emitted(opts.iterations), Emitted(opts.shDegree),
                      opts.withViewer, opts.customArgs, input))
  {
    TrainArgvMiddle(bin, input, output, opts);
    MiddleDecodes(opts);
  }

  lemma MiddleDecodes(opts: TrainOptions)
    requires PlainCustom(opts.customArgs)
    ensures DecodeMiddle(FlagsAndCustom(opts))
      == Middle(Emitted(opts.iterations), Emitted(opts.shDegree), opts.withViewer, opts.customArgs)
  {
    var v: seq<string> := if opts.withViewer then ["--with-viewer"] else [];
    var c := opts.customArgs;
    var b := OptionFlag("--sh-degree", opts.shDegree);
    TakeOptionFlag("--total-steps", opts.iterations, b + (v + c));
    TakeOptionFlag("--sh-degree", opts.shDegree, v + c);
    if opts.withViewer {
      assert (v + c)[1..] == c;
    }
  }

  /** Everything `train` writes between the export path and the input. */
  function FlagsAndCustom(opts: TrainOptions): seq<string> {
    OptionFlag("--total-steps", opts.iterations)
      + (OptionFlag("--sh-degree", opts.shDegree)
      + ((if opts.withViewer then ["--with-viewer"] else []) + opts.customArgs))
  }

  lemma TrainArgvMiddle(bin: string, input: string, output: string, opts: TrainOptions)
    ensures var r := TrainArgv(bin, input, output, opts);
      r[3..|r| - 1] == FlagsAndCustom(opts)
  {
    var r := TrainArgv(bin, input, output, opts);
    assert r == [bin, "--export-path", output] + FlagsAndCustom(opts) + [input];
  }

  lemma TakeOptionFlag(flag: string, o: Option<int>, rest: seq<string>)
    requires rest == [] || rest[0] != flag
    ensures TakeFlag(flag, OptionFlag(flag, o) + rest) == (Emitted(o), rest)
  {
    if Truthy(o) {
      var s := OptionFlag(flag, o) + rest;
      ParseIntToString(o.value);
      assert s[1] == IntToString(o.value) && s[2..] == rest;
    } else {
      assert OptionFlag(flag, o) + rest == rest;
    }
  }

  /** The device option never reaches the command line. */
  lemma DeviceIgnored(bin: string, input: string, output: string, opts: TrainOptions, device: Option<string>)
    ensures TrainArgv(bin, input, output, opts.(device := device)) == TrainArgv(bin, input, output, opts)
  {
  }

  /** Called with no keyword arguments, `train` asks for 30000 steps at degree 3. */
  lemma DefaultTrainArgv(bin: string, input: string, output: string)
    ensures TrainArgv(bin, input, output, DefaultOptions)
      == [bin, "--export-path", output, "--total-steps", "30000", "--sh-degree", "3", input]
  {
    assert IntToString(30000) == "30000";
    assert IntToString(3) == "3";
  }

  class BrushEngine {
    /** `resolve_binary("brush")`, looked up once by the constructor. */
    const brushBin: Option<string>
    var process: Option<Process>
    /** The signals sent so far, oldest first. */
    var signals: seq<Signal>

    constructor (bin: Option<string>)
      ensures brushBin == bin && process == None && signals == []
    {
      brushBin := bin;
      process := None;
      signals := [];
    }

    /** `train(...)`: raises when there is no executable, else starts the command
        (given the id `pid` the system assigns) and keeps it as the current process. */
    method Train(input: string, output: string, opts: TrainOptions, pid: nat) returns (r: Result<seq<string>>)
      modifies this
      ensures r == TrainCommand(brushBin, input, output, opts)
      ensures process == if r.Ok? then Some(Process(pid, r.value, true)) else old(process)
      ensures signals == old(signals)
    {
      if brushBin.None? {
        return Err("Exécutable 'brush' non trouvé.");
      }
      var cmd := TrainArgv(brushBin.value, input, output, opts);
      process := Some(Process(pid, cmd, true));
      r := Ok(cmd);
    }

    /** `stop()` on a platform that is Windows or not. */
    method Stop(windows: bool, exited: bool)
      modifies this
      ensures process == StopF(old(process), windows, exited).0
      ensures signals == old(signals) + StopF(old(process), windows, exited).1
    {
      if process.Some? && process.value.running && !exited {
        var p := process.value;
        if windows {
          signals := signals + [Terminate(p.pid)];
        } else {
          signals := signals + [KillGroup(p.pid)];
        }
        process := Some(p.(running := false));
      }
    }
  }
}
