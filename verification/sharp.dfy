/** The Apple ML Sharp launcher (app/core/sharp_engine.py): where `_get_sharp_cmd` looks
    for the program, what `is_installed` accepts, the command line `predict` builds and
    the process state `stop` acts on. The project root (two levels above the module's
    own directory) and `sys.executable` are given; starting and signalling the process
    are recorded, not performed. */
module Sharp {
  import opened Text
  import opened Host
  import opened Paths

  const SharpName := "sharp"
  const VenvName := ".venv_sharp"
  const BinName := "bin"
  const PythonName := "python3"
  /** `-m sharp.cli`: the module entry point. */
  const ModuleRun := ["-m", "sharp.cli"]
  const PredictVerb := "predict"
  const InputFlag := "-i"
  const OutputFlag := "-o"
  const CheckpointFlag := "-c"
  const DeviceFlag := "--device"
  const VerboseFlag := "--verbose"
  const DefaultDevice := "default"
  const LaunchPrefix := "Lancement Sharp: "

  /** What the search depends on: the file system, `shutil.which`, the project root and
      `sys.executable`. */
  datatype Machine = Machine(fs: FileSystem, path: SearchPath, root: string, python: string)

  /** `<root>/.venv_sharp/bin`, the dedicated environment's programs. */
  function VenvBin(root: string): string {
    OsJoin(OsJoin(root, VenvName), BinName)
  }

  function VenvSharp(root: string): string {
    OsJoin(VenvBin(root), SharpName)
  }

  function VenvPython(root: string): string {
    OsJoin(VenvBin(root), PythonName)
  }

  /** The `sharp` next to `sys.executable`. */
  function NextSharp(python: string): string {
    OsJoin(Dirname(python), SharpName)
  }

  /** `_get_sharp_cmd()`: the dedicated environment's program if it is executable, else
      its python running the module, else the program next to `sys.executable` if it is
      executable, else `sharp` if it is on PATH, else `sys.executable` running the
      module. */
  function SharpCmd(m: Machine): (r: seq<string>)
    ensures |r| == 1 || (|r| == 3 && r[1..] == ModuleRun)
  {
    if IsExecutable(m.fs, VenvSharp(m.root)) then [VenvSharp(m.root)]
    else if VenvPython(m.root) in m.fs then [VenvPython(m.root)] + ModuleRun
    else if IsExecutable(m.fs, NextSharp(m.python)) then [NextSharp(m.python)]
    else if Which(m.path, SharpName).Some? then [SharpName]
    else [m.python] + ModuleRun
  }

  // ---------------------------------------------------------------- the search order

  /** One place the search looks: whether it applies, and the command it then gives. */
  datatype Candidate = Candidate(applies: bool, cmd: seq<string>)

  /** The places `_get_sharp_cmd` tries, in order. */
  function Candidates(m: Machine): seq<Candidate> {
    [Candidate(IsExecutable(m.fs, VenvSharp(m.root)), [VenvSharp(m.root)]),
     Candidate(VenvPython(m.root) in m.fs, [VenvPython(m.root)] + ModuleRun),
     Candidate(IsExecutable(m.fs, NextSharp(m.python)), [NextSharp(m.python)]),
     Candidate(Which(m.path, SharpName).Some?, [SharpName])]
  }

  /** The command of the first candidate that applies, or `fallback` when none does. */
  function FirstApplicable(cs: seq<Candidate>, fallback: seq<string>): seq<string> {
    if cs == [] then fallback
    else if cs[0].applies then cs[0].cmd
    else FirstApplicable(cs[1..], fallback)
  }

  /** The first-match rule: either some candidate applies, none before it does, and its
      command is the result; or none applies and the result is the fallback. */
  lemma {:induction false} FirstApplicableIsFirst(cs: seq<Candidate>, fallback: seq<string>)
    ensures var r := FirstApplicable(cs, fallback);
      || (exists i :: 0 <= i < |cs| && cs[i].applies && r == cs[i].cmd
                       && forall j :: 0 <= j < i ==> !cs[j].applies)
      || ((forall j :: 0 <= j < |cs| ==> !cs[j].applies) && r == fallback)
  {
    if cs != [] && !cs[0].applies {
      FirstApplicableIsFirst(cs[1..], fallback);
      var r := FirstApplicable(cs, fallback);
      if exists i :: 0 <= i < |cs[1..]| && cs[1..][i].applies && r == cs[1..][i].cmd
                     && forall j :: 0 <= j < i ==> !cs[1..][j].applies {
        var i :| 0 <= i < |cs[1..]| && cs[1..][i].applies && r == cs[1..][i].cmd
                 && forall j :: 0 <= j < i ==> !cs[1..][j].applies;
        assert cs[i + 1].applies && r == cs[i + 1].cmd;
        assert forall j :: 0 <= j < i + 1 ==> !cs[j].applies by {
          forall j | 0 <= j < i + 1 ensures !cs[j].applies {
            if j > 0 {
              assert cs[j] == cs[1..][j - 1];
            }
          }
        }
      } else {
        assert forall j :: 0 <= j < |cs| ==> !cs[j].applies by {
          forall j | 0 <= j < |cs| ensures !cs[j].applies {
            if j > 0 {
              assert cs[j] == cs[1..][j - 1];
            }
          }
        }
      }
    }
  }

  /** `_get_sharp_cmd` is the first match over its candidates, with `sys.executable`
      running the module as the last resort. */
  lemma SharpCmdIsFirstMatch(m: Machine)
    ensures SharpCmd(m) == FirstApplicable(Candidates(m), [m.python] + ModuleRun)
  {
    var cs := Candidates(m);
    FirstOfFour(cs[0], cs[1], cs[2], cs[3], [m.python] + ModuleRun);
  }

  lemma FirstOfFour(a: Candidate, b: Candidate, c: Candidate, d: Candidate, fallback: seq<string>)
    ensures FirstApplicable([a, b, c, d], fallback)
      == if a.applies then a.cmd else if b.applies then b.cmd else if c.applies then c.cmd
         else if d.applies then d.cmd else fallback
  {
    assert [a, b, c, d][1..] == [b, c, d];
    assert [b, c, d][1..] == [c, d];
    assert [c, d][1..] == [d];
    assert [d][1..] == [];
    assert FirstApplicable([d], fallback) == if d.applies then d.cmd else fallback;
    assert FirstApplicable([c, d], fallback) == if c.applies then c.cmd else FirstApplicable([d], fallback);
    assert FirstApplicable([b, c, d], fallback) == if b.applies then b.cmd else FirstApplicable([c, d], fallback);
  }

  /** The command always names a program the machine has: an executable file, the
      dedicated python, `sharp` found on PATH, or `sys.executable` itself. */
  lemma SharpCmdRunnable(m: Machine)
    ensures var r := SharpCmd(m);
      || (r == [r[0]] && (IsExecutable(m.fs, r[0]) || (r[0] == SharpName && SharpName in m.path)))
      || (r == [r[0]] + ModuleRun && (r[0] in m.fs || r[0] == m.python))
  {
  }

  // ---------------------------------------------------------------- is_installed

  /** `is_installed()`: the dedicated environment's program exists (executable or not),
      or `sharp` is on PATH, or the module can be found (`moduleFound`). */
  predicate Installed(m: Machine, moduleFound: bool) {
    VenvSharp(m.root) in m.fs || Which(m.path, SharpName).Some? || moduleFound
  }

  /** Whenever the search settles on the dedicated program or on `sharp` from PATH,
      `is_installed` agrees, as long as `sys.executable` is not a bare name (else the
      program "next to" it is the bare `sharp` as well). */
  lemma FoundProgramInstalled(m: Machine, moduleFound: bool)
    requires Dirname(m.python) != []
    requires SharpCmd(m) == [VenvSharp(m.root)] || SharpCmd(m) == [SharpName]
    ensures Installed(m, moduleFound)
  {
    if IsExecutable(m.fs, VenvSharp(m.root)) {
    } else if VenvPython(m.root) in m.fs {
    } else if IsExecutable(m.fs, NextSharp(m.python)) {
      JoinedNotBare(Dirname(m.python));
      assert SharpCmd(m) == [NextSharp(m.python)];
    }
  }

  /** The program next to `sys.executable` is one place `is_installed` does not look:
      with nothing else present, the search runs it while `is_installed` says no. */
  lemma NextSharpNotInstalled(m: Machine)
    requires VenvSharp(m.root) !in m.fs && VenvPython(m.root) !in m.fs
    requires IsExecutable(m.fs, NextSharp(m.python)) && SharpName !in m.path
    ensures SharpCmd(m) == [NextSharp(m.python)] && !Installed(m, false)
  {
  }

  /** A program joined onto a directory is never the bare name. */
  lemma JoinedNotBare(dir: string)
    requires dir != []
    ensures OsJoin(dir, SharpName) != SharpName
  {
    assert SharpName[..1] == "s";
    assert !StartsWith(SharpName, "/");
  }

  // ---------------------------------------------------------------- predict

  /** Python truthiness of an optional text: present and not empty. */
  predicate Given(o: Option<string>) {
    o.Some? && o.value != []
  }

  /** The checkpoint as the command line carries it: an empty or missing one is left out. */
  function EmittedCheckpoint(o: Option<string>): Option<string> {
    if Given(o) then o else None
  }

  /** The device as the command line carries it: an empty, missing or "default" one is
      left out. */
  function EmittedDevice(o: Option<string>): Option<string> {
    if Given(o) && o.value != DefaultDevice then o else None
  }

  function Pair(flag: string, o: Option<string>): seq<string> {
    if o.Some? then [flag, o.value] else []
  }

  /** What follows the verb's input and output: the checkpoint, the device, the switch. */
  function PredictOptions(checkpoint: Option<string>, device: Option<string>, verbose: bool): seq<string> {
    Pair(CheckpointFlag, EmittedCheckpoint(checkpoint))
      + (Pair(DeviceFlag, EmittedDevice(device)) + (if verbose then [VerboseFlag] else []))
  }

  /** `predict(input_path, output_path, checkpoint, device, verbose)`: the command found
      by the search, then `predict -i <input> -o <output>` and the options. */
  function PredictArgv(base: seq<string>, input: string, output: string, checkpoint: Option<string>,
                       device: Option<string>, verbose: bool): (r: seq<string>)
    ensures |r| >= |base| + 5 && r[..|base|] == base
    ensures r[|base|..|base| + 5] == [PredictVerb, InputFlag, input, OutputFlag, output]
  {
    var verb := [PredictVerb, InputFlag, input, OutputFlag, output];
    var r := base + (verb + PredictOptions(checkpoint, device, verbose));
    assert r[|base|..][..5] == verb;
    r
  }

  /** What a `predict` command line says was asked. */
  datatype Request = Request(input: string, output: string, checkpoint: Option<string>,
                             device: Option<string>, verbose: bool)

  /** `[flag, value]` at the front of `t`, taken off. */
  function TakePair(flag: string, t: seq<string>): (Option<string>, seq<string>) {
    if |t| >= 2 && t[0] == flag then (Some(t[1]), t[2..]) else (None, t)
  }

  /** Reads back the tokens after the command found by the search. */
  function DecodePredict(t: seq<string>): Option<Request> {
    if |t| < 5 || t[0] != PredictVerb || t[1] != InputFlag || t[3] != OutputFlag then None
    else
      var (c, t1) := TakePair(CheckpointFlag, t[5..]);
      var (d, t2) := TakePair(DeviceFlag, t1);
      if t2 == [] then Some(Request(t[2], t[4], c, d, false))
      else if t2 == [VerboseFlag] then Some(Request(t[2], t[4], c, d, true))
      else None
  }

  lemma TakePairOf(flag: string, o: Option<string>, rest: seq<string>)
    requires rest == [] || rest[0] != flag
    ensures TakePair(flag, Pair(flag, o) + rest) == (o, rest)
  {
    if o.Some? {
      assert (Pair(flag, o) + rest)[2..] == rest;
    } else {
      assert Pair(flag, o) + rest == rest;
    }
  }

  /** The command line keeps everything `predict` was asked: input, output, the given
      checkpoint, a device other than the default, and the verbose switch. */
  lemma PredictArgvDecodes(base: seq<string>, input: string, output: string, checkpoint: Option<string>,
                           device: Option<string>, verbose: bool)
    ensures DecodePredict(PredictArgv(base, input, output, checkpoint, device, verbose)[|base|..])
      == Some(Request(input, output, EmittedCheckpoint(checkpoint), EmittedDevice(device), verbose))
  {
    var verb := [PredictVerb, InputFlag, input, OutputFlag, output];
    var opts := PredictOptions(checkpoint, device, verbose);
    var t := PredictArgv(base, input, output, checkpoint, device, verbose)[|base|..];
    assert t == verb + opts;
    assert t[5..] == opts;
    OptionsDecode(checkpoint, device, verbose);
  }

  lemma OptionsDecode(checkpoint: Option<string>, device: Option<string>, verbose: bool)
    ensures var v: seq<string> := if verbose then [VerboseFlag] else [];
      var (c, t1) := TakePair(CheckpointFlag, PredictOptions(checkpoint, device, verbose));
      var (d, t2) := TakePair(DeviceFlag, t1);
      c == EmittedCheckpoint(checkpoint) && d == EmittedDevice(device) && t2 == v
  {
    var v: seq<string> := if verbose then [VerboseFlag] else [];
    var dv := Pair(DeviceFlag, EmittedDevice(device)) + v;
    assert dv == [] || dv[0] == DeviceFlag || dv[0] == VerboseFlag;
    TakePairOf(CheckpointFlag, EmittedCheckpoint(checkpoint), dv);
    TakePairOf(DeviceFlag, EmittedDevice(device), v);
  }

  /** Called with its defaults, `predict` asks for no checkpoint, the default device and
      no verbose output: only the verb, the input and the output follow the command. */
  lemma PredictDefaults(base: seq<string>, input: string, output: string)
    ensures PredictArgv(base, input, output, None, Some(DefaultDevice), false)
      == base + [PredictVerb, InputFlag, input, OutputFlag, output]
  {
    assert PredictOptions(None, Some(DefaultDevice), false) == [];
  }

  // ---------------------------------------------------------------- the engine

  class SharpEngine {
    /** The project root the module sits in, and `sys.executable`. */
    const root: string
    const python: string
    /** `self.process`: the process `predict` started last. */
    var process: Option<Process>
    /** The signals sent so far, oldest first. */
    var signals: seq<Signal>
    /** What `predict` printed, oldest first. */
    var printed: seq<string>

    constructor (root: string, python: string)
      ensures this.root == root && this.python == python
      ensures process == None && signals == [] && printed == []
    {
      this.root := root;
      this.python := python;
      process := None;
      signals := [];
      printed := [];
    }

    /** `predict(...)` on the machine `fs`/`path`: prints the command, starts it (given
        the id `pid` the system assigns) and keeps it as the current process. */
    method Predict(fs: FileSystem, path: SearchPath, input: string, output: string, checkpoint: Option<string>,
                   device: Option<string>, verbose: bool, pid: nat) returns (started: Process)
      modifies this
      ensures started.argv
        == PredictArgv(SharpCmd(Machine(fs, path, root, python)), input, output, checkpoint, device, verbose)
      ensures started == Process(pid, started.argv, true) && process == Some(started)
      ensures printed == old(printed) + [LaunchPrefix + Join(started.argv, " ")]
      ensures signals == old(signals)
    {
      var cmd := PredictArgv(SharpCmd(Machine(fs, path, root, python)), input, output, checkpoint, device, verbose);
      var line := LaunchPrefix + Join(cmd, " ");
      started := Process(pid, cmd, true);
      printed := printed + [line];
      process := Some(started);
    }

    /** `stop()` on a platform that is Windows or not. */
    method Stop(windows: bool, exited: bool)
      modifies this
      ensures process == StopF(old(process), windows, exited).0
      ensures signals == old(signals) + StopF(old(process), windows, exited).1
      ensures printed == old(printed)
    {
      if process.Some? && process.value.running && !exited {
        var p := process.value;
        if windows {
          signals := signals + [Terminate(p.pid)];
        } else {
          signals := signals + [KillGroup(p.pid)];
        }
        process := Some(p.(running := false));
      }
    }
  }
}
