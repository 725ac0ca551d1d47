/** What the programs ask of the machine they run on, given as values: the file system
    as a map from path to entry, the result of `shutil.which` as a map, an external
    process as the lines it prints and its exit code, and a cancellation flag as the
    poll from which it reads true. */
module Host {
  import opened Text

  /** A path that exists: a regular file or not (a directory), executable or not
      (`os.access(p, os.X_OK)`), and its modification time. */
  datatype Entry = Entry(isFile: bool, isExec: bool, mtime: int)

  type FileSystem = map<string, Entry>

  predicate IsFile(fs: FileSystem, p: string) {
    p in fs && fs[p].isFile
  }

  predicate IsExecutable(fs: FileSystem, p: string) {
    p in fs && fs[p].isExec
  }

  /** `shutil.which(name)`: the programs found on PATH, by name. */
  type SearchPath = map<string, string>

  function Which(path: SearchPath, name: string): Option<string> {
    if name in path then Some(path[name]) else None
  }

  /** An external program once started: `FileNotFoundError` when the binary is missing,
      else the lines of its merged stdout/stderr and its exit code. */
  datatype ProcOutcome = NotFound | Ran(lines: seq<string>, exit: int)

  /** A cancellation flag that is raised at most once and never lowered: `Some(n)` means
      that the polls numbered n, n+1, ... read true. */
  type Schedule = Option<nat>

  predicate CancelledAt(s: Schedule, k: nat) {
    s.Some? && s.value <= k
  }

  /** `mkdir(exist_ok=True)`: a missing directory is created, an existing path is kept. */
  function MakeDir(fs: FileSystem, p: string): (r: FileSystem)
    ensures p in r && r.Keys == fs.Keys + {p}
    ensures forall q :: q in fs ==> r[q] == fs[q]
  {
    if p in fs then fs else fs[p := Entry(false, true, 0)]
  }

  /** A started process as `stop` sees it: its id and whether it still runs. */
  datatype Process = Process(pid: nat, argv: seq<string>, running: bool)

  /** The signal `stop` sends: SIGTERM to the process group (`os.killpg`), or
      `terminate()` on Windows. */
  datatype Signal = KillGroup(pgid: nat) | Terminate(pid: nat)

  /** `stop()` of the Brush and Sharp launchers: `exited` is `process.poll() is not None`
      at that moment. A running process is signalled, waited for, and no longer runs;
      otherwise nothing happens. */
  function StopF(process: Option<Process>, windows: bool, exited: bool): (r: (Option<Process>, seq<Signal>))
    ensures r.1 != [] <==> process.Some? && process.value.running && !exited
    ensures r.1 == [] ==> r.0 == process
    ensures r.1 != [] ==> r.0.Some? && !r.0.value.running && r.0.value.pid == process.value.pid
  {
    if process.Some? && process.value.running && !exited then
      var p := process.value;
      (Some(p.(running := false)), [if windows then Terminate(p.pid) else KillGroup(p.pid)])
    else (process, [])
  }

  /** Stopping twice signals once: the second call finds nothing running. */
  lemma StopTwice(process: Option<Process>, windows: bool, exited: bool, exited2: bool)
    requires exited ==> exited2
    ensures StopF(StopF(process, windows, exited).0, windows, exited2).1 == []
  {
  }
}
