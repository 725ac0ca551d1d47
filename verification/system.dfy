/** Host detection and binary lookup (app/core/system.py): Apple Silicon detection,
    the thread-count heuristic, the first-match-wins binary search, the compute device
    and the list of missing dependencies. Platform queries and the file system are inputs. */
module HostSystem {
  import opened Text
  import opened Host

  /** `platform.system() == 'Darwin' and platform.machine() == 'arm64'` */
  function IsAppleSilicon(system: string, machine: string): (r: bool)
    ensures r <==> system == "Darwin" && machine == "arm64"
  {
    system == "Darwin" && machine == "arm64"
  }

  /** `os.cpu_count() or d`: an unknown count and a count of 0 both give `d`. */
  function CpuCountOr(cpu: Option<nat>, d: nat): (r: nat)
    ensures cpu.Some? && cpu.value > 0 ==> r == cpu.value
    ensures cpu.None? || cpu.value == 0 ==> r == d
  {
    if cpu.Some? && cpu.value > 0 then cpu.value else d
  }

  /** `get_optimal_threads()`. On Apple Silicon about 80% of the cores (`int(n * 0.80)`,
      which is the floor of 4n/5 for any count a machine reports), at least one, and one
      core fewer than the total on small machines; elsewhere every core. */
  function OptimalThreads(silicon: bool, cpu: Option<nat>): (r: nat)
    ensures silicon ==> 1 <= r <= CpuCountOr(cpu, 8)
    ensures silicon && CpuCountOr(cpu, 8) >= 2 ==> r < CpuCountOr(cpu, 8)
    ensures silicon && CpuCountOr(cpu, 8) > 4 ==> 5 * r <= 4 * CpuCountOr(cpu, 8) < 5 * (r + 1)
    ensures silicon && CpuCountOr(cpu, 8) <= 4 ==> r == if CpuCountOr(cpu, 8) == 1 then 1 else CpuCountOr(cpu, 8) - 1
    ensures !silicon ==> r == CpuCountOr(cpu, 4)
  {
    if silicon then
      var n := CpuCountOr(cpu, 8);
      if n > 4 then Max1(4 * n / 5) else Max1(n - 1)
    else CpuCountOr(cpu, 4)
  }

  function Max1(x: int): (r: nat)
    ensures r >= 1 && r >= x && (x >= 1 ==> r == x)
  {
    if x >= 1 then x else 1
  }

  /** An unknown core count on Apple Silicon is taken as 8, which gives 6 threads. */
  lemma UnknownCoresOnSilicon()
    ensures OptimalThreads(true, None) == 6
  {
    assert 4 * 8 / 5 == 6;
  }

  /** The places looked at before PATH, in order: `engines/<name>`, and for "colmap"
      the executable inside `engines/COLMAP.app`. `root` is the resolved project root
      (absolute, normalised, not "/"), so joining is concatenation with "/". */
  function LocalCandidates(root: string, name: string): (r: seq<string>)
    ensures |r| == if name == "colmap" then 2 else 1
  {
    var engines := root + "/engines";
    [engines + "/" + name]
      + (if name == "colmap" then [engines + "/COLMAP.app/Contents/MacOS/colmap"] else [])
  }

  /** The first of `cands` that exists and is executable. */
  function FirstExecutable(fs: FileSystem, cands: seq<string>): (r: Option<nat>)
    ensures r.Some? ==> r.value < |cands| && IsExecutable(fs, cands[r.value])
    ensures r.Some? ==> forall j :: 0 <= j < r.value ==> !IsExecutable(fs, cands[j])
    ensures r.None? ==> forall j :: 0 <= j < |cands| ==> !IsExecutable(fs, cands[j])
  {
    if cands == [] then None
    else if IsExecutable(fs, cands[0]) then Some(0)
    else match FirstExecutable(fs, cands[1..]) {
      case None => None
      case Some(i) => Some(i + 1)
    }
  }

  /** `resolve_binary(name)` with the project root `root`: the first local candidate
      that exists and is executable, else the PATH lookup, else None (never an error). */
  function ResolveBinary(fs: FileSystem, root: string, name: string, path: SearchPath): (r: Option<string>)
    ensures var c := LocalCandidates(root, name);
      r == match FirstExecutable(fs, c) {
        case Some(i) => Some(c[i])
        case None => Which(path, name)
      }
  {
    var c := LocalCandidates(root, name);
    if IsExecutable(fs, c[0]) then Some(c[0])
    else if |c| == 2 && IsExecutable(fs, c[1]) then Some(c[1])
    else Which(path, name)
  }

  /** Nothing found is reported as None: only when PATH has no such program and no
      local candidate is executable. */
  lemma ResolveBinaryNone(fs: FileSystem, root: string, name: string, path: SearchPath)
    ensures ResolveBinary(fs, root, name, path).None?
      <==> name !in path && forall q :: q in LocalCandidates(root, name) ==> !IsExecutable(fs, q)
  {
    var c := LocalCandidates(root, name);
    if ResolveBinary(fs, root, name, path).None? {
      forall q | q in c ensures !IsExecutable(fs, q) {
        var i :| 0 <= i < |c| && c[i] == q;
      }
    }
  }

  /** `get_device()` */
  function Device(silicon: bool, path: SearchPath): (r: string)
    ensures r == "mps" <==> silicon
    ensures r == "cuda" <==> !silicon && "nvidia-smi" in path
    ensures r == "cpu" <==> !silicon && "nvidia-smi" !in path
  {
    if silicon then "mps"
    else if Which(path, "nvidia-smi").Some? then "cuda"
    else "cpu"
  }

  predicate IsSubsequence(s: seq<string>, t: seq<string>)
    decreases |t|
  {
    s == [] || (t != [] && (if s[0] == t[0] then IsSubsequence(s[1..], t[1..]) else IsSubsequence(s, t[1..])))
  }

  /** `check_dependencies()`: the missing ones among ffmpeg, colmap and the send2trash
      module, in that order; `trashImportable` stands for `import send2trash` succeeding. */
  function CheckDependencies(fs: FileSystem, root: string, path: SearchPath, trashImportable: bool): (r: seq<string>)
    ensures IsSubsequence(r, ["ffmpeg", "colmap", "send2trash"])
    ensures "ffmpeg" in r <==> ResolveBinary(fs, root, "ffmpeg", path).None?
    ensures "colmap" in r <==> ResolveBinary(fs, root, "colmap", path).None?
    ensures "send2trash" in r <==> !trashImportable
  {
    var a: seq<string> := if ResolveBinary(fs, root, "ffmpeg", path).None? then ["ffmpeg"] else [];
    var b: seq<string> := if ResolveBinary(fs, root, "colmap", path).None? then ["colmap"] else [];
    var c: seq<string> := if trashImportable then [] else ["send2trash"];
    SubsequenceOfThree(a, b, c);
    assert "ffmpeg" !in b + c && "colmap" !in a + c && "send2trash" !in a + b;
    a + b + c
  }

  lemma SubsequenceOfThree(a: seq<string>, b: seq<string>, c: seq<string>)
    requires a == [] || a == ["ffmpeg"]
    requires b == [] || b == ["colmap"]
    requires c == [] || c == ["send2trash"]
    ensures IsSubsequence(a + b + c, ["ffmpeg", "colmap", "send2trash"])
  {
    var t: seq<string> := ["ffmpeg", "colmap", "send2trash"];
    assert t[1..] == ["colmap", "send2trash"];
    assert t[1..][1..] == ["send2trash"];
    assert IsSubsequence(c, ["send2trash"]);
    assert IsSubsequence(b + c, t[1..]);
  }
}
