/** The Brush worker (app/gui/workers.py, `BrushWorker`): the dataset-root adjustment,
    the search for the newest PLY file and its rename, and the success or failure
    `run` reports. The disk is given as the listings, walks and modification times the
    worker reads; signals to the GUI are the log lines and the final verdict. */
module BrushWorkers {
  import opened Text
  import opened Paths
  import opened Host
  import BrushTrainer

  // ---------------------------------------------------------------------------------
  // resolve_dataset_root

  /** The suffix tests applied to an already normalised path (`os.path.join("sparse", "0")`
      is "sparse/0" on POSIX). */
  function ResolveNormal(p: string): string {
    if EndsWith(p, "sparse/0") then Dirname(Dirname(p))
    else if EndsWith(p, "sparse") then Dirname(p)
    else p
  }

  /** `BrushWorker.resolve_dataset_root(path)` */
  function ResolveDatasetRoot(path: string): string {
    ResolveNormal(NormPath(path))
  }

  /** `dirname` of a clean rendering, as a rendering again; "" when it runs out. */
  function Up(root: string, comps: seq<string>): string {
    if root == "" && comps == [] then "" else Render(root, comps)
  }

  /** The same decision stated on the components of the normalised path: a last
      component "0" after one whose name ends in "sparse" drops both, a last component
      whose name ends in "sparse" drops itself, and anything else is kept. The names are
      compared by suffix, so "mysparse" counts as "sparse". */
  function ResolveComponents(root: string, comps: seq<string>): string
  {
    var n := |comps|;
    if n >= 2 && comps[n - 1] == "0" && EndsWith(comps[n - 2], "sparse") then Up(root, comps[..n - 2])
    else if n >= 1 && EndsWith(comps[n - 1], "sparse") then Up(root, comps[..n - 1])
    else Render(root, comps)
  }

  lemma EndsWithAppend(h: string, s: string, t: string)
    ensures EndsWith(h + t, s + t) <==> EndsWith(h, s)
  {
    if |s| <= |h| {
      assert (h + t)[|h + t| - |s + t|..] == h[|h| - |s|..] + t;
      if EndsWith(h + t, s + t) {
        assert (h + t)[|h + t| - |s + t|..][..|s|] == s;
      }
    }
  }

  lemma EndsWithSuffix(p: string, s: string, t: string)
    requires EndsWith(p, s + t)
    ensures EndsWith(p, t)
  {
    assert p[|p| - |t|..] == p[|p| - |s + t|..][|s|..];
  }

  /** A suffix free of "/" is matched inside the last component alone. */
  lemma EndsAfterSlash(a: string, last: string, suf: string)
    requires '/' !in last && '/' !in suf
    ensures EndsWith(a + "/" + last, suf) <==> EndsWith(last, suf)
  {
    var p := a + "/" + last;
    if |suf| <= |last| {
      assert p[|p| - |suf|..] == last[|last| - |suf|..];
    } else if |suf| <= |p| {
      var t := p[|p| - |suf|..];
      assert t[|suf| - |last| - 1] == '/';
      assert t[|suf| - |last| - 1] in t;
    }
  }

  /** What stands before the "/" ahead of the last component of a rendering. */
  function Head(root: string, comps: seq<string>): string
    requires comps != [] && (|comps| == 1 ==> root != "")
  {
    if |comps| == 1 then root[..|root| - 1] else Render(root, comps[..|comps| - 1])
  }

  lemma RenderSnoc(root: string, init: seq<string>, last: string)
    requires root == "" || root == "/" || root == "//"
    requires forall i :: 0 <= i < |init| ==> init[i] != "" && '/' !in init[i]
    requires last != ""
    ensures Render(root, init + [last]) == if init == [] then root + last else Render(root, init) + "/" + last
  {
    if init == [] {
      RenderSingle(root, last);
    } else {
      RenderLonger(root, init, last);
    }
  }

  lemma RenderSingle(root: string, last: string)
    requires last != ""
    ensures Render(root, [] + [last]) == root + last
  {
    assert [] + [last] == [last];
  }

  lemma RenderLonger(root: string, init: seq<string>, last: string)
    requires forall i :: 0 <= i < |init| ==> init[i] != "" && '/' !in init[i]
    requires init != []
    ensures Render(root, init + [last]) == Render(root, init) + "/" + last
  {
    JoinAppend(init, last, "/");
    JoinNoSlash(init);
  }

  lemma RenderEnd(root: string, comps: seq<string>)
    requires Clean(root, comps) && comps != []
    ensures root == "" && |comps| == 1 ==> Render(root, comps) == comps[0]
    ensures !(root == "" && |comps| == 1) ==>
      Render(root, comps) == Head(root, comps) + "/" + comps[|comps| - 1]
  {
    var last := comps[|comps| - 1];
    var init := comps[..|comps| - 1];
    assert comps == init + [last];
    RenderSnoc(root, init, last);
    if |comps| == 1 && root == "//" {
      assert root + last == "/" + "/" + last;
    } else if |comps| == 1 && root == "/" {
      assert root + last == "" + "/" + last;
    }
  }

  /** The normalised path ends in "sparse" exactly when its last component does. */
  lemma EndsWithSparse(root: string, comps: seq<string>)
    requires Clean(root, comps)
    ensures EndsWith(Render(root, comps), "sparse") <==> comps != [] && EndsWith(comps[|comps| - 1], "sparse")
  {
    if comps == [] {
      assert |Render(root, comps)| <= 2;
    } else {
      RenderEnd(root, comps);
      if !(root == "" && |comps| == 1) {
        EndsAfterSlash(Head(root, comps), comps[|comps| - 1], "sparse");
      }
    }
  }

  /** A rendering whose last component is longer than one character, or is alone
      without a root, cannot end in "/0". */
  lemma EndsWithSlashZero(h: string, last: string)
    requires '/' !in last && last != ""
    ensures EndsWith(h + "/" + last, "/0") <==> last == "0"
  {
    var p := h + "/" + last;
    if |last| >= 2 {
      assert p[|p| - 2] == last[|last| - 2];
      assert last[|last| - 2] in last;
    } else {
      assert p[|p| - 2..] == "/" + last;
      assert ("/" + last)[1..] == last;
    }
  }

  /** After a "/", "sparse/0" is matched by a last component "0" behind a head
      ending in "sparse". */
  lemma SparseZeroAfterSlash(h: string, last: string)
    requires '/' !in last && last != ""
    ensures EndsWith(h + "/" + last, "sparse/0") <==> last == "0" && EndsWith(h, "sparse")
  {
    var p := h + "/" + last;
    EndsWithSlashZero(h, last);
    if EndsWith(p, "sparse/0") {
      EndsWithSuffix(p, "sparse", "/0");
    }
    if last == "0" {
      assert p == h + "/0";
      EndsWithAppend(h, "sparse", "/0");
    }
  }

  lemma HeadEndsSparse(root: string, comps: seq<string>)
    requires Clean(root, comps) && comps != [] && !(root == "" && |comps| == 1)
    ensures EndsWith(Head(root, comps), "sparse") <==> |comps| >= 2 && EndsWith(comps[|comps| - 2], "sparse")
  {
    var n := |comps|;
    if n == 1 {
      assert |Head(root, comps)| <= 1;
    } else {
      CleanPrefix(root, comps, n - 1);
      EndsWithSparse(root, comps[..n - 1]);
    }
  }

  /** The normalised path ends in "sparse/0" exactly when its last component is "0" and
      the one before it ends in "sparse". */
  lemma EndsWithSparseZero(root: string, comps: seq<string>)
    requires Clean(root, comps)
    ensures EndsWith(Render(root, comps), "sparse/0")
      <==> |comps| >= 2 && comps[|comps| - 1] == "0" && EndsWith(comps[|comps| - 2], "sparse")
  {
    var p := Render(root, comps);
    var n := |comps|;
    if comps == [] {
      assert |p| <= 2;
    } else if root == "" && n == 1 {
      RenderEnd(root, comps);
      if |p| >= 8 {
        assert p[|p| - 2] in comps[0];
        assert p[|p| - 8..][6] == p[|p| - 2];
      }
    } else {
      RenderEnd(root, comps);
      SparseZeroAfterSlash(Head(root, comps), comps[n - 1]);
      HeadEndsSparse(root, comps);
    }
  }

  lemma UpOfRender(root: string, comps: seq<string>)
    requires Clean(root, comps) && comps != []
    ensures Dirname(Render(root, comps)) == Up(root, comps[..|comps| - 1])
  {
    DirnameOfRender(root, comps);
  }

  lemma UpNonEmpty(root: string, comps: seq<string>)
    requires comps != []
    ensures Up(root, comps) == Render(root, comps)
  {
  }

  lemma UpTwice(root: string, comps: seq<string>)
    requires Clean(root, comps) && |comps| >= 2
    ensures Dirname(Dirname(Render(root, comps))) == Up(root, comps[..|comps| - 2])
  {
    var n := |comps|;
    UpOfRender(root, comps);
    CleanPrefix(root, comps, n - 1);
    assert comps[..n - 1][..n - 2] == comps[..n - 2];
    UpOfUp(root, comps[..n - 1], comps[..n - 2]);
  }

  lemma UpOfUp(root: string, comps: seq<string>, init: seq<string>)
    requires Clean(root, comps) && comps != [] && init == comps[..|comps| - 1]
    ensures Dirname(Up(root, comps)) == Up(root, init)
  {
    UpNonEmpty(root, comps);
    UpOfRender(root, comps);
  }

  /** On a normalised path the character tests agree with the component decision. */
  lemma ResolveNormalRender(root: string, comps: seq<string>)
    requires Clean(root, comps)
    ensures ResolveNormal(Render(root, comps)) == ResolveComponents(root, comps)
  {
    var n := |comps|;
    if n >= 2 && comps[n - 1] == "0" && EndsWith(comps[n - 2], "sparse") {
      ResolveDropsTwo(root, comps);
    } else if n >= 1 && EndsWith(comps[n - 1], "sparse") {
      ResolveDropsOne(root, comps);
    } else {
      ResolveKeeps(root, comps);
    }
  }

  lemma ResolveDropsTwo(root: string, comps: seq<string>)
    requires Clean(root, comps)
    requires |comps| >= 2 && comps[|comps| - 1] == "0" && EndsWith(comps[|comps| - 2], "sparse")
    ensures ResolveNormal(Render(root, comps)) == Up(root, comps[..|comps| - 2])
  {
    EndsWithSparseZero(root, comps);
    UpTwice(root, comps);
  }

  lemma ResolveDropsOne(root: string, comps: seq<string>)
    requires Clean(root, comps)
    requires !(|comps| >= 2 && comps[|comps| - 1] == "0" && EndsWith(comps[|comps| - 2], "sparse"))
    requires |comps| >= 1 && EndsWith(comps[|comps| - 1], "sparse")
    ensures ResolveNormal(Render(root, comps)) == Up(root, comps[..|comps| - 1])
  {
    EndsWithSparseZero(root, comps);
    EndsWithSparse(root, comps);
    UpOfRender(root, comps);
  }

  lemma ResolveKeeps(root: string, comps: seq<string>)
    requires Clean(root, comps)
    requires !(|comps| >= 2 && comps[|comps| - 1] == "0" && EndsWith(comps[|comps| - 2], "sparse"))
    requires !(|comps| >= 1 && EndsWith(comps[|comps| - 1], "sparse"))
    ensures ResolveNormal(Render(root, comps)) == Render(root, comps)
  {
    EndsWithSparseZero(root, comps);
    EndsWithSparse(root, comps);
  }

  /** `resolve_dataset_root` decides on the components of the normalised path. */
  lemma ResolveByComponents(path: string)
    ensures ResolveDatasetRoot(path) == ResolveComponents(RootOf(path), NormComponents(path))
  {
    NormPathIsRender(path);
    ResolveNormalRender(RootOf(path), NormComponents(path));
  }

  /** On a path already normalised, the same. */
  lemma ResolveOfRender(root: string, comps: seq<string>)
    requires Clean(root, comps)
    ensures ResolveDatasetRoot(Render(root, comps)) == ResolveComponents(root, comps)
  {
    NormPathOfRender(root, comps);
    ResolveNormalRender(root, comps);
  }

  /** "<root>/sparse/0" gives "<root>". */
  lemma ResolveSparseZero(root: string, init: seq<string>)
    requires Clean(root, init + ["sparse", "0"])
    ensures ResolveDatasetRoot(Render(root, init + ["sparse", "0"])) == Up(root, init)
  {
    var comps := init + ["sparse", "0"];
    NormPathOfRender(root, comps);
    ResolveNormalRender(root, comps);
    assert comps[..|comps| - 2] == init;
  }

  /** "<root>/sparse" gives "<root>". */
  lemma ResolveSparse(root: string, init: seq<string>)
    requires Clean(root, init + ["sparse"])
    ensures ResolveDatasetRoot(Render(root, init + ["sparse"])) == Up(root, init)
  {
    var comps := init + ["sparse"];
    NormPathOfRender(root, comps);
    ResolveNormalRender(root, comps);
    assert comps[..|comps| - 1] == init;
  }

  lemma DirnameShorter(p: string)
    requires p != [] && p[|p| - 1] != '/'
    ensures |Dirname(p)| < |p|
  {
  }

  lemma DirnameNoLonger(p: string)
    ensures |Dirname(p)| <= |p|
  {
  }

  /** The result differs from the normalised path exactly when one of the two suffix
      tests fires; every other path comes back as its `normpath`. */
  lemma ResolveChanges(path: string)
    ensures var p := NormPath(path);
      ResolveDatasetRoot(path) != p <==> EndsWith(p, "sparse/0") || EndsWith(p, "sparse")
  {
    var p := NormPath(path);
    if EndsWith(p, "sparse/0") {
      assert p[|p| - 1] == '0';
      DirnameShorter(p);
      DirnameNoLonger(Dirname(p));
    } else if EndsWith(p, "sparse") {
      assert p[|p| - 1] == 'e';
      DirnameShorter(p);
    }
  }

  lemma CleanPrefix(root: string, comps: seq<string>, k: nat)
    requires Clean(root, comps) && k <= |comps|
    ensures Clean(root, comps[..k])
  {
    assert forall i :: 0 <= i < k ==> comps[..k][i] == comps[i];
  }

  /** Every result is empty or already normalised. */
  lemma ComponentsNormalised(root: string, comps: seq<string>)
    requires Clean(root, comps)
    ensures var r := ResolveComponents(root, comps);
      r == "" || NormPath(r) == r
  {
    var n := |comps|;
    if n >= 2 && comps[n - 1] == "0" && EndsWith(comps[n - 2], "sparse") {
      UpNormalised(root, comps, n - 2);
    } else if n >= 1 && EndsWith(comps[n - 1], "sparse") {
      UpNormalised(root, comps, n - 1);
    } else {
      KeptNormalised(root, comps);
    }
  }

  /** Going up to the first `k` components gives an empty or a normalised path. */
  lemma UpNormalised(root: string, comps: seq<string>, k: nat)
    requires Clean(root, comps) && k <= |comps|
    requires ResolveComponents(root, comps) == Up(root, comps[..k])
    ensures var r := ResolveComponents(root, comps);
      r == "" || NormPath(r) == r
  {
    CleanPrefix(root, comps, k);
    NormPathOfRender(root, comps[..k]);
  }

  lemma KeptNormalised(root: string, comps: seq<string>)
    requires Clean(root, comps) && ResolveComponents(root, comps) == Render(root, comps)
    ensures var r := ResolveComponents(root, comps);
      r == "" || NormPath(r) == r
  {
    NormPathOfRender(root, comps);
  }

  /** Resolving again changes nothing, unless the first result is empty or itself ends
      in "sparse" or "sparse/0". */
  lemma ResolveIdempotent(path: string)
    requires var r := ResolveDatasetRoot(path);
      r != "" && !EndsWith(r, "sparse") && !EndsWith(r, "sparse/0")
    ensures ResolveDatasetRoot(ResolveDatasetRoot(path)) == ResolveDatasetRoot(path)
  {
    ResolveByComponents(path);
    NormPathIsRender(path);
    ComponentsNormalised(RootOf(path), NormComponents(path));
  }

  lemma ResolveLiteral(path: string, root: string, comps: seq<string>)
    requires Clean(root, comps) && Render(root, comps) == path
    ensures ResolveDatasetRoot(path) == ResolveComponents(root, comps)
  {
    ResolveOfRender(root, comps);
  }

  lemma MySparseComponents()
    ensures Clean("/", ["d", "mysparse"])
    ensures Render("/", ["d", "mysparse"]) == "/d/mysparse"
    ensures ResolveComponents("/", ["d", "mysparse"]) == "/d"
  {
    MySparseClean();
    MySparseRender();
    MySparseDecision();
  }

  lemma MySparseClean()
    ensures Clean("/", ["d", "mysparse"])
  {
  }

  lemma MySparseRender()
    ensures Render("/", ["d", "mysparse"]) == "/d/mysparse"
  {
    JoinCons("d", ["mysparse"], "/");
    assert ["d"] + ["mysparse"] == ["d", "mysparse"];
    assert Join(["mysparse"], "/") == "mysparse";
  }

  lemma MySparseDecision()
    ensures ResolveComponents("/", ["d", "mysparse"]) == "/d"
  {
    assert ["d", "mysparse"][..1] == ["d"];
    assert "mysparse" == "my" + "sparse";
    EndsWithAppend("my", "", "sparse");
  }

  /** The tests look at characters, not components: "mysparse" counts as "sparse". */
  lemma ResolveMySparse()
    ensures ResolveDatasetRoot("/d/mysparse") == "/d"
  {
    MySparseComponents();
    ResolveLiteral("/d/mysparse", "/", ["d", "mysparse"]);
  }

  lemma SparseTwiceComponents()
    ensures Clean("/", ["a", "sparse", "sparse", "0"])
    ensures Render("/", ["a", "sparse", "sparse", "0"]) == "/a/sparse/sparse/0"
    ensures ResolveComponents("/", ["a", "sparse", "sparse", "0"]) == "/a/sparse"
  {
    SparseTwiceClean();
    SparseTwiceRender();
    SparseTwiceDecision();
  }

  lemma SparseTwiceClean()
    ensures Clean("/", ["a", "sparse", "sparse", "0"])
  {
  }

  lemma SparseTwiceRender()
    ensures Render("/", ["a", "sparse", "sparse", "0"]) == "/a/sparse/sparse/0"
  {
    JoinCons("sparse", ["0"], "/");
    JoinCons("sparse", ["sparse", "0"], "/");
    JoinCons("a", ["sparse", "sparse", "0"], "/");
    assert ["a"] + ["sparse", "sparse", "0"] == ["a", "sparse", "sparse", "0"];
  }

  lemma SparseTwiceDecision()
    ensures ResolveComponents("/", ["a", "sparse", "sparse", "0"]) == "/a/sparse"
  {
    var comps := ["a", "sparse", "sparse", "0"];
    assert comps[..2] == ["a", "sparse"];
    assert comps[2] == "sparse" && comps[3] == "0";
    assert Render("/", ["a", "sparse"]) == "/a/sparse";
  }

  lemma SparseOnceComponents()
    ensures Clean("/", ["a", "sparse"]) && Render("/", ["a", "sparse"]) == "/a/sparse"
    ensures ResolveComponents("/", ["a", "sparse"]) == "/a"
  {
    assert ["a", "sparse"][..1] == ["a"];
  }

  /** "/a/sparse/sparse/0" gives "/a/sparse", which resolves once more to "/a". */
  lemma ResolveNotIdempotent()
    ensures ResolveDatasetRoot("/a/sparse/sparse/0") == "/a/sparse"
    ensures ResolveDatasetRoot("/a/sparse") == "/a"
  {
    SparseTwiceComponents();
    ResolveLiteral("/a/sparse/sparse/0", "/", ["a", "sparse", "sparse", "0"]);
    SparseOnceComponents();
    ResolveLiteral("/a/sparse", "/", ["a", "sparse"]);
  }

  /** A relative "sparse" runs out of parents: the result is "", which resolves to ".". */
  lemma ResolveToEmpty()
    ensures ResolveDatasetRoot("sparse") == ""
    ensures ResolveDatasetRoot("") == "."
  {
    assert Clean("", ["sparse"]);
    assert Render("", ["sparse"]) == "sparse";
    ResolveOfRender("", ["sparse"]);
    assert NormPath("") == ".";
  }

  // ---------------------------------------------------------------------------------
  // handle_ply_rename

  /** The sanitised name: `os.path.basename(ply_name)`, with ".ply" appended only when
      it does not end in it already. */
  function SanitizePlyName(name: string): (r: string)
    ensures '/' !in r
    ensures EndsWith(r, ".ply")
    ensures EndsWith(Basename(name), ".ply") ==> r == Basename(name)
    ensures !EndsWith(Basename(name), ".ply") ==> r == Basename(name) + ".ply"
  {
    var base := Basename(name);
    if EndsWith(base, ".ply") then base
    else
      assert (base + ".ply")[|base|..] == ".ply";
      base + ".ply"
  }

  /** Appending never doubles the suffix: a result ending in ".ply.ply" is the base
      name as given. */
  lemma SanitizeNoDoubleSuffix(name: string)
    ensures EndsWith(SanitizePlyName(name), ".ply.ply") ==> SanitizePlyName(name) == Basename(name)
  {
    var base := Basename(name);
    if !EndsWith(base, ".ply") {
      NoDoubleAppend(base);
    }
  }

  lemma NoDoubleAppend(base: string)
    requires !EndsWith(base, ".ply")
    ensures !EndsWith(base + ".ply", ".ply.ply")
  {
    assert ".ply.ply" == ".ply" + ".ply";
    EndsWithAppend(base, ".ply", ".ply");
  }

  lemma BasenameOfPlain(s: string)
    requires '/' !in s
    ensures Basename(s) == s
  {
  }

  /** Sanitising a sanitised name changes nothing. */
  lemma SanitizeIdempotent(name: string)
    ensures SanitizePlyName(SanitizePlyName(name)) == SanitizePlyName(name)
  {
    BasenameOfPlain(SanitizePlyName(name));
  }

  /** One step of `os.walk`: a directory and the names of the files in it. */
  datatype WalkStep = WalkStep(root: string, files: seq<string>)

  /** What the search reads from the disk: `os.listdir` of every directory that exists
      (in listing order), the steps `os.walk` yields from a top directory (a top
      directory that is absent yields none), and `os.path.getmtime` of a path. */
  datatype Disk = Disk(
    listing: map<string, seq<string>>,
    walks: map<string, seq<WalkStep>>,
    mtime: string -> int)

  /** A file the search weighs: where it is, its name, and its modification time. */
  datatype Candidate = Candidate(dir: string, name: string, mtime: int)

  function PathOf(c: Candidate): string {
    OsJoin(c.dir, c.name)
  }

  /** A name a scan weighs: a ".ply" file, other than `skip` when one is given. */
  predicate Eligible(name: string, skip: Option<string>) {
    EndsWith(name, ".ply") && (skip.Some? ==> name != skip.value)
  }

  function Weighed(disk: Disk, dir: string, name: string, skip: Option<string>): seq<Candidate> {
    if Eligible(name, skip) then [Candidate(dir, name, disk.mtime(OsJoin(dir, name)))] else []
  }

  /** The candidates among `names` in `dir`, in order. */
  function Candidates(disk: Disk, dir: string, names: seq<string>, skip: Option<string>): (r: seq<Candidate>)
    ensures |r| <= |names|
  {
    if names == [] then []
    else Weighed(disk, dir, names[0], skip) + Candidates(disk, dir, names[1..], skip)
  }

  /** Every candidate is an eligible name of `names` in `dir`, with its own mtime. */
  lemma {:induction false} CandidateSound(disk: Disk, dir: string, names: seq<string>, skip: Option<string>, k: nat)
    requires k < |Candidates(disk, dir, names, skip)|
    ensures var c := Candidates(disk, dir, names, skip)[k];
      c.dir == dir && c.name in names && Eligible(c.name, skip) && c.mtime == disk.mtime(PathOf(c))
    decreases |names|
  {
    var here := Weighed(disk, dir, names[0], skip);
    var tail := Candidates(disk, dir, names[1..], skip);
    assert Candidates(disk, dir, names, skip) == here + tail;
    if k >= |here| {
      CandidateSound(disk, dir, names[1..], skip, k - |here|);
      assert (here + tail)[k] == tail[k - |here|];
    }
  }

  /** Every eligible name of `names` is a candidate. */
  lemma {:induction false} CandidateComplete(disk: Disk, dir: string, names: seq<string>, skip: Option<string>, f: string)
    requires f in names && Eligible(f, skip)
    ensures Candidate(dir, f, disk.mtime(OsJoin(dir, f))) in Candidates(disk, dir, names, skip)
    decreases |names|
  {
    var here := Weighed(disk, dir, names[0], skip);
    var tail := Candidates(disk, dir, names[1..], skip);
    assert Candidates(disk, dir, names, skip) == here + tail;
    if f != names[0] {
      assert f in names[1..];
      CandidateComplete(disk, dir, names[1..], skip, f);
    }
  }

  /** Scanning the candidates of `names` takes their first name, when eligible, then the rest. */
  lemma ScanFirst(disk: Disk, dir: string, names: seq<string>, skip: Option<string>, ch: Choice)
    requires names != []
    ensures Latest(Candidates(disk, dir, names, skip), ch)
      == Latest(Candidates(disk, dir, names[1..], skip),
           if Eligible(names[0], skip) then Step(Candidate(dir, names[0], disk.mtime(OsJoin(dir, names[0]))), ch) else ch)
  {
    LatestAppend(Weighed(disk, dir, names[0], skip), Candidates(disk, dir, names[1..], skip), ch);
  }

  /** The running choice of the scans: the path found so far and its mtime. */
  datatype Choice = Choice(found: Option<string>, last: int)

  /** A candidate replaces the current choice only when it is strictly newer. */
  function Step(c: Candidate, ch: Choice): Choice {
    if c.mtime > ch.last then Choice(Some(PathOf(c)), c.mtime) else ch
  }

  /** The scan of `cs` in order from the choice `ch`. */
  function Latest(cs: seq<Candidate>, ch: Choice): Choice {
    if cs == [] then ch else Latest(cs[1..], Step(cs[0], ch))
  }

  /** `cs[i]` is the newest candidate, newer than `last`, and strictly newer than every
      one before it: the first of the newest. */
  predicate Wins(cs: seq<Candidate>, last: int, i: int) {
    && 0 <= i < |cs| && cs[i].mtime > last
    && (forall j :: 0 <= j < |cs| ==> cs[j].mtime <= cs[i].mtime)
    && (forall j :: 0 <= j < i ==> cs[j].mtime < cs[i].mtime)
  }

  /** The scan keeps its choice when nothing is newer, and otherwise ends on the first
      of the newest candidates. */
  lemma {:induction false} LatestWins(cs: seq<Candidate>, ch: Choice)
    ensures var r := Latest(cs, ch);
      || (r == ch && forall j :: 0 <= j < |cs| ==> cs[j].mtime <= ch.last)
      || (exists i :: Wins(cs, ch.last, i) && r == Choice(Some(PathOf(cs[i])), cs[i].mtime))
    decreases |cs|
  {
    if cs != [] {
      var tail := cs[1..];
      var ch' := Step(cs[0], ch);
      LatestWins(tail, ch');
      var r := Latest(cs, ch);
      assert r == Latest(tail, ch');
      if r == ch' && forall j :: 0 <= j < |tail| ==> tail[j].mtime <= ch'.last {
        HeadDecides(cs, ch);
      } else {
        var i :| Wins(tail, ch'.last, i) && r == Choice(Some(PathOf(tail[i])), tail[i].mtime);
        TailDecides(cs, ch, i);
      }
    }
  }

  /** Nothing after the first candidate is newer than the choice it leaves. */
  lemma HeadDecides(cs: seq<Candidate>, ch: Choice)
    requires cs != []
    requires forall j :: 0 <= j < |cs[1..]| ==> cs[1..][j].mtime <= Step(cs[0], ch).last
    ensures cs[0].mtime > ch.last ==> Wins(cs, ch.last, 0)
    ensures cs[0].mtime <= ch.last ==> forall j :: 0 <= j < |cs| ==> cs[j].mtime <= ch.last
  {
    var last := Step(cs[0], ch).last;
    forall j | 0 < j < |cs| ensures cs[j].mtime <= last {
      assert cs[j] == cs[1..][j - 1];
    }
  }

  /** A winner after the first candidate wins the whole run. */
  lemma TailDecides(cs: seq<Candidate>, ch: Choice, i: int)
    requires cs != [] && Wins(cs[1..], Step(cs[0], ch).last, i)
    ensures Wins(cs, ch.last, i + 1) && cs[i + 1] == cs[1..][i]
  {
    var tail := cs[1..];
    assert cs[0].mtime <= Step(cs[0], ch).last;
    forall j | 0 < j < |cs| ensures cs[j] == tail[j - 1] {
    }
  }

  /** Scanning two runs one after the other is scanning their concatenation. */
  lemma {:induction false} LatestAppend(a: seq<Candidate>, b: seq<Candidate>, ch: Choice)
    ensures Latest(a + b, ch) == Latest(b, Latest(a, ch))
    decreases |a|
  {
    if a == [] {
      assert a + b == b;
    } else {
      assert (a + b)[0] == a[0];
      assert (a + b)[1..] == a[1..] + b;
      LatestAppend(a[1..], b, Step(a[0], ch));
    }
  }

  /** The directories looked at first: the output, then `point_cloud/iteration_30000`
      and `point_cloud/iteration_7000` under it. */
  function SearchPaths(out: string): seq<string> {
    [out, OsJoin(out, Iteration30000), OsJoin(out, Iteration7000)]
  }

  const Iteration30000 := "point_cloud" + "/" + "iteration_30000"
  const Iteration7000 := "point_cloud" + "/" + "iteration_7000"

  /** Joining the two relative names at once is joining them one after the other, as
      `os.path.join(output_path, "point_cloud", "iteration_30000")` does. */
  lemma SearchPathsNested(out: string)
    ensures SearchPaths(out)[1] == OsJoin(OsJoin(out, "point_cloud"), "iteration_30000")
    ensures SearchPaths(out)[2] == OsJoin(OsJoin(out, "point_cloud"), "iteration_7000")
  {
    Nested30000(out);
    Nested7000(out);
  }

  lemma Nested30000(out: string)
    ensures OsJoin(out, Iteration30000) == OsJoin(OsJoin(out, "point_cloud"), "iteration_30000")
  {
    var b, c := "point_cloud", "iteration_30000";
    assert b[0] == 'p' && b[|b| - 1] == 'd' && c[0] == 'i';
    JoinTwice(out, b, c);
  }

  lemma Nested7000(out: string)
    ensures OsJoin(out, Iteration7000) == OsJoin(OsJoin(out, "point_cloud"), "iteration_7000")
  {
    var b, c := "point_cloud", "iteration_7000";
    assert b[0] == 'p' && b[|b| - 1] == 'd' && c[0] == 'i';
    JoinTwice(out, b, c);
  }


  /** `check_dir(directory)`: nothing for a directory that does not exist. */
  function DirScan(disk: Disk, dir: string, target: string): seq<Candidate> {
    if dir in disk.listing then Candidates(disk, dir, disk.listing[dir], Some(target)) else []
  }

  /** The candidates of the preferred directories, directory after directory. */
  function Preferred(disk: Disk, dirs: seq<string>, target: string): seq<Candidate> {
    if dirs == [] then [] else DirScan(disk, dirs[0], target) + Preferred(disk, dirs[1..], target)
  }

  /** In the preferred directories a file already named `target` is never weighed. */
  lemma {:induction false} PreferredSkipsTarget(disk: Disk, dirs: seq<string>, target: string, k: nat)
    requires k < |Preferred(disk, dirs, target)|
    ensures Preferred(disk, dirs, target)[k].name != target
    ensures EndsWith(Preferred(disk, dirs, target)[k].name, ".ply")
    decreases |dirs|
  {
    var a := DirScan(disk, dirs[0], target);
    var b := Preferred(disk, dirs[1..], target);
    assert Preferred(disk, dirs, target) == a + b;
    if k >= |a| {
      PreferredSkipsTarget(disk, dirs[1..], target, k - |a|);
      assert (a + b)[k] == b[k - |a|];
    } else {
      CandidateSound(disk, dirs[0], disk.listing[dirs[0]], Some(target), k);
      assert (a + b)[k] == a[k];
    }
  }

  /** The candidates of the walk: every ".ply" file, the target name included. */
  function Walked(disk: Disk, steps: seq<WalkStep>): seq<Candidate> {
    if steps == [] then [] else Candidates(disk, steps[0].root, steps[0].files, None) + Walked(disk, steps[1..])
  }

  function WalkOf(disk: Disk, top: string): seq<WalkStep> {
    if top in disk.walks then disk.walks[top] else []
  }

  /** The choice of `handle_ply_rename` from the preferred candidates `p` and the walked
      candidates `w`: the walk is scanned only when `p` found nothing, from where `p` left off. */
  function Pick(p: seq<Candidate>, w: seq<Candidate>): Option<string> {
    var first := Latest(p, Choice(None, 0));
    if first.found.Some? then first.found else Latest(w, first).found
  }

  /** The file `handle_ply_rename` moves, when there is one. */
  function PickPly(disk: Disk, out: string, target: string): Option<string> {
    Pick(Preferred(disk, SearchPaths(out), target), Walked(disk, WalkOf(disk, out)))
  }

  /** A preferred candidate newer than time 0 decides: the first of the newest of them
      is moved, and the walk is not consulted. */
  lemma PickFromPreferred(p: seq<Candidate>, w: seq<Candidate>)
    requires exists j :: 0 <= j < |p| && p[j].mtime > 0
    ensures exists i :: Wins(p, 0, i) && Pick(p, w) == Some(PathOf(p[i]))
  {
    LatestWins(p, Choice(None, 0));
  }

  /** Otherwise the walk decides in the same way, and nothing is found when no walked
      file is newer than time 0 either. */
  lemma PickFromWalk(p: seq<Candidate>, w: seq<Candidate>)
    requires forall j :: 0 <= j < |p| ==> p[j].mtime <= 0
    ensures || (exists i :: Wins(w, 0, i) && Pick(p, w) == Some(PathOf(w[i])))
            || (Pick(p, w) == None && forall j :: 0 <= j < |w| ==> w[j].mtime <= 0)
  {
    LatestWins(p, Choice(None, 0));
    LatestWins(w, Choice(None, 0));
  }

  /** `check_dir(directory)`: the choice after scanning one directory from `(found, last)`. */
  method CheckDir(disk: Disk, directory: string, plyName: string, found: Option<string>, last: int)
    returns (newFound: Option<string>, newLast: int)
    ensures Choice(newFound, newLast) == Latest(DirScan(disk, directory, plyName), Choice(found, last))
  {
    newFound, newLast := found, last;
    if directory !in disk.listing {
      return;
    }
    var files := disk.listing[directory];
    var i := 0;
    while i < |files|
      invariant 0 <= i <= |files|
      invariant Latest(Candidates(disk, directory, files[i..], Some(plyName)), Choice(newFound, newLast))
        == Latest(Candidates(disk, directory, files, Some(plyName)), Choice(found, last))
    {
      var file := files[i];
      assert files[i..][1..] == files[i + 1..];
      ScanFirst(disk, directory, files[i..], Some(plyName), Choice(newFound, newLast));
      if EndsWith(file, ".ply") && file != plyName {
        var fullPath := OsJoin(directory, file);
        var mtime := disk.mtime(fullPath);
        if mtime > newLast {
          newLast := mtime;
          newFound := Some(fullPath);
        }
      }
      i := i + 1;
    }
  }

  /** The preferred directories, scanned in order from nothing found at time 0. */
  method CheckPreferred(disk: Disk, out: string, plyName: string) returns (found: Option<string>, last: int)
    ensures Choice(found, last) == Latest(Preferred(disk, SearchPaths(out), plyName), Choice(None, 0))
  {
    var searchPaths := SearchPaths(out);
    found, last := None, 0;
    var k := 0;
    while k < |searchPaths|
      invariant 0 <= k <= |searchPaths|
      invariant Latest(Preferred(disk, searchPaths[k..], plyName), Choice(found, last))
        == Latest(Preferred(disk, searchPaths, plyName), Choice(None, 0))
    {
      assert searchPaths[k..][1..] == searchPaths[k + 1..];
      LatestAppend(DirScan(disk, searchPaths[k], plyName), Preferred(disk, searchPaths[k + 1..], plyName), Choice(found, last));
      found, last := CheckDir(disk, searchPaths[k], plyName, found, last);
      k := k + 1;
    }
  }

  /** The fallback `os.walk` scan, every ".ply" file of every step, from `(found, last)`. */
  method CheckWalk(disk: Disk, out: string, found: Option<string>, last: int)
    returns (newFound: Option<string>, newLast: int)
    ensures Choice(newFound, newLast) == Latest(Walked(disk, WalkOf(disk, out)), Choice(found, last))
  {
    var steps := WalkOf(disk, out);
    newFound, newLast := found, last;
    var k := 0;
    while k < |steps|
      invariant 0 <= k <= |steps|
      invariant Latest(Walked(disk, steps[k..]), Choice(newFound, newLast))
        == Latest(Walked(disk, steps), Choice(found, last))
    {
      var root := steps[k].root;
      var files := steps[k].files;
      assert steps[k..][1..] == steps[k + 1..];
      ghost var rest := Walked(disk, steps[k + 1..]);
      LatestAppend(Candidates(disk, root, files, None), rest, Choice(newFound, newLast));
      ghost var goal := Latest(rest, Latest(Candidates(disk, root, files, None), Choice(newFound, newLast)));
      var i := 0;
      while i < |files|
        invariant 0 <= i <= |files|
        invariant Latest(rest, Latest(Candidates(disk, root, files[i..], None), Choice(newFound, newLast))) == goal
      {
        var file := files[i];
        assert files[i..][1..] == files[i + 1..];
        ScanFirst(disk, root, files[i..], None, Choice(newFound, newLast));
        if EndsWith(file, ".ply") {
          var fullPath := OsJoin(root, file);
          var mtime := disk.mtime(fullPath);
          if mtime > newLast {
            newLast := mtime;
            newFound := Some(fullPath);
          }
        }
        i := i + 1;
      }
      k := k + 1;
    }
  }

  /** The search of `handle_ply_rename`: the preferred directories, then the walk only
      when they found nothing. */
  method FindPly(disk: Disk, out: string, plyName: string) returns (found: Option<string>)
    ensures found == PickPly(disk, out, plyName)
  {
    var last;
    found, last := CheckPreferred(disk, out, plyName);
    if found.None? {
      found, last := CheckWalk(disk, out, found, last);
    }
  }

  lemma ScenePly()
    ensures EndsWith("scene.ply", ".ply")
  {
    assert "scene.ply" == "scene" + ".ply";
    EndsWithAppend("scene", "", ".ply");
  }

  /** The disk of the example below: one file, "scene.ply", in the output directory "/o". */
  function SceneDisk(): Disk {
    Disk(map["/o" := ["scene.ply"]], map["/o" := [WalkStep("/o", ["scene.ply"])]], (p: string) => 5)
  }

  lemma ScenePreferredEmpty()
    ensures Preferred(SceneDisk(), SearchPaths("/o"), "scene.ply") == []
  {
    var disk := SceneDisk();
    var dirs := SearchPaths("/o");
    assert dirs[1] != "/o" && dirs[2] != "/o" by {
      assert |OsJoin("/o", "point_cloud")| > 2;
    }
    ScenePly();
    assert DirScan(disk, dirs[0], "scene.ply") == [];
    assert dirs[1..][1..] == [dirs[2]];
  }

  lemma SceneWalked()
    ensures Walked(SceneDisk(), WalkOf(SceneDisk(), "/o")) == [Candidate("/o", "scene.ply", 5)]
  {
    ScenePly();
    var disk := SceneDisk();
    var steps := WalkOf(disk, "/o");
    assert steps == [WalkStep("/o", ["scene.ply"])];
    assert Candidates(disk, "/o", ["scene.ply"], None) == [Candidate("/o", "scene.ply", 5)];
  }

  /** The walk does not skip the target name: when the preferred directories hold only a
      file already named "scene.ply", the walk finds that very file again. */
  lemma WalkMayPickTarget()
    ensures PickPly(SceneDisk(), "/o", "scene.ply") == Some(OsJoin("/o", "scene.ply"))
  {
    ScenePreferredEmpty();
    SceneWalked();
    PickOnlyWalked(Candidate("/o", "scene.ply", 5));
  }

  /** With no preferred candidate, a single walked one newer than time 0 is picked. */
  lemma PickOnlyWalked(c: Candidate)
    requires c.mtime > 0
    ensures Pick([], [c]) == Some(PathOf(c))
  {
    assert Latest([c][1..], Step(c, Choice(None, 0))) == Choice(Some(PathOf(c)), c.mtime);
  }

  const NoPlyWarning := "Attention: Aucun fichier PLY trouvé à renommer."
  const RenamedPrefix := "Fichier PLY renommé en : "
  const RenameErrorPrefix := "Erreur renommage PLY: "
  const AdjustedPrefix := "Chemin ajusté: "
  const SuccessMessage := "Entrainement Brush terminé avec succès"
  const FailurePrefix := "Erreur Brush (Code "

  /** What `handle_ply_rename` does: the lines it logs and the move it makes, if any. */
  datatype Renaming = Renaming(log: seq<string>, moves: seq<(string, string)>)

  /** The rest of `handle_ply_rename` once the search has returned `found`. */
  function RenameOf(found: Option<string>, out: string, name: string, moveError: Option<string>): (r: Renaming)
    ensures |r.log| == 1 && |r.moves| <= 1
    ensures r.moves != [] <==> found.Some? && moveError.None?
    ensures r.moves != [] ==> r.moves[0] == (found.value, OsJoin(out, name))
  {
    match found {
      case None => Renaming([NoPlyWarning], [])
      case Some(src) =>
        match moveError {
          case None => Renaming([RenamedPrefix + name], [(src, OsJoin(out, name))])
          case Some(e) => Renaming([RenameErrorPrefix + e], [])
        }
    }
  }

  /** `handle_ply_rename()` for the parameter `ply_name`; `moveError` is the text of the
      exception `shutil.move` raises, if it does. */
  function RenameF(disk: Disk, out: string, plyName: Option<string>, moveError: Option<string>): (r: Renaming)
    ensures plyName.None? || plyName.value == "" ==> r == Renaming([], [])
    ensures |r.log| <= 1 && |r.moves| <= 1
    ensures r.moves != [] ==>
      && plyName.Some? && moveError.None?
      && Some(r.moves[0].0) == PickPly(disk, out, SanitizePlyName(plyName.value))
      && r.moves[0].1 == OsJoin(out, SanitizePlyName(plyName.value))
  {
    if plyName.None? || plyName.value == "" then Renaming([], [])
    else
      var name := SanitizePlyName(plyName.value);
      RenameOf(PickPly(disk, out, name), out, name, moveError)
  }

  /** Whatever `Pick` returns is the first of the newest preferred candidates, or, when
      none of those is newer than time 0, the first of the newest walked ones. */
  lemma PickNewest(p: seq<Candidate>, w: seq<Candidate>, src: string)
    requires Pick(p, w) == Some(src)
    ensures || (exists i :: Wins(p, 0, i) && src == PathOf(p[i]))
            || ((forall j :: 0 <= j < |p| ==> p[j].mtime <= 0) && exists i :: Wins(w, 0, i) && src == PathOf(w[i]))
  {
    if exists j :: 0 <= j < |p| && p[j].mtime > 0 {
      PickFromPreferred(p, w);
    } else {
      PickFromWalk(p, w);
    }
  }

  /** The keyword arguments `run` takes from `params` (`params.get`), with the custom
      arguments as tokens. */
  datatype BrushParams = BrushParams(
    iterations: Option<int>,
    shDegree: Option<int>,
    device: Option<string>,
    customArgs: seq<string>,
    withViewer: bool,
    plyName: Option<string>)

  function OptionsOf(p: BrushParams): BrushTrainer.TrainOptions {
    BrushTrainer.TrainOptions(p.iterations, p.shDegree, p.device, p.withViewer, p.customArgs)
  }

  /** What a run meets: the executable `resolve_binary` found, the exception starting
      it raises (if any), the lines Brush prints and its return code, the poll from which
      `is_running` reads false, the disk the search reads, and the outcome of the move. */
  datatype BrushWorld = BrushWorld(
    brushBin: Option<string>,
    spawnError: Option<string>,
    lines: seq<string>,
    exit: int,
    stopAt: Schedule,
    disk: Disk,
    moveError: Option<string>)

  /** "Chemin ajusté" is logged exactly when the resolved path differs from the input. */
  function AdjustLog(input: string): (r: seq<string>)
    ensures r == [] <==> ResolveDatasetRoot(input) == input
    ensures r != [] ==> r == [AdjustedPrefix + input + " -> " + ResolveDatasetRoot(input)]
  {
    var resolved := ResolveDatasetRoot(input);
    if resolved != input then [AdjustedPrefix + input + " -> " + resolved] else []
  }

  /** The stdout loop from poll `k`: each line is read (the empty string ends the
      iteration), then `is_running` is polled, and a line read while running is logged
      stripped. The result is the lines logged and the next poll number. */
  function Stream(lines: seq<string>, stop: Schedule, k: nat): (r: (seq<string>, nat))
    ensures k <= r.1 <= k + |lines|
    decreases |lines|
  {
    if lines == [] || lines[0] == "" then ([], k)
    else if CancelledAt(stop, k) then ([], k + 1)
    else
      var rest := Stream(lines[1..], stop, k + 1);
      ([Strip(lines[0])] + rest.0, rest.1)
  }

  /** What is logged is the stripped start of the output; with no stop and no empty line
      it is all of it, one poll per line; after a stop from poll n, at most the lines
      read before poll n. */
  lemma StreamLogsPrefix(lines: seq<string>, stop: Schedule, k: nat)
    ensures var r := Stream(lines, stop, k);
      && |r.0| <= |lines|
      && (forall i :: 0 <= i < |r.0| ==> r.0[i] == Strip(lines[i]))
      && (stop.None? && (forall i :: 0 <= i < |lines| ==> lines[i] != "") ==> |r.0| == |lines| && r.1 == k + |lines|)
      && (stop.Some? && k <= stop.value ==> |r.0| <= stop.value - k)
  {
    StreamStripped(lines, stop, k);
    StreamCounts(lines, stop, k);
  }

  lemma {:induction false} StreamStripped(lines: seq<string>, stop: Schedule, k: nat)
    ensures var r := Stream(lines, stop, k).0;
      |r| <= |lines| && forall i :: 0 <= i < |r| ==> r[i] == Strip(lines[i])
    decreases |lines|
  {
    if lines != [] && lines[0] != "" && !CancelledAt(stop, k) {
      StreamStripped(lines[1..], stop, k + 1);
      ConsStripped(lines, Stream(lines[1..], stop, k + 1).0);
    }
  }

  lemma ConsStripped(lines: seq<string>, rest: seq<string>)
    requires lines != [] && |rest| < |lines|
    requires forall i :: 0 <= i < |rest| ==> rest[i] == Strip(lines[1..][i])
    ensures var r := [Strip(lines[0])] + rest;
      forall i :: 0 <= i < |r| ==> r[i] == Strip(lines[i])
  {
    var r := [Strip(lines[0])] + rest;
    forall i | 0 <= i < |r| ensures r[i] == Strip(lines[i]) {
      if i > 0 {
        assert r[i] == rest[i - 1];
        assert lines[1..][i - 1] == lines[i];
      }
    }
  }

  lemma {:induction false} StreamCounts(lines: seq<string>, stop: Schedule, k: nat)
    ensures var r := Stream(lines, stop, k);
      && (stop.None? && (forall i :: 0 <= i < |lines| ==> lines[i] != "") ==> |r.0| == |lines| && r.1 == k + |lines|)
      && (stop.Some? && k <= stop.value ==> |r.0| <= stop.value - k)
    decreases |lines|
  {
    if lines != [] && lines[0] != "" && !CancelledAt(stop, k) {
      StreamCounts(lines[1..], stop, k + 1);
      assert forall i :: 0 <= i < |lines| - 1 ==> lines[1..][i] == lines[i + 1];
    }
  }

  /** The worker's report: the log lines, the moves, the commands started, the next poll
      number, and the verdict with its message (`finished_signal`). */
  datatype RunResult = RunResult(
    log: seq<string>, moves: seq<(string, string)>, launched: seq<seq<string>>,
    polls: nat, ok: bool, message: string)

  /** The end of `run()` once Brush has been started with `argv` and its output read. */
  function Finished(w: BrushWorld, output: string, p: BrushParams, before: seq<string>,
                    argv: seq<string>, polls: nat): RunResult {
    if w.exit == 0 then
      var rn := RenameF(w.disk, output, p.plyName, w.moveError);
      RunResult(before + rn.log, rn.moves, [argv], polls, true, SuccessMessage)
    else
      RunResult(before, [], [argv], polls, false, FailureMessage(w.exit))
  }

  /** `BrushWorker.run()` with `is_running` read from poll `k` on. */
  function RunF(w: BrushWorld, input: string, output: string, p: BrushParams, k: nat): RunResult {
    var adjust := AdjustLog(input);
    var cmd := BrushTrainer.TrainCommand(w.brushBin, ResolveDatasetRoot(input), output, OptionsOf(p));
    if cmd.Err? then RunResult(adjust, [], [], k, false, cmd.error)
    else if w.spawnError.Some? then RunResult(adjust, [], [], k, false, w.spawnError.value)
    else
      var out := Stream(w.lines, w.stopAt, k);
      Finished(w, output, p, adjust + out.0, cmd.value, out.1)
  }

  /** Success exactly when Brush could be started and returned 0. */
  lemma RunVerdict(w: BrushWorld, input: string, output: string, p: BrushParams, k: nat)
    ensures var x := RunF(w, input, output, p, k);
      && (x.ok <==> w.brushBin.Some? && w.spawnError.None? && w.exit == 0)
      && (x.ok ==> x.message == SuccessMessage)
      && (w.brushBin.None? ==> x.message == "Exécutable 'brush' non trouvé." && x.launched == [])
  {
  }

  /** The message of a nonzero return code, `f"Erreur Brush (Code {rc})"`. */
  function FailureMessage(code: int): string {
    FailurePrefix + IntToString(code) + ")"
  }

  /** The code reads back from the failure message. */
  lemma FailureMessageReadsBack(code: int)
    ensures var m := FailureMessage(code);
      && StartsWith(m, FailurePrefix) && m[|m| - 1] == ')'
      && ParseInt(m[|FailurePrefix|..|m| - 1]) == Some(code)
  {
    var m := FailureMessage(code);
    var digits := IntToString(code);
    assert m[..|FailurePrefix|] == FailurePrefix;
    assert m[|FailurePrefix|..|m| - 1] == digits;
    ParseIntToString(code);
  }

  /** A nonzero return code is reported with the code. */
  lemma RunFailureCode(w: BrushWorld, input: string, output: string, p: BrushParams, k: nat)
    requires w.brushBin.Some? && w.spawnError.None? && w.exit != 0
    ensures var x := RunF(w, input, output, p, k);
      !x.ok && x.message == FailureMessage(w.exit) && x.moves == [] && |x.launched| == 1
  {
  }

  /** A move happens only after a return code of 0, and what the search finds (or the
      move's failure) never changes the verdict. */
  lemma RunRenameOnlyOnSuccess(w: BrushWorld, input: string, output: string, p: BrushParams, k: nat, disk: Disk, moveError: Option<string>)
    ensures RunF(w, input, output, p, k).moves != [] ==> w.exit == 0 && RunF(w, input, output, p, k).ok
    ensures RunF(w.(disk := disk, moveError := moveError), input, output, p, k).ok == RunF(w, input, output, p, k).ok
    ensures RunF(w.(disk := disk, moveError := moveError), input, output, p, k).message == RunF(w, input, output, p, k).message
  {
  }

  /** Brush is given the resolved dataset root as its input. */
  lemma RunTrainsResolved(w: BrushWorld, input: string, output: string, p: BrushParams, k: nat)
    ensures var x := RunF(w, input, output, p, k);
      x.launched != [] ==>
        && x.launched == [BrushTrainer.TrainArgv(w.brushBin.value, ResolveDatasetRoot(input), output, OptionsOf(p))]
        && x.launched[0][|x.launched[0]| - 1] == ResolveDatasetRoot(input)
  {
  }

  /** Loop bookkeeping: the lines logged so far, followed by what the rest of the stream
      logs, make up what the whole stream logs. */
  predicate Continues(t0: seq<string>, goal: (seq<string>, nat), log: seq<string>, rest: (seq<string>, nat)) {
    t0 + goal.0 == log + rest.0 && goal.1 == rest.1
  }

  lemma ContinuesStep(t0: seq<string>, goal: (seq<string>, nat), log: seq<string>, line: string, rest: (seq<string>, nat))
    requires Continues(t0, goal, log, ([line] + rest.0, rest.1))
    ensures Continues(t0, goal, log + [line], rest)
  {
    assert log + ([line] + rest.0) == log + [line] + rest.0;
  }

  lemma StreamStep(lines: seq<string>, i: nat, stop: Schedule, k: nat)
    requires i < |lines|
    ensures Stream(lines[i..], stop, k)
      == if lines[i] == "" then ([], k)
         else if CancelledAt(stop, k) then ([], k + 1)
         else ([Strip(lines[i])] + Stream(lines[i + 1..], stop, k + 1).0, Stream(lines[i + 1..], stop, k + 1).1)
  {
    assert lines[i..][0] == lines[i] && lines[i..][1..] == lines[i + 1..];
  }

  /** The stdout loop of `run()` from poll `k`: returns once Brush's output ends or
      `is_running` reads false, with the lines logged and the next poll number. */
  method ReadStream(output: seq<string>, stop: Schedule, k0: nat) returns (lines: seq<string>, k: nat)
    ensures (lines, k) == Stream(output, stop, k0)
  {
    lines, k := [], k0;
    var i := 0;
    var done := false;
    while i < |output| && !done
      invariant 0 <= i <= |output|
      invariant !done ==> Continues([], Stream(output, stop, k0), lines, Stream(output[i..], stop, k))
      invariant done ==> (lines, k) == Stream(output, stop, k0)
      decreases |output| - i, if done then 0 else 1
    {
      var line := output[i];
      StreamStep(output, i, stop, k);
      if line == "" {
        assert lines + [] == lines && [] + Stream(output, stop, k0).0 == Stream(output, stop, k0).0;
        done := true;
      } else {
        var running := !CancelledAt(stop, k);
        k := k + 1;
        if !running {
          assert lines + [] == lines && [] + Stream(output, stop, k0).0 == Stream(output, stop, k0).0;
          done := true;
        } else {
          ContinuesStep([], Stream(output, stop, k0), lines, Strip(line), Stream(output[i + 1..], stop, k));
          lines := lines + [Strip(line)];
          i := i + 1;
        }
      }
    }
    if !done {
      assert output[i..] == [];
      assert lines + [] == lines && [] + Stream(output, stop, k0).0 == Stream(output, stop, k0).0;
    }
  }

  /** The search and the move of `handle_ply_rename()`, returning what it logs and moves. */
  method Rename(disk: Disk, out: string, plyName: Option<string>, moveError: Option<string>) returns (r: Renaming)
    ensures r == RenameF(disk, out, plyName, moveError)
  {
    if plyName.None? || plyName.value == "" {
      return Renaming([], []);
    }
    var name := SanitizePlyName(plyName.value);
    var found := FindPly(disk, out, name);
    if found.Some? {
      var destPath := OsJoin(out, name);
      if moveError.None? {
        r := Renaming([RenamedPrefix + name], [(found.value, destPath)]);
      } else {
        r := Renaming([RenameErrorPrefix + moveError.value], []);
      }
    } else {
      r := Renaming([NoPlyWarning], []);
    }
  }

  lemma Join4(a: seq<string>, b: seq<string>, c: seq<string>, d: seq<string>)
    ensures a + b + c + d == a + (b + c + d)
  {
  }

  lemma Join3(a: seq<string>, b: seq<string>, c: seq<string>)
    ensures a + b + c == a + (b + c)
  {
  }

  class BrushWorker {
    const inputPath: string
    const outputPath: string
    const params: BrushParams
    /** The lines sent on `log_signal`, oldest first. */
    var log: seq<string>
    /** The files moved, as (source, destination). */
    var moves: seq<(string, string)>
    /** The commands started. */
    var launched: seq<seq<string>>
    /** The number of reads of `is_running` so far. */
    var polls: nat

    constructor (input: string, output: string, p: BrushParams)
      ensures inputPath == input && outputPath == output && params == p
      ensures log == [] && moves == [] && launched == [] && polls == 0
    {
      inputPath, outputPath, params := input, output, p;
      log, moves, launched, polls := [], [], [], 0;
    }

    /** `handle_ply_rename()` */
    method HandlePlyRename(disk: Disk, moveError: Option<string>)
      modifies this
      ensures var r := RenameF(disk, outputPath, params.plyName, moveError);
        log == old(log) + r.log && moves == old(moves) + r.moves
      ensures launched == old(launched) && polls == old(polls)
    {
      var r := Rename(disk, outputPath, params.plyName, moveError);
      Record(r);
    }

    /** Sends the lines of `r` and keeps its moves. */
    method Record(r: Renaming)
      modifies this
      ensures log == old(log) + r.log && moves == old(moves) + r.moves
      ensures launched == old(launched) && polls == old(polls)
    {
      log, moves := log + r.log, moves + r.moves;
    }

    /** The stdout loop of `run()`. */
    method ReadOutput(w: BrushWorld)
      modifies this
      ensures log == old(log) + Stream(w.lines, w.stopAt, old(polls)).0
      ensures polls == Stream(w.lines, w.stopAt, old(polls)).1
      ensures moves == old(moves) && launched == old(launched)
    {
      var lines, k := ReadStream(w.lines, w.stopAt, polls);
      log, polls := log + lines, k;
    }

    /** `run()`: returns what `finished_signal` carries. */
    method Run(w: BrushWorld) returns (ok: bool, message: string)
      modifies this
      ensures var x := RunF(w, inputPath, outputPath, params, old(polls));
        && ok == x.ok && message == x.message
        && log == old(log) + x.log && moves == old(moves) + x.moves
        && launched == old(launched) + x.launched && polls == x.polls
    {
      ghost var x := RunF(w, inputPath, outputPath, params, polls);
      ghost var adjust := AdjustLog(inputPath);
      var resolved := ResolveDatasetRoot(inputPath);
      if resolved != inputPath {
        log := log + [AdjustedPrefix + inputPath + " -> " + resolved];
      }
      assert log == old(log) + adjust;
      var cmd := BrushTrainer.TrainCommand(w.brushBin, resolved, outputPath, OptionsOf(params));
      if cmd.Err? {
        return false, cmd.error;
      }
      if w.spawnError.Some? {
        return false, w.spawnError.value;
      }
      launched := launched + [cmd.value];
      ghost var out := Stream(w.lines, w.stopAt, polls);
      ReadOutput(w);
      assert x == Finished(w, outputPath, params, adjust + out.0, cmd.value, out.1);
      var returnCode := w.exit;
      if returnCode == 0 {
        ghost var rn := RenameF(w.disk, outputPath, params.plyName, w.moveError);
        HandlePlyRename(w.disk, w.moveError);
        assert x.log == adjust + out.0 + rn.log;
        Join4(old(log), adjust, out.0, rn.log);
        ok, message := true, SuccessMessage;
      } else {
        Join3(old(log), adjust, out.0);
        ok, message := false, FailureMessage(returnCode);
      }
    }
  }
}
