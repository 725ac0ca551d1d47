/** POSIX path strings as Python's `pathlib` and `os.path` (posixpath) treat them.
    A normalised path is rendered from a root ("", "/" or "//") and a list of clean components;
    the lemmas here say that `normpath` always yields such a rendering, leaves one unchanged,
    and that `dirname` of one is again one (or the empty string). */
module Paths {
  import opened Text

  /** The leading slashes POSIX keeps: exactly two stay two, one or three or more become one. */
  function RootOf(p: string): (r: string)
    ensures r == "" || r == "/" || r == "//"
    ensures StartsWith(p, r)
  {
    if StartsWith(p, "//") && !StartsWith(p, "///") then "//"
    else if StartsWith(p, "/") then "/"
    else ""
  }

  /** The pieces pathlib keeps: empty pieces and "." are dropped, ".." is kept. */
  function DropDots(pieces: seq<string>): (r: seq<string>)
    ensures forall i :: 0 <= i < |r| ==> r[i] in pieces && r[i] != "" && r[i] != "."
  {
    if pieces == [] then []
    else (if pieces[0] == "" || pieces[0] == "." then [] else [pieces[0]]) + DropDots(pieces[1..])
  }

  function Parts(p: string): seq<string> {
    DropDots(Split(p, '/'))
  }

  /** `str(pathlib.PurePosixPath(p))` */
  function PathStr(p: string): (r: string)
    ensures r != ""
  {
    var s := RootOf(p) + Join(Parts(p), "/");
    if s == "" then "." else s
  }

  /** `str(pathlib.PurePosixPath(a) / b)`: an absolute `b` replaces `a`. */
  function PathJoin(a: string, b: string): string {
    PathStr(if StartsWith(b, "/") then b else PathStr(a) + "/" + b)
  }

  /** `pathlib.PurePosixPath(p).name`: the last part, or "" for "/" and ".". */
  function Name(p: string): string {
    var parts := Parts(p);
    if parts == [] then "" else parts[|parts| - 1]
  }

  /** The index of the dot that starts the suffix of a file name, when it has one
      (a dot that is neither the first nor the last character). */
  function SuffixDot(name: string): Option<nat> {
    var i := AfterLast(name, '.');
    if 1 < i < |name| then Some(i - 1) else None
  }

  /** `pathlib.PurePosixPath(p).stem` */
  function Stem(p: string): (r: string)
    ensures StartsWith(Name(p), r)
  {
    var name := Name(p);
    match SuffixDot(name) {
      case Some(i) => name[..i]
      case None => name
    }
  }

  /** `pathlib.PurePosixPath(p).suffix` */
  function Suffix(p: string): string {
    var name := Name(p);
    match SuffixDot(name) {
      case Some(i) => name[i..]
      case None => ""
    }
  }

  /** `os.path.basename(p)`: what follows the last slash. */
  function Basename(p: string): (r: string)
    ensures '/' !in r
    ensures EndsWith(p, r)
  {
    p[AfterLast(p, '/')..]
  }

  predicate AllSlashes(s: string) {
    forall i :: 0 <= i < |s| ==> s[i] == '/'
  }

  /** `s.rstrip("/")` */
  function RStripSlashes(s: string): (r: string)
    ensures |r| <= |s| && r == s[..|r|]
    ensures r == "" || r[|r| - 1] != '/'
  {
    if s != "" && s[|s| - 1] == '/' then RStripSlashes(s[..|s| - 1]) else s
  }

  /** `os.path.dirname(p)`: everything up to the last slash, trailing slashes removed
      unless that leaves only slashes. */
  function Dirname(p: string): string {
    var head := p[..AfterLast(p, '/')];
    if head != "" && !AllSlashes(head) then RStripSlashes(head) else head
  }

  /** One step of `normpath` over the pieces of a path. */
  function Collapse(pieces: seq<string>, relative: bool, acc: seq<string>): seq<string>
    decreases |pieces|
  {
    if pieces == [] then acc
    else
      var c := pieces[0];
      if c == "" || c == "." then Collapse(pieces[1..], relative, acc)
      else if c != ".." || (relative && acc == []) || (acc != [] && acc[|acc| - 1] == "..") then
        Collapse(pieces[1..], relative, acc + [c])
      else if acc != [] then Collapse(pieces[1..], relative, acc[..|acc| - 1])
      else Collapse(pieces[1..], relative, acc)
  }

  function NormComponents(p: string): seq<string> {
    Collapse(Split(p, '/'), RootOf(p) == "", [])
  }

  /** `os.path.normpath(p)` on POSIX. */
  function NormPath(p: string): string {
    if p == "" then "." else Render(RootOf(p), NormComponents(p))
  }

  /** A root followed by components joined by "/"; "." when both are empty. */
  function Render(root: string, comps: seq<string>): (r: string)
    ensures r != ""
  {
    var s := root + Join(comps, "/");
    if s == "" then "." else s
  }

  /** Components `normpath` can produce below `root`: non-empty, not ".", free of "/";
      ".." only below the empty root, and then only as a leading run. */
  predicate Clean(root: string, comps: seq<string>) {
    && (root == "" || root == "/" || root == "//")
    && (forall i :: 0 <= i < |comps| ==> comps[i] != "" && comps[i] != "." && '/' !in comps[i])
    && (root != "" ==> forall i :: 0 <= i < |comps| ==> comps[i] != "..")
    && (forall i, j :: 0 <= i < j < |comps| && comps[j] == ".." ==> comps[i] == "..")
  }

  lemma {:induction false} CollapseClean(pieces: seq<string>, root: string, acc: seq<string>)
    requires Clean(root, acc)
    requires forall i :: 0 <= i < |pieces| ==> '/' !in pieces[i]
    ensures Clean(root, Collapse(pieces, root == "", acc))
    decreases |pieces|
  {
    if pieces != [] {
      var c := pieces[0];
      var relative := root == "";
      if c == "" || c == "." {
        CollapseClean(pieces[1..], root, acc);
      } else if c != ".." || (relative && acc == []) || (acc != [] && acc[|acc| - 1] == "..") {
        var acc' := acc + [c];
        assert '/' !in c;
        forall i, j | 0 <= i < j < |acc'| && acc'[j] == ".." ensures acc'[i] == ".." {
          if j == |acc| && c == ".." && acc != [] {
            assert acc[|acc| - 1] == "..";
            if i < |acc| - 1 { assert acc'[i] == acc[i]; }
          }
        }
        CollapseClean(pieces[1..], root, acc');
      } else if acc != [] {
        CollapseClean(pieces[1..], root, acc[..|acc| - 1]);
      } else {
        CollapseClean(pieces[1..], root, acc);
      }
    }
  }

  /** `normpath` always yields a clean rendering. */
  lemma NormPathIsRender(p: string)
    ensures Clean(RootOf(p), NormComponents(p))
    ensures NormPath(p) == Render(RootOf(p), NormComponents(p))
  {
    CollapseClean(Split(p, '/'), RootOf(p), []);
    if p == "" {
      assert NormComponents(p) == [];
    }
  }

  lemma {:induction false} CollapseKeepsClean(pieces: seq<string>, root: string, acc: seq<string>)
    requires Clean(root, acc + pieces)
    ensures Collapse(pieces, root == "", acc) == acc + pieces
    decreases |pieces|
  {
    if pieces != [] {
      var c := pieces[0];
      assert (acc + pieces)[|acc|] == c;
      if c == ".." {
        if acc != [] {
          assert (acc + pieces)[|acc| - 1] == acc[|acc| - 1];
        }
      }
      assert acc + pieces == (acc + [c]) + pieces[1..];
      CollapseKeepsClean(pieces[1..], root, acc + [c]);
    }
  }

  lemma SplitLeadingSlash(s: string)
    ensures Split("/" + s, '/') == [""] + Split(s, '/')
  {
    assert Find("/" + s, '/') == Some(0);
    assert ("/" + s)[1..] == s;
  }

  lemma JoinNoSlash(comps: seq<string>)
    requires forall i :: 0 <= i < |comps| ==> comps[i] != "" && '/' !in comps[i]
    ensures comps != [] ==> Join(comps, "/") != "" && Join(comps, "/")[0] == comps[0][0]
    ensures comps != [] ==> Join(comps, "/")[|Join(comps, "/")| - 1] != '/'
  {
    if |comps| > 1 {
      JoinNoSlash(comps[1..]);
      var last := comps[|comps| - 1];
      assert last[|last| - 1] in last;
    } else if |comps| == 1 {
      assert comps[0][|comps[0]| - 1] in comps[0];
    }
  }

  lemma RootOfRender(root: string, comps: seq<string>)
    requires Clean(root, comps) && !(root == "" && comps == [])
    ensures Render(root, comps) == root + Join(comps, "/")
    ensures RootOf(Render(root, comps)) == root
  {
    var j := Join(comps, "/");
    JoinNoSlash(comps);
    if comps != [] {
      assert comps[0][0] in comps[0];
    }
    var p := root + j;
    if root == "//" {
      assert p[..2] == "//";
      assert |p| > 2 ==> p[2] == j[0];
    } else if root == "/" {
      assert p[..1] == "/";
      assert |p| > 1 ==> p[1] == j[0];
    } else {
      assert p[0] == j[0];
    }
  }

  /** The pieces `split("/")` finds in a clean rendering. */
  function RenderPieces(root: string, comps: seq<string>): seq<string> {
    var tail: seq<string> := if comps == [] then [""] else comps;
    if root == "//" then ["", ""] + tail else if root == "/" then [""] + tail else tail
  }

  lemma SplitRender(root: string, comps: seq<string>)
    requires root == "" || root == "/" || root == "//"
    requires forall i :: 0 <= i < |comps| ==> '/' !in comps[i]
    ensures Split(root + Join(comps, "/"), '/') == RenderPieces(root, comps)
  {
    var tail: seq<string> := if comps == [] then [""] else comps;
    SplitJoined(comps);
    SplitUnderRoot(root, Join(comps, "/"), tail);
  }

  lemma SplitJoined(comps: seq<string>)
    requires forall i :: 0 <= i < |comps| ==> '/' !in comps[i]
    ensures Split(Join(comps, "/"), '/') == if comps == [] then [""] else comps
  {
    if comps != [] {
      SplitJoin(comps, '/');
    } else {
      assert Join(comps, "/") == "";
    }
  }

  lemma SplitUnderRoot(root: string, j: string, tail: seq<string>)
    requires root == "" || root == "/" || root == "//"
    requires Split(j, '/') == tail
    ensures Split(root + j, '/') == if root == "//" then ["", ""] + tail else if root == "/" then [""] + tail else tail
  {
    if root == "//" {
      SplitTwoSlashes(j);
    } else if root == "/" {
      SplitLeadingSlash(j);
    } else {
      assert root + j == j;
    }
  }

  lemma SplitTwoSlashes(s: string)
    ensures Split("//" + s, '/') == ["", ""] + Split(s, '/')
  {
    assert "//" + s == "/" + ("/" + s);
    SplitLeadingSlash("/" + s);
    SplitLeadingSlash(s);
  }

  lemma CollapseRenderPieces(root: string, comps: seq<string>)
    requires Clean(root, comps)
    ensures Collapse(RenderPieces(root, comps), root == "", []) == comps
  {
    var pieces := RenderPieces(root, comps);
    var tail: seq<string> := if comps == [] then [""] else comps;
    var relative := root == "";
    if root == "//" {
      assert pieces[1..] == [""] + tail;
      assert pieces[1..][1..] == tail;
    } else if root == "/" {
      assert pieces[1..] == tail;
    }
    assert Collapse(pieces, relative, []) == Collapse(tail, relative, []);
    if comps == [] {
      assert Collapse(tail, relative, []) == [];
    } else {
      CollapseKeepsClean(comps, root, []);
    }
  }

  /** `normpath` leaves a clean rendering as it is. */
  lemma NormPathOfRender(root: string, comps: seq<string>)
    requires Clean(root, comps)
    ensures NormPath(Render(root, comps)) == Render(root, comps)
  {
    var p := Render(root, comps);
    if root == "" && comps == [] {
      assert p == ".";
      assert Split(".", '/') == ["."];
      assert NormComponents(p) == [];
    } else {
      RootOfRender(root, comps);
      SplitRender(root, comps);
      CollapseRenderPieces(root, comps);
      assert NormComponents(p) == comps;
    }
  }

  lemma AfterLastSplit(a: string, b: string)
    requires '/' !in b
    ensures AfterLast(a + "/" + b, '/') == |a| + 1
  {
    var s := a + "/" + b;
    assert s[|a|] == '/';
    assert s[|a| + 1..] == b;
  }

  /** The parent `dirname` gives of a clean rendering, as components; None stands for "". */
  function ParentOf(root: string, comps: seq<string>): Option<seq<string>> {
    if comps == [] then (if root == "" then None else Some([]))
    else if root == "" && |comps| == 1 then None
    else Some(comps[..|comps| - 1])
  }

  lemma RStripSlashesKeeps(s: string)
    requires s == "" || s[|s| - 1] != '/'
    ensures RStripSlashes(s + "/") == s
  {
    assert (s + "/")[..|s|] == s;
  }

  lemma DirnameOfRoot(root: string)
    requires root == "" || root == "/" || root == "//"
    ensures Dirname(Render(root, [])) == if root == "" then "" else root
  {
    var p := Render(root, []);
    if root == "" {
      assert p == ".";
      assert AfterLast(p, '/') == 0;
    } else {
      assert p == root;
      assert AfterLast(p, '/') == |p|;
      assert AllSlashes(p);
    }
  }

  lemma DirnameOfSingle(root: string, last: string)
    requires root == "" || root == "/" || root == "//"
    requires last != "" && '/' !in last
    ensures Dirname(Render(root, [last])) == root
  {
    var p := Render(root, [last]);
    assert p == root + last;
    if root == "" {
      assert AfterLast(p, '/') == 0;
    } else {
      var k := |root|;
      assert p[k - 1] == '/';
      assert p[k..] == last;
      var r := AfterLast(p, '/');
      assert r == k;
      assert p[..r] == root;
      assert AllSlashes(root);
    }
  }

  lemma DirnameOfSlashJoin(a: string, last: string)
    requires a != "" && a[|a| - 1] != '/' && '/' !in last
    ensures Dirname(a + "/" + last) == a
  {
    var p := a + "/" + last;
    AfterLastSplit(a, last);
    var head := p[..|a| + 1];
    assert head == a + "/";
    assert head[|a| - 1] != '/';
    assert !AllSlashes(head);
    RStripSlashesKeeps(a);
  }

  lemma DirnameOfLonger(root: string, init: seq<string>, last: string)
    requires root == "" || root == "/" || root == "//"
    requires forall i :: 0 <= i < |init| ==> init[i] != "" && '/' !in init[i]
    requires init != [] && '/' !in last
    ensures Dirname(Render(root, init + [last])) == Render(root, init)
  {
    JoinNoSlash(init);
    var j := Join(init, "/");
    var a := root + j;
    assert a[|a| - 1] == j[|j| - 1];
    RenderAppend(root, init, last);
    DirnameOfSlashJoin(a, last);
  }

  lemma RenderAppend(root: string, init: seq<string>, last: string)
    requires init != [] && Join(init, "/") != ""
    ensures Render(root, init) == root + Join(init, "/")
    ensures Render(root, init + [last]) == root + Join(init, "/") + "/" + last
  {
    JoinAppend(init, last, "/");
    var j := Join(init, "/");
    RenderJoined(root, init);
    RenderJoined(root, init + [last]);
    SlashAssoc(root, j, last);
  }

  lemma RenderJoined(root: string, comps: seq<string>)
    requires Join(comps, "/") != ""
    ensures Render(root, comps) == root + Join(comps, "/")
  {
  }

  lemma SlashAssoc(a: string, b: string, c: string)
    ensures a + (b + "/" + c) == a + b + "/" + c
  {
  }

  /** `dirname` of a clean rendering drops its last component. */
  lemma {:induction false} DirnameOfRender(root: string, comps: seq<string>)
    requires Clean(root, comps)
    ensures Clean(root, comps[..if comps == [] then 0 else |comps| - 1])
    ensures Dirname(Render(root, comps)) == match ParentOf(root, comps) {
      case None => ""
      case Some(c) => Render(root, c)
    }
  {
    if comps == [] {
      DirnameOfRoot(root);
      assert Render(root, []) == root || root == "";
    } else {
      var init := comps[..|comps| - 1];
      var last := comps[|comps| - 1];
      assert comps == init + [last];
      if init == [] {
        DirnameOfSingle(root, last);
        if root != "" { assert Render(root, []) == root; }
      } else {
        DirnameOfLonger(root, init, last);
      }
    }
  }

  /** `os.path.join(a, b)`: an absolute `b` replaces `a`; no "/" is added after an `a`
      that is empty or already ends in one. */
  function OsJoin(a: string, b: string): (r: string)
    ensures EndsWith(r, b)
  {
    if StartsWith(b, "/") then b
    else if a == "" || EndsWith(a, "/") then a + b
    else
      assert (a + "/" + b)[|a| + 1..] == b;
      a + "/" + b
  }

  /** Joining `b` then `c` is joining "b/c" at once, for relative names without slashes
      at the seam. */
  lemma JoinTwice(a: string, b: string, c: string)
    requires b != [] && b[0] != '/' && b[|b| - 1] != '/' && c != [] && c[0] != '/'
    ensures OsJoin(OsJoin(a, b), c) == OsJoin(a, b + "/" + c)
  {
    var ab := OsJoin(a, b);
    assert !StartsWith(b, "/") && !StartsWith(c, "/") && !StartsWith(b + "/" + c, "/");
    assert ab != "" && !EndsWith(ab, "/") by {
      assert ab[|ab| - |b|..] == b;
    }
    if a == "" || EndsWith(a, "/") {
      assert ab + "/" + c == a + (b + "/" + c);
    } else {
      assert ab + "/" + c == a + "/" + (b + "/" + c);
    }
  }
}
