/** The Python 3.9 back-porter (app/scripts/migrate_to_py39.py): where `patch_file`
    inserts the `from typing import ...` line, which names it imports, its loop that
    settles after one pass, and the rule that a file is written only when its text
    changed. The regular-expression rewrites are given as functions on the text. */
module MigratePy39 {
  import opened Text

  const FutureImport := "from __future__"
  const ImportPrefix := "import "
  const FromPrefix := "from "
  const TypingPrefix := "from typing import "
  const UnionName := "Union"
  const OptionalName := "Optional"
  const NameSeparator := ", "
  const NewLine := "\n"

  // ---------------------------------------------------------------- splitlines

  /** The line boundaries of `str.splitlines`. */
  predicate IsLineBreak(c: char) {
    || ('\n' <= c <= '\r') || ('\U{1c}' <= c <= '\U{1e}')
    || c == '\U{85}' || c == '\U{2028}' || c == '\U{2029}'
  }

  predicate NoBreak(s: string) {
    forall i :: 0 <= i < |s| ==> !IsLineBreak(s[i])
  }

  /** The index of the first line boundary in `s`, if any. */
  function FirstBreak(s: string): (r: Option<nat>)
    ensures r.None? ==> NoBreak(s)
    ensures r.Some? ==> r.value < |s| && IsLineBreak(s[r.value]) && NoBreak(s[..r.value])
  {
    if s == [] then None
    else if IsLineBreak(s[0]) then Some(0)
    else match FirstBreak(s[1..]) {
      case None => None
      case Some(i) => assert s[..i + 1] == [s[0]] + s[1..][..i]; Some(i + 1)
    }
  }

  /** Where the next line starts after a boundary at `i`: "\r\n" counts as one. */
  function NextLine(s: string, i: nat): (n: nat)
    requires i < |s|
    ensures i < n <= |s|
  {
    if s[i] == '\r' && i + 1 < |s| && s[i + 1] == '\n' then i + 2 else i + 1
  }

  /** `s.splitlines()`: the lines without their ends; a final line end adds no empty
      line. */
  function SplitLines(s: string): (r: seq<string>)
    ensures forall k :: 0 <= k < |r| ==> NoBreak(r[k])
    decreases |s|
  {
    if s == [] then []
    else match FirstBreak(s) {
      case None => [s]
      case Some(i) => [s[..i]] + SplitLines(s[NextLine(s, i)..])
    }
  }

  /** Text whose only line boundary is "\n". */
  predicate OnlyNewlines(s: string) {
    forall i :: 0 <= i < |s| ==> s[i] == '\n' || !IsLineBreak(s[i])
  }

  /** The text less one final "\n", when it has one. */
  function DropFinalNewline(s: string): string {
    if s != [] && s[|s| - 1] == '\n' then s[..|s| - 1] else s
  }

  /** Joining the lines back with "\n" gives the text again, less one final "\n":
      rewriting a file drops its last line end. */
  lemma {:induction false} LinesRejoin(s: string)
    requires OnlyNewlines(s)
    ensures Join(SplitLines(s), NewLine) == DropFinalNewline(s)
    decreases |s|
  {
    match FirstBreak(s) {
      case None =>
      case Some(i) =>
        assert s[i] == '\n' && NextLine(s, i) == i + 1;
        var rest := s[i + 1..];
        assert SplitLines(s) == [s[..i]] + SplitLines(rest);
        if rest != [] {
          assert OnlyNewlines(rest) by {
            assert forall k :: 0 <= k < |rest| ==> rest[k] == s[i + 1 + k];
          }
          LinesRejoin(rest);
          SplitLinesNonEmpty(rest);
          RejoinCons(s, i, SplitLines(rest));
        } else {
          assert SplitLines(s) == [s[..i]];
        }
    }
  }

  lemma SplitLinesNonEmpty(s: string)
    requires s != []
    ensures SplitLines(s) != []
  {
  }

  /** One step of the rejoin: a line, "\n", then the rest of the text. */
  lemma RejoinCons(s: string, i: nat, lines: seq<string>)
    requires i + 1 < |s| && s[i] == '\n' && lines != []
    requires Join(lines, NewLine) == DropFinalNewline(s[i + 1..])
    ensures Join([s[..i]] + lines, NewLine) == DropFinalNewline(s)
  {
    assert ([s[..i]] + lines)[1..] == lines;
    assert s == s[..i] + NewLine + s[i + 1..];
    assert s[..|s| - 1] == s[..i] + NewLine + s[i + 1..][..|s[i + 1..]| - 1];
  }

  // ---------------------------------------------------------------- the insertion index

  /** `line.strip().startswith("from __future__")`, written as a scan past the leading
      whitespace (see FutureIsStripped). */
  predicate IsFuture(line: string)
    decreases |line|
  {
    if line != [] && IsSpace(line[0]) then IsFuture(line[1..]) else StartsWith(line, FutureImport)
  }

  lemma {:induction false} FutureAfterLStrip(line: string)
    ensures IsFuture(line) <==> StartsWith(LStrip(line), FutureImport)
    decreases |line|
  {
    if line != [] && IsSpace(line[0]) {
      FutureAfterLStrip(line[1..]);
    }
  }

  /** The scan agrees with stripping both ends first: the prefix ends in a character
      that is not whitespace, so `rstrip` never cuts into it. */
  lemma FutureIsStripped(line: string)
    ensures IsFuture(line) <==> StartsWith(Strip(line), FutureImport)
  {
    FutureAfterLStrip(line);
    assert !IsSpace(FutureImport[|FutureImport| - 1]);
    if IsFuture(line) {
      StripKeepsPrefix(line, FutureImport);
    }
    if StartsWith(Strip(line), FutureImport) {
      StrippedPrefix(line, FutureImport);
    }
  }

  predicate IsImport(line: string) {
    StartsWith(line, ImportPrefix) || StartsWith(line, FromPrefix)
  }

  /** For each line, whether it is a `from __future__` line. */
  function FutureMarks(lines: seq<string>): (r: seq<bool>)
    ensures |r| == |lines|
  {
    if lines == [] then [] else FutureMarks(lines[..|lines| - 1]) + [IsFuture(lines[|lines| - 1])]
  }

  /** For each line, whether it is an import line. */
  function ImportMarks(lines: seq<string>): (r: seq<bool>)
    ensures |r| == |lines|
  {
    if lines == [] then [] else ImportMarks(lines[..|lines| - 1]) + [IsImport(lines[|lines| - 1])]
  }

  lemma {:induction false} FutureMarkAt(lines: seq<string>, j: nat)
    requires j < |lines|
    ensures FutureMarks(lines)[j] == IsFuture(lines[j])
  {
    if j < |lines| - 1 {
      FutureMarkAt(lines[..|lines| - 1], j);
    }
  }

  lemma {:induction false} ImportMarkAt(lines: seq<string>, j: nat)
    requires j < |lines|
    ensures ImportMarks(lines)[j] == IsImport(lines[j])
  {
    if j < |lines| - 1 {
      ImportMarkAt(lines[..|lines| - 1], j);
    }
  }

  /** The first marked index. */
  function FirstMarked(m: seq<bool>): (r: Option<nat>)
    ensures r.None? ==> forall j :: 0 <= j < |m| ==> !m[j]
    ensures r.Some? ==> r.value < |m| && m[r.value] && (forall j :: 0 <= j < r.value ==> !m[j])
  {
    if m == [] then None
    else if m[0] then Some(0)
    else match FirstMarked(m[1..]) {
      case None => None
      case Some(i) => Some(i + 1)
    }
  }

  /** The last marked index. */
  function LastMarked(m: seq<bool>): (r: Option<nat>)
    ensures r.None? ==> forall j :: 0 <= j < |m| ==> !m[j]
    ensures r.Some? ==> r.value < |m| && m[r.value] && (forall j :: r.value < j < |m| ==> !m[j])
  {
    if m == [] then None
    else if m[|m| - 1] then Some(|m| - 1)
    else
      var r := LastMarked(m[..|m| - 1]);
      assert forall j :: 0 <= j < |m| - 1 ==> m[..|m| - 1][j] == m[j];
      r
  }

  /** Where the import line goes: right after the last `from __future__` line, else at
      the first import, else at the top. */
  function InsertIndex(lines: seq<string>): (r: nat)
    ensures r <= |lines|
  {
    match LastMarked(FutureMarks(lines)) {
      case Some(i) => i + 1
      case None => match FirstMarked(ImportMarks(lines)) {
        case Some(j) => j
        case None => 0
      }
    }
  }

  /** With a `from __future__` line at `j`, the import line goes right after the last
      such line, which is `j` or later. */
  lemma InsertAfterFuture(lines: seq<string>, j: nat)
    requires j < |lines| && IsFuture(lines[j])
    ensures j < InsertIndex(lines) && IsFuture(lines[InsertIndex(lines) - 1])
    ensures forall k :: InsertIndex(lines) <= k < |lines| ==> !IsFuture(lines[k])
  {
    FutureMarkAt(lines, j);
    var i := LastMarked(FutureMarks(lines)).value;
    FutureMarkAt(lines, i);
    forall k | i + 1 <= k < |lines|
      ensures !IsFuture(lines[k])
    {
      FutureMarkAt(lines, k);
    }
  }

  /** Without a `from __future__` line, the import line goes before the first import
      line, or at the top when there is none. */
  lemma InsertAtImport(lines: seq<string>)
    requires forall j :: 0 <= j < |lines| ==> !IsFuture(lines[j])
    ensures forall k :: 0 <= k < InsertIndex(lines) ==> !IsImport(lines[k])
    ensures (exists k :: 0 <= k < |lines| && IsImport(lines[k])) ==>
      InsertIndex(lines) < |lines| && IsImport(lines[InsertIndex(lines)])
    ensures (forall k :: 0 <= k < |lines| ==> !IsImport(lines[k])) ==> InsertIndex(lines) == 0
  {
    forall k | 0 <= k < |lines|
      ensures !FutureMarks(lines)[k] && ImportMarks(lines)[k] == IsImport(lines[k])
    {
      FutureMarkAt(lines, k);
      ImportMarkAt(lines, k);
    }
  }

  /** The first scan of `patch_file`: the line after the last `from __future__` line
      and, until one is seen, an import line (an index of 0 is replaced by the next
      import line's). With no import line at all the index stays 0. */
  method ScanFuture(lines: seq<string>) returns (idx: nat, foundFuture: bool)
    ensures foundFuture <==> LastMarked(FutureMarks(lines)).Some?
    ensures foundFuture ==> idx == LastMarked(FutureMarks(lines)).value + 1
    ensures !foundFuture && FirstMarked(ImportMarks(lines)).None? ==> idx == 0
  {
    idx := 0;
    foundFuture := false;
    for i := 0 to |lines|
      invariant Scanned(lines, i, idx, foundFuture)
    {
      var idx', foundFuture' := idx, foundFuture;
      if IsFuture(lines[i]) {
        idx' := i + 1;
        foundFuture' := true;
      } else if !foundFuture && IsImport(lines[i]) {
        if idx == 0 {
          idx' := i;
        }
      }
      ScanStep(lines, i, idx, foundFuture, idx', foundFuture');
      idx, foundFuture := idx', foundFuture';
    }
    ScanDone(lines, idx, foundFuture);
  }

  /** What the first scan knows after the first `i` lines. */
  ghost predicate Scanned(lines: seq<string>, i: nat, idx: nat, foundFuture: bool)
    requires i <= |lines|
  {
    && (foundFuture <==> LastMarked(FutureMarks(lines[..i])).Some?)
    && (foundFuture ==> idx == LastMarked(FutureMarks(lines[..i])).value + 1)
    && (!foundFuture && true !in ImportMarks(lines[..i]) ==> idx == 0)
  }

  lemma ScanStep(lines: seq<string>, i: nat, idx: nat, foundFuture: bool, idx': nat, foundFuture': bool)
    requires i < |lines| && Scanned(lines, i, idx, foundFuture)
    requires IsFuture(lines[i]) ==> idx' == i + 1 && foundFuture'
    requires !IsFuture(lines[i]) ==>
      foundFuture' == foundFuture && idx' == if !foundFuture && IsImport(lines[i]) && idx == 0 then i else idx
    ensures Scanned(lines, i + 1, idx', foundFuture')
  {
    assert lines[..i + 1][..i] == lines[..i];
  }

  lemma ScanDone(lines: seq<string>, idx: nat, foundFuture: bool)
    requires Scanned(lines, |lines|, idx, foundFuture)
    ensures foundFuture <==> LastMarked(FutureMarks(lines)).Some?
    ensures foundFuture ==> idx == LastMarked(FutureMarks(lines)).value + 1
    ensures !foundFuture && FirstMarked(ImportMarks(lines)).None? ==> idx == 0
  {
    assert lines[..|lines|] == lines;
  }

  /** Both scans of `patch_file` over `lines`; the second, run only when there was no
      future import, takes the first import line. */
  method FindInsertIndex(lines: seq<string>) returns (idx: nat)
    ensures idx == InsertIndex(lines)
  {
    ghost var imports := ImportMarks(lines);
    var foundFuture;
    idx, foundFuture := ScanFuture(lines);
    if !foundFuture {
      var i := 0;
      while i < |lines|
        invariant i <= |lines|
        invariant FirstMarked(imports).Some? ==> i <= FirstMarked(imports).value
      {
        ImportMarkAt(lines, i);
        if IsImport(lines[i]) {
          idx := i;
          return;
        }
        i := i + 1;
      }
    }
  }

  // ---------------------------------------------------------------- the import line

  /** The names to import: "Union", then "Optional", each only when the text does not
      already mention it anywhere. */
  function Needed(content: string): (r: seq<string>)
    ensures UnionName in r <==> !Contains(content, UnionName)
    ensures OptionalName in r <==> !Contains(content, OptionalName)
    ensures r == [] || r == [UnionName] || r == [OptionalName] || r == [UnionName, OptionalName]
  {
    (if Contains(content, UnionName) then [] else [UnionName])
      + (if Contains(content, OptionalName) then [] else [OptionalName])
  }

  function ImportLine(needed: seq<string>): string {
    TypingPrefix + Join(needed, NameSeparator)
  }

  /** `lines.insert(idx, line)` */
  function InsertAt(lines: seq<string>, idx: nat, line: string): (r: seq<string>)
    requires idx <= |lines|
    ensures |r| == |lines| + 1 && r[idx] == line
    ensures forall j :: 0 <= j < idx ==> r[j] == lines[j]
    ensures forall j :: idx <= j < |lines| ==> r[j + 1] == lines[j]
  {
    lines[..idx] + [line] + lines[idx..]
  }

  /** The text after step 1 of `patch_file`: unchanged when nothing is needed, else the
      lines, with the import line inserted, joined with "\n". */
  function WithImports(content: string): string {
    var needed := Needed(content);
    if needed == [] then content
    else
      var lines := SplitLines(content);
      Join(InsertAt(lines, InsertIndex(lines), ImportLine(needed)), NewLine)
  }

  // ---------------------------------------------------------------- patch_file

  /** The final text of a file and whether it is written back. */
  datatype Patched = Patched(content: string, written: bool)

  /** What `patch_file` does to a file holding `content`. `optionalRewrite` stands for
      the two `re.sub` calls before the loop, `unionRewrite` for the three after it. */
  function PatchF(content: string, optionalRewrite: string -> string, unionRewrite: string -> string): (r: Patched)
    ensures r.written <==> r.content != content
  {
    var c := unionRewrite(optionalRewrite(WithImports(content)));
    Patched(c, c != content)
  }

  /** `patch_file(filepath)` for a file holding `content`. */
  method PatchFile(content: string, optionalRewrite: string -> string, unionRewrite: string -> string)
    returns (result: string, written: bool)
    ensures Patched(result, written) == PatchF(content, optionalRewrite, unionRewrite)
  {
    var original := content;
    var text := content;
    var lines := SplitLines(text);
    var idx := FindInsertIndex(lines);
    var needed: seq<string> := [];
    if !Contains(text, UnionName) {
      needed := needed + [UnionName];
    }
    if !Contains(text, OptionalName) {
      needed := needed + [OptionalName];
    }
    if needed != [] {
      lines := InsertAt(lines, idx, ImportLine(needed));
      text := Join(lines, NewLine);
    }
    text := optionalRewrite(text);
    var passes;
    text, passes := Settle(text);
    text := unionRewrite(text);
    result := text;
    written := text != original;
  }

  /** The `while content != prev_content` loop, whose body only records the text: it
      runs once (never, for an empty text) and changes nothing. */
  method Settle(content: string) returns (settled: string, passes: nat)
    ensures settled == content
    ensures passes == if content == [] then 0 else 1
  {
    settled := content;
    var prev := "";
    passes := 0;
    while settled != prev
      invariant settled == content
      invariant (passes == 0 && prev == "") || (passes == 1 && prev == settled && settled != "")
      decreases if settled != prev then 1 else 0
    {
      prev := settled;
      passes := passes + 1;
    }
  }

  /** Without any rewrite, a file that already mentions both names is left alone. */
  lemma NothingToDo(content: string)
    requires Contains(content, UnionName) && Contains(content, OptionalName)
    ensures PatchF(content, s => s, s => s) == Patched(content, false)
  {
  }

  /** Without any rewrite, a file is written back exactly when it lacked one of the
      names. */
  lemma WrittenIff(content: string)
    ensures PatchF(content, s => s, s => s).written <==> Needed(content) != []
  {
    if Needed(content) != [] {
      ImportsSettle(content);
    }
  }

  // ---------------------------------------------------------------- names survive

  /** A mention of a name without line breaks sits inside one of the lines. */
  lemma {:induction false} MentionInLine(s: string, w: string, p: nat)
    requires NoBreak(w) && w != [] && p + |w| <= |s| && s[p..p + |w|] == w
    ensures exists k :: 0 <= k < |SplitLines(s)| && Contains(SplitLines(s)[k], w)
    decreases |s|
  {
    match FirstBreak(s) {
      case None =>
        ContainsAt(s, w, p);
        assert SplitLines(s)[0] == s;
      case Some(i) =>
        var n := NextLine(s, i);
        var rest := s[n..];
        assert SplitLines(s) == [s[..i]] + SplitLines(rest);
        if p + |w| <= i {
          MentionInFirstLine(s, w, p, i);
          assert SplitLines(s)[0] == s[..i];
        } else {
          MentionAfterBreak(s, w, p, i);
          MentionInLine(rest, w, p - n);
          var k :| 0 <= k < |SplitLines(rest)| && Contains(SplitLines(rest)[k], w);
          assert SplitLines(s)[k + 1] == SplitLines(rest)[k];
        }
    }
  }

  lemma MentionInFirstLine(s: string, w: string, p: nat, i: nat)
    requires p + |w| <= i <= |s| && s[p..p + |w|] == w
    ensures Contains(s[..i], w)
  {
    assert s[..i][p..p + |w|] == w;
    ContainsAt(s[..i], w, p);
  }

  /** A mention without breaks that does not end before the first break starts after
      the next line does. */
  lemma MentionAfterBreak(s: string, w: string, p: nat, i: nat)
    requires NoBreak(w) && w != [] && p + |w| <= |s| && s[p..p + |w|] == w
    requires i < |s| && IsLineBreak(s[i]) && NoBreak(s[..i]) && i < p + |w|
    ensures p >= NextLine(s, i) && s[NextLine(s, i)..][p - NextLine(s, i)..p - NextLine(s, i) + |w|] == w
  {
    var n := NextLine(s, i);
    assert forall q :: p <= q < p + |w| ==> s[q] == w[q - p];
    assert p > i;
    assert p >= n;
  }

  predicate MentionedAt(s: string, w: string, p: nat) {
    p + |w| <= |s| && s[p..p + |w|] == w
  }

  /** A mention somewhere in the text is at some position. */
  lemma {:induction false} MentionAt(s: string, w: string)
    requires Contains(s, w)
    ensures exists p: nat :: MentionedAt(s, w, p)
    decreases |s|
  {
    if StartsWith(s, w) {
      assert MentionedAt(s, w, 0);
    } else {
      MentionAt(s[1..], w);
      var p: nat :| MentionedAt(s[1..], w, p);
      assert s[p + 1..p + 1 + |w|] == w;
      assert MentionedAt(s, w, p + 1);
    }
  }

  lemma ContainsLeft(a: string, b: string, w: string)
    requires Contains(a, w)
    ensures Contains(a + b, w)
  {
    MentionAt(a, w);
    var p: nat :| MentionedAt(a, w, p);
    assert (a + b)[p..p + |w|] == w;
    ContainsAt(a + b, w, p);
  }

  lemma ContainsRight(a: string, b: string, w: string)
    requires Contains(b, w)
    ensures Contains(a + b, w)
  {
    MentionAt(b, w);
    var p: nat :| MentionedAt(b, w, p);
    assert (a + b)[|a| + p..|a| + p + |w|] == w;
    ContainsAt(a + b, w, |a| + p);
  }

  /** Joining keeps every mention inside a line. */
  lemma {:induction false} JoinKeeps(lines: seq<string>, sep: string, k: nat, w: string)
    requires k < |lines| && Contains(lines[k], w)
    ensures Contains(Join(lines, sep), w)
    decreases |lines|
  {
    if |lines| > 1 {
      assert Join(lines, sep) == lines[0] + sep + Join(lines[1..], sep);
      if k == 0 {
        ContainsLeft(lines[0], sep, w);
        ContainsLeft(lines[0] + sep, Join(lines[1..], sep), w);
      } else {
        JoinKeeps(lines[1..], sep, k - 1, w);
        ContainsRight(lines[0] + sep, Join(lines[1..], sep), w);
      }
    }
  }

  /** A name the text mentions is still mentioned once the import line is added. */
  lemma MentionSurvives(content: string, w: string)
    requires NoBreak(w) && w != [] && Contains(content, w)
    ensures Contains(WithImports(content), w)
  {
    if Needed(content) != [] {
      var lines := SplitLines(content);
      var idx := InsertIndex(lines);
      var out := InsertAt(lines, idx, ImportLine(Needed(content)));
      MentionAt(content, w);
      var p: nat :| MentionedAt(content, w, p);
      MentionInLine(content, w, p);
      var k :| 0 <= k < |lines| && Contains(lines[k], w);
      var k' := if k < idx then k else k + 1;
      assert out[k'] == lines[k];
      JoinKeeps(out, NewLine, k', w);
    }
  }

  /** The import line mentions every name it imports. */
  lemma ImportLineMentions(needed: seq<string>, w: string)
    requires needed == [UnionName] || needed == [OptionalName] || needed == [UnionName, OptionalName]
    requires w in needed
    ensures Contains(ImportLine(needed), w)
  {
    var line := ImportLine(needed);
    if needed == [UnionName, OptionalName] {
      assert Join(needed, NameSeparator) == UnionName + NameSeparator + Join(needed[1..], NameSeparator);
      assert needed[1..] == [OptionalName];
      assert Join(needed, NameSeparator) == UnionName + NameSeparator + OptionalName;
      if w == UnionName {
        assert line[|TypingPrefix|..|TypingPrefix| + |w|] == w;
        ContainsAt(line, w, |TypingPrefix|);
      } else {
        var at := |TypingPrefix| + |UnionName| + 2;
        assert line[at..at + |w|] == w;
        ContainsAt(line, w, at);
      }
    } else {
      assert Join(needed, NameSeparator) == w;
      assert line[|TypingPrefix|..] == w;
      ContainsAt(line, w, |TypingPrefix|);
    }
  }

  /** After step 1 the text mentions both names, so running the script again adds no
      second import line. */
  lemma ImportsSettle(content: string)
    ensures Needed(WithImports(content)) == []
  {
    var needed := Needed(content);
    if needed != [] {
      var lines := SplitLines(content);
      var idx := InsertIndex(lines);
      var out := InsertAt(lines, idx, ImportLine(needed));
      NamePresent(content, UnionName);
      NamePresent(content, OptionalName);
    }
  }

  /** One name, either already in the text or brought in by the import line. */
  lemma NamePresent(content: string, w: string)
    requires w == UnionName || w == OptionalName
    requires Needed(content) != []
    ensures Contains(WithImports(content), w)
  {
    var needed := Needed(content);
    assert NoBreak(w) && w != [] by {
      assert forall i :: 0 <= i < |w| ==> 'A' <= w[i] <= 'z';
    }
    if Contains(content, w) {
      MentionSurvives(content, w);
    } else {
      var lines := SplitLines(content);
      var idx := InsertIndex(lines);
      var out := InsertAt(lines, idx, ImportLine(needed));
      ImportLineMentions(needed, w);
      JoinKeeps(out, NewLine, idx, w);
    }
  }
}
