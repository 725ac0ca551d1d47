/** The 360° video extractor launcher (app/core/extractor_360_engine.py): the command
    line `run_extraction` builds from its parameters, the filtering of the lines the
    extractor prints, the `[ NN%]` progress parse and the result rule. The process is
    given as the lines it prints and its exit code; the cancel callback as the poll
    from which it reads true. */
module Extractor360 {
  import opened Text
  import opened Host

  const InputFlag := "--input"
  const OutputFlag := "--output"
  const IntervalFlag := "--interval"
  const FormatFlag := "--format"
  const ResolutionFlag := "--resolution"
  const CameraCountFlag := "--camera-count"
  const QualityFlag := "--quality"
  const LayoutFlag := "--layout"
  const AiMaskFlag := "--ai-mask"
  const AiSkipFlag := "--ai-skip"
  const AdaptiveFlag := "--adaptive"
  const MotionThresholdFlag := "--motion-threshold"

  const NotInstalledMessage := "Error: 360Extractor not installed."
  const CommandPrefix := "Command: "
  const CancelMessage := "Processus arrêté par l'utilisateur."
  /** The closing of a progress value, `%]`. */
  const PercentClose := "%]"

  /** The entries of `params` that `run_extraction` reads: each key that is present, as
      the text `str()` gives of its value, and the truthiness of the three switches
      (`params.get(key, False)`). */
  datatype Params = Params(
    interval: Option<string>,
    format: Option<string>,
    resolution: Option<string>,
    cameraCount: Option<string>,
    quality: Option<string>,
    layout: Option<string>,
    aiMask: bool,
    aiSkip: bool,
    adaptive: bool,
    motionThreshold: Option<string>)

  /** `cmd.extend([flag, value])` when the key is present. */
  function Opt(flag: string, v: Option<string>): seq<string> {
    if v.Some? then [flag, v.value] else []
  }

  /** `cmd.append(flag)` when the switch is truthy. */
  function Switch(flag: string, on: bool): seq<string> {
    if on then [flag] else []
  }

  /** The adaptive switch, followed by the motion threshold when one is given. */
  function AdaptiveOptions(p: Params): seq<string> {
    if p.adaptive then [AdaptiveFlag] + Opt(MotionThresholdFlag, p.motionThreshold) else []
  }

  function SwitchOptions(p: Params): seq<string> {
    Switch(AiMaskFlag, p.aiMask) + (Switch(AiSkipFlag, p.aiSkip) + AdaptiveOptions(p))
  }

  /** The options in the order `run_extraction` adds them. */
  function Options(p: Params): seq<string> {
    Opt(IntervalFlag, p.interval)
      + (Opt(FormatFlag, p.format)
      + (Opt(ResolutionFlag, p.resolution)
      + (Opt(CameraCountFlag, p.cameraCount)
      + (Opt(QualityFlag, p.quality)
      + (Opt(LayoutFlag, p.layout)
      + SwitchOptions(p))))))
  }

  /** The command: the venv's python, the script, input and output, then the options. */
  function ExtractorArgv(python: string, script: string, input: string, output: string, p: Params): (r: seq<string>)
    ensures |r| >= 6 && r[..6] == [python, script, InputFlag, input, OutputFlag, output]
  {
    [python, script, InputFlag, input, OutputFlag, output] + Options(p)
  }

  /** Reads `flag value` off the front of `s` when `flag` is there. */
  function TakeOpt(flag: string, s: seq<string>): (Option<string>, seq<string>) {
    if |s| >= 2 && s[0] == flag then (Some(s[1]), s[2..]) else (None, s)
  }

  /** Reads `flag` off the front of `s` when it is there. */
  function TakeSwitch(flag: string, s: seq<string>): (bool, seq<string>) {
    if |s| >= 1 && s[0] == flag then (true, s[1..]) else (false, s)
  }

  /** Reads the options back, in the order they are written. */
  function DecodeOptions(s: seq<string>): Params {
    var (interval, s1) := TakeOpt(IntervalFlag, s);
    var (format, s2) := TakeOpt(FormatFlag, s1);
    var (resolution, s3) := TakeOpt(ResolutionFlag, s2);
    var (cameras, s4) := TakeOpt(CameraCountFlag, s3);
    var (quality, s5) := TakeOpt(QualityFlag, s4);
    var (layout, s6) := TakeOpt(LayoutFlag, s5);
    var (mask, skip, adaptive, threshold) := DecodeSwitches(s6);
    Params(interval, format, resolution, cameras, quality, layout, mask, skip, adaptive, threshold)
  }

  /** Reads the switches back, and the motion threshold after the adaptive one. */
  function DecodeSwitches(s: seq<string>): (bool, bool, bool, Option<string>) {
    var (mask, s1) := TakeSwitch(AiMaskFlag, s);
    var (skip, s2) := TakeSwitch(AiSkipFlag, s1);
    var (adaptive, s3) := TakeSwitch(AdaptiveFlag, s2);
    (mask, skip, adaptive, if adaptive then TakeOpt(MotionThresholdFlag, s3).0 else None)
  }

  /** What a reader of the command line gets back from it. */
  datatype Decoded = Decoded(python: string, script: string, input: string, output: string, params: Params)

  function DecodeArgv(r: seq<string>): Option<Decoded> {
    if |r| < 6 || r[2] != InputFlag || r[4] != OutputFlag then None
    else Some(Decoded(r[0], r[1], r[3], r[5], DecodeOptions(r[6..])))
  }

  /** The parameters as the command line carries them: a motion threshold without the
      adaptive switch is dropped. */
  function Carried(p: Params): Params {
    if p.adaptive then p else p.(motionThreshold := None)
  }

  /** The command line keeps every parameter `run_extraction` reads, each present key
      with its value and each truthy switch, except a motion threshold given without
      `adaptive`. */
  lemma ArgvDecodes(python: string, script: string, input: string, output: string, p: Params)
    ensures DecodeArgv(ExtractorArgv(python, script, input, output, p))
      == Some(Decoded(python, script, input, output, Carried(p)))
  {
    var r := ExtractorArgv(python, script, input, output, p);
    assert r[6..] == Options(p);
    OptionsDecode(p);
  }

  /** Nothing but the motion threshold follows the adaptive switch. */
  lemma OptionsDecode(p: Params)
    ensures DecodeOptions(Options(p)) == Carried(p)
  {
    var sw := SwitchOptions(p);
    var t6 := Opt(LayoutFlag, p.layout) + sw;
    var t5 := Opt(QualityFlag, p.quality) + t6;
    var t4 := Opt(CameraCountFlag, p.cameraCount) + t5;
    var t3 := Opt(ResolutionFlag, p.resolution) + t4;
    var t2 := Opt(FormatFlag, p.format) + t3;
    SwitchesFirst(p);
    TakeOptions(IntervalFlag, p.interval, t2);
    TakeOptions(FormatFlag, p.format, t3);
    TakeOptions(ResolutionFlag, p.resolution, t4);
    TakeOptions(CameraCountFlag, p.cameraCount, t5);
    TakeOptions(QualityFlag, p.quality, t6);
    TakeOptions(LayoutFlag, p.layout, sw);
    SwitchesDecode(p);
  }

  /** The switches read back as written; the threshold only after the adaptive switch. */
  lemma SwitchesDecode(p: Params)
    ensures DecodeSwitches(SwitchOptions(p)) == (p.aiMask, p.aiSkip, p.adaptive, Carried(p).motionThreshold)
  {
    var ad := AdaptiveOptions(p);
    TakeSwitches(AiMaskFlag, p.aiMask, Switch(AiSkipFlag, p.aiSkip) + ad);
    TakeSwitches(AiSkipFlag, p.aiSkip, ad);
    if p.adaptive {
      assert TakeSwitch(AdaptiveFlag, ad) == (true, Opt(MotionThresholdFlag, p.motionThreshold));
    }
  }

  /** The first token of each tail is a flag written later, never the one just read. */
  lemma SwitchesFirst(p: Params)
    ensures var t := SwitchOptions(p);
      t == [] || t[0] in {AiMaskFlag, AiSkipFlag, AdaptiveFlag}
    ensures var t := Opt(LayoutFlag, p.layout) + SwitchOptions(p);
      t == [] || t[0] in {LayoutFlag, AiMaskFlag, AiSkipFlag, AdaptiveFlag}
  {
  }

  lemma TakeOptions(flag: string, v: Option<string>, rest: seq<string>)
    requires rest == [] || rest[0] != flag
    ensures TakeOpt(flag, Opt(flag, v) + rest) == (v, rest)
  {
    if v.Some? {
      assert (Opt(flag, v) + rest)[2..] == rest;
    } else {
      assert Opt(flag, v) + rest == rest;
    }
  }

  lemma TakeSwitches(flag: string, on: bool, rest: seq<string>)
    requires rest == [] || rest[0] != flag
    ensures TakeSwitch(flag, Switch(flag, on) + rest) == (on, rest)
  {
    if on {
      assert (Switch(flag, on) + rest)[1..] == rest;
    } else {
      assert Switch(flag, on) + rest == rest;
    }
  }

  // ---------------------------------------------------------------- the progress parse

  /** `s.split(pat)[0]`: the text before the first occurrence of `pat`, or all of `s`. */
  function BeforeFirst(s: string, pat: string): (r: string)
    requires pat != []
    ensures |r| <= |s| && r == s[..|r|]
    ensures r == s || StartsWith(s[|r|..], pat)
    ensures forall j :: 0 <= j < |r| ==> !StartsWith(s[j..], pat)
    decreases |s|
  {
    if s == [] || StartsWith(s, pat) then []
    else
      var rest := BeforeFirst(s[1..], pat);
      assert forall j :: 1 <= j <= |s| ==> s[j..] == s[1..][j - 1..];
      [s[0]] + rest
  }

  lemma BeforeFirstAt(s: string, pat: string, i: nat)
    requires pat != [] && i + |pat| <= |s| && s[i..i + |pat|] == pat
    requires forall j :: 0 <= j < i ==> !StartsWith(s[j..], pat)
    ensures BeforeFirst(s, pat) == s[..i]
  {
    var r := BeforeFirst(s, pat);
    assert StartsWith(s[i..], pat);
  }

  lemma SplitSecond(s: string, c: char)
    requires c in s
    ensures |Split(s, c)| >= 2
  {
  }

  /** The first piece of `s.split(c)` is the text before the first `c`. */
  lemma SplitFirst(s: string, c: char, i: nat)
    requires i <= |s| && c !in s[..i] && (i == |s| || s[i] == c)
    ensures Split(s, c)[0] == s[..i]
  {
    if i < |s| {
      FindFirst(s, c, i);
    } else {
      assert s[..i] == s;
    }
  }

  /** `int(line.split("[")[1].split("%]")[0].strip())` for a line holding "%", "[" and
      "%]"; None where the source's bare `except` swallows the error, or where the line
      is not a progress line. */
  function ProgressValue(line: string): (r: Option<int>)
    ensures r.Some? ==> '%' in line && '[' in line && Contains(line, PercentClose)
  {
    if '%' in line && '[' in line && Contains(line, PercentClose) then
      SplitSecond(line, '[');
      ParseInt(BeforeFirst(Split(line, '[')[1], PercentClose))
    else None
  }

  lemma LStripSpaces(sp: string, d: string)
    requires forall i :: 0 <= i < |sp| ==> IsSpace(sp[i])
    requires d != [] && !IsSpace(d[0])
    ensures LStrip(sp + d) == d
    decreases |sp|
  {
    if sp != [] {
      assert (sp + d)[1..] == sp[1..] + d;
      LStripSpaces(sp[1..], d);
    }
  }

  lemma ParsePadded(sp: string, n: nat)
    requires forall i :: 0 <= i < |sp| ==> IsSpace(sp[i])
    ensures ParseInt(sp + NatToString(n)) == Some(n)
  {
    var d := NatToString(n);
    LStripSpaces(sp, d);
    assert LStrip(d) == d;
    assert Strip(sp + d) == Strip(d);
    ParseSameStrip(sp + d, d);
    assert IntToString(n) == d;
    ParseIntToString(n);
  }

  /** `int` looks only at the stripped text. */
  lemma ParseSameStrip(a: string, b: string)
    requires Strip(a) == Strip(b)
    ensures ParseInt(a) == ParseInt(b)
  {
  }

  /** A line "... [ NN%] ..." whose first "[" opens the value reports NN, whatever
      spaces come before the digits and whatever follows. */
  lemma ProgressReads(pre: string, sp: string, n: nat, post: string)
    requires '[' !in pre
    requires forall i :: 0 <= i < |sp| ==> IsSpace(sp[i])
    ensures ProgressValue(pre + "[" + sp + NatToString(n) + PercentClose + post) == Some(n)
  {
    var d := NatToString(n);
    PaddedPlain(sp, n);
    LineMarks(pre, sp, d, post);
    SegmentValue(sp + d + PercentClose + post, sp + d);
    ParsePadded(sp, n);
  }

  /** Text free of "[" and "%" then "%]": the value's piece of the tail is that text. */
  lemma SegmentValue(tail: string, v: string)
    requires |v| + 2 <= |tail| && tail[..|v| + 2] == v + PercentClose
    requires '[' !in v && '%' !in v
    ensures BeforeFirst(Split(tail, '[')[0], PercentClose) == v
  {
    assert '[' !in tail[..|v| + 2];
    FirstPieceLong(tail, |v| + 2);
    BeforeClose(Split(tail, '[')[0], v);
  }

  /** Padding and digits hold neither "[" nor "%". */
  lemma PaddedPlain(sp: string, n: nat)
    requires forall i :: 0 <= i < |sp| ==> IsSpace(sp[i])
    ensures '[' !in sp + NatToString(n) && '%' !in sp + NatToString(n)
  {
    var d := NatToString(n);
    assert forall i :: 0 <= i < |d| ==> IsDigit(d[i]);
    assert forall i :: 0 <= i < |sp + d| ==> (sp + d)[i] != '[' && (sp + d)[i] != '%' by {
      forall i | 0 <= i < |sp + d| ensures (sp + d)[i] != '[' && (sp + d)[i] != '%' {
        if i < |sp| {
          assert (sp + d)[i] == sp[i];
        } else {
          assert (sp + d)[i] == d[i - |sp|];
        }
      }
    }
  }

  /** The line is a progress line, and its second "["-piece is the first piece of
      what follows the first "[". */
  lemma LineMarks(pre: string, sp: string, d: string, post: string)
    requires '[' !in pre
    ensures var tail := sp + d + PercentClose + post;
      var line := pre + "[" + sp + d + PercentClose + post;
      && tail[..|sp + d| + 2] == sp + d + PercentClose
      && ProgressValue(line) == ParseInt(BeforeFirst(Split(tail, '[')[0], PercentClose))
  {
    var tail := sp + d + PercentClose + post;
    var line := pre + "[" + sp + d + PercentClose + post;
    var at := |pre| + 1 + |sp| + |d|;
    assert line[..|pre|] == pre && line[|pre|] == '[' && line[|pre| + 1..] == tail;
    assert line[at..at + 2] == PercentClose;
    ProgressValueAt(line, |pre|, at);
  }

  /** A line with a first "[" at `i` and a "%]" at `at` is a progress line: its value
      is read from the first piece of what follows that "[". */
  lemma ProgressValueAt(line: string, i: nat, at: nat)
    requires i < |line| && line[i] == '[' && '[' !in line[..i]
    requires at + 2 <= |line| && line[at..at + 2] == PercentClose
    ensures ProgressValue(line) == ParseInt(BeforeFirst(Split(line[i + 1..], '[')[0], PercentClose))
  {
    assert line[at] == line[at..at + 2][0] == '%';
    assert line[at] in line && line[i] in line;
    ContainsAt(line, PercentClose, at);
    SplitOnce(line, '[', i);
  }

  /** With no "[" among its first `m` characters, the first "["-piece of `s` starts
      with them. */
  lemma FirstPieceLong(s: string, m: nat)
    requires m <= |s| && '[' !in s[..m]
    ensures |Split(s, '[')[0]| >= m && Split(s, '[')[0][..m] == s[..m]
  {
    match Find(s, '[') {
      case None =>
      case Some(i) =>
        assert Split(s, '[')[0] == s[..i];
    }
  }

  /** Text free of "%" followed by "%]": the part before the first "%]" is that text. */
  lemma BeforeClose(seg: string, v: string)
    requires |v| + 2 <= |seg| && seg[..|v| + 2] == v + PercentClose && '%' !in v
    ensures BeforeFirst(seg, PercentClose) == v
  {
    assert seg[|v|..|v| + 2] == PercentClose;
    forall j | 0 <= j < |v| ensures !StartsWith(seg[j..], PercentClose) {
      assert seg[j] == v[j];
      NoCloseAt(seg, j);
    }
    BeforeFirstAt(seg, PercentClose, |v|);
    assert seg[..|v|] == v;
  }

  /** No "%]" starts at a character other than "%". */
  lemma NoCloseAt(s: string, j: nat)
    requires j < |s| && s[j] != '%'
    ensures !StartsWith(s[j..], PercentClose)
  {
    assert s[j..][0] == s[j];
  }

  /** Splitting at the first `c`, found at `i`: the second piece is the first piece of
      what follows it. */
  lemma SplitOnce(s: string, c: char, i: nat)
    requires i < |s| && c !in s[..i] && s[i] == c
    ensures |Split(s, c)| >= 2 && Split(s, c)[1] == Split(s[i + 1..], c)[0]
  {
    FindFirst(s, c, i);
  }

  /** Only the text right after the first "[" is read: with a second "[" before the
      "%]", the piece between the two brackets is what `int` is given. */
  lemma ProgressFirstBracket(pre: string, q: string, m: string, e: string)
    requires '[' !in pre && '[' !in q
    ensures ProgressValue(pre + "[" + (q + "[" + m + PercentClose + e))
      == ParseInt(BeforeFirst(q, PercentClose))
  {
    var tail := q + "[" + m + PercentClose + e;
    CloseInTail(q, m, e);
    BracketLine(pre, tail, |q| + 1 + |m|);
    FirstPieceBefore(q, tail);
  }

  /** Where the "%]" sits in `q + "[" + m + "%]" + e`. */
  lemma CloseInTail(q: string, m: string, e: string)
    ensures var tail := q + "[" + m + PercentClose + e;
      var at := |q| + 1 + |m|;
      at + 2 <= |tail| && tail[at..at + 2] == PercentClose
    ensures var tail := q + "[" + m + PercentClose + e;
      |q| < |tail| && tail[..|q|] == q && tail[|q|] == '['
  {
    var tail := q + "[" + m + PercentClose + e;
    assert tail == q + ("[" + m + PercentClose + e);
  }

  /** The first "["-piece of text that starts with `q` and then "[" is `q`. */
  lemma FirstPieceBefore(q: string, tail: string)
    requires '[' !in q && |q| < |tail| && tail[..|q|] == q && tail[|q|] == '['
    ensures Split(tail, '[')[0] == q
  {
    SplitFirst(tail, '[', |q|);
  }

  /** A line whose first "[" is followed by a text holding "%]" is a progress line,
      and `int` is given the part of that text before any further "[" and "%]". */
  lemma BracketLine(pre: string, tail: string, at: nat)
    requires '[' !in pre && at + 2 <= |tail| && tail[at..at + 2] == PercentClose
    ensures ProgressValue(pre + "[" + tail) == ParseInt(BeforeFirst(Split(tail, '[')[0], PercentClose))
  {
    BracketOf(pre, tail, at, pre + "[" + tail);
  }

  /** The same, with the line named. */
  lemma BracketOf(pre: string, tail: string, at: nat, line: string)
    requires '[' !in pre && at + 2 <= |tail| && tail[at..at + 2] == PercentClose
    requires line == pre + "[" + tail
    ensures ProgressValue(line) == ParseInt(BeforeFirst(Split(tail, '[')[0], PercentClose))
  {
    var k := |pre| + 1 + at;
    BracketParts(pre, tail, at, k, line);
    BracketAt(line, |pre|, k, pre, tail);
  }

  /** Where the pieces of `line == pre + "[" + tail` sit. */
  lemma BracketParts(pre: string, tail: string, at: nat, k: nat, line: string)
    requires '[' !in pre && at + 2 <= |tail| && tail[at..at + 2] == PercentClose
    requires line == pre + "[" + tail && k == |pre| + 1 + at
    ensures |pre| < k && k + 2 <= |line| && line[|pre|] == '[' && line[..|pre|] == pre
    ensures line[k..k + 2] == PercentClose && line[|pre| + 1..] == tail
  {
    assert line[..|pre|] == pre;
    assert line[|pre| + 1..] == tail;
    assert line[k..k + 2] == line[|pre| + 1..][at..at + 2];
  }

  /** The first "[" at `i` and a "%]" after it at `k`: `int` is given the text after
      that "[" up to the next "[" and then up to the first "%]". */
  lemma BracketAt(line: string, i: nat, k: nat, pre: string, tail: string)
    requires i < k && k + 2 <= |line| && line[i] == '[' && line[..i] == pre && '[' !in pre
    requires line[k..k + 2] == PercentClose && line[i + 1..] == tail
    ensures ProgressValue(line) == ParseInt(BeforeFirst(Split(tail, '[')[0], PercentClose))
  {
    ContainsAt(line, PercentClose, k);
    assert line[k] == PercentClose[0];
    SplitOnce(line, '[', i);
  }

  /** A bracketed text before the value hides it: in "[a] [ 10%]" the text given to
      `int` is "a] ", so the line reports nothing. */
  lemma ProgressHidden(pre: string, q: string, m: string, e: string)
    requires '[' !in pre && '[' !in q && '%' !in q && ']' in q
    ensures ProgressValue(pre + "[" + (q + "[" + m + PercentClose + e)) == None
  {
    ProgressFirstBracket(pre, q, m, e);
    BeforeNoPercent(q);
    var i :| 0 <= i < |q| && q[i] == ']';
    StripKeeps(q, i);
    NotDigits(Strip(q));
  }

  /** Text holding "]" is no integer. */
  lemma NotDigits(t: string)
    requires ']' in t
    ensures ParseStripped(t) == None
  {
    var body := if t[0] == '-' || t[0] == '+' then t[1..] else t;
    var i :| 0 <= i < |t| && t[i] == ']';
    if i > 0 || body == t {
      assert body[if body == t then i else i - 1] == ']';
    }
  }

  /** Text without "%" has no "%]" to cut at. */
  lemma BeforeNoPercent(s: string)
    requires '%' !in s
    ensures BeforeFirst(s, PercentClose) == s
  {
    assert PercentClose[0] == '%';
  }

  // ---------------------------------------------------------------- the output loop

  /** The non-blank lines the stdout loop went through, stripped, and whether it ended
      on a cancel. */
  datatype Seen = Seen(lines: seq<string>, cancelled: bool)

  /** `for line in self.process.stdout` from the line read at poll `k`: the cancel
      callback is asked for each line first, and a cancel ends the loop; a line blank
      after stripping is skipped; any other is passed on stripped. */
  function StreamF(lines: seq<string>, cancel: Schedule, k: nat): (r: Seen)
    decreases |lines|
  {
    if lines == [] then Seen([], false)
    else if CancelledAt(cancel, k) then Seen([], true)
    else
      var rest := StreamF(lines[1..], cancel, k + 1);
      Seen(Kept(lines[0]) + rest.lines, rest.cancelled)
  }

  /** A line as it is passed on: stripped, or dropped when that leaves it blank. */
  function Kept(line: string): seq<string> {
    var t := Strip(line);
    if t == [] then [] else [t]
  }

  /** What the log callback receives from the loop: the lines, then the cancel message. */
  function LogOf(s: Seen): seq<string> {
    s.lines + (if s.cancelled then [CancelMessage] else [])
  }

  /** The lines that are not blank, stripped. */
  function NonBlank(lines: seq<string>): (r: seq<string>)
    ensures forall i :: 0 <= i < |r| ==> r[i] != []
  {
    if lines == [] then []
    else Kept(lines[0]) + NonBlank(lines[1..])
  }

  /** The progress value a line reports, if any. */
  function ProgressOf(t: string): seq<int> {
    match ProgressValue(t) {
      case Some(n) => [n]
      case None => []
    }
  }

  /** The progress values the given lines report, in order. */
  function Progresses(lines: seq<string>): seq<int> {
    if lines == [] then [] else ProgressOf(lines[0]) + Progresses(lines[1..])
  }

  lemma {:induction false} ProgressesAppend(a: seq<string>, t: string)
    ensures Progresses(a + [t]) == Progresses(a) + ProgressOf(t)
    decreases |a|
  {
    if a == [] {
      assert a + [t] == [t];
    } else {
      assert (a + [t])[0] == a[0] && (a + [t])[1..] == a[1..] + [t];
      ProgressesAppend(a[1..], t);
    }
  }

  /** The number of lines the loop reads before the cancel is seen. */
  function ReadBefore(n: nat, cancel: Schedule, k: nat): (r: nat)
    ensures r <= n
  {
    if cancel.Some? && cancel.value < k + n then (if cancel.value <= k then 0 else cancel.value - k) else n
  }

  /** The loop is cancelled exactly when the flag is raised at or before the poll of
      the last line, and what it passes on is every non-blank line read before that. */
  lemma StreamSound(lines: seq<string>, cancel: Schedule, k: nat)
    ensures var r := StreamF(lines, cancel, k);
      && (r.cancelled <==> lines != [] && cancel.Some? && cancel.value < k + |lines|)
      && r.lines == NonBlank(lines[..ReadBefore(|lines|, cancel, k)])
  {
    StreamCancelled(lines, cancel, k);
    StreamShown(lines, cancel, k);
  }

  lemma {:induction false} StreamCancelled(lines: seq<string>, cancel: Schedule, k: nat)
    ensures StreamF(lines, cancel, k).cancelled <==> lines != [] && cancel.Some? && cancel.value < k + |lines|
    decreases |lines|
  {
    if lines != [] && !CancelledAt(cancel, k) {
      StreamCancelled(lines[1..], cancel, k + 1);
    }
  }

  lemma {:induction false} StreamShown(lines: seq<string>, cancel: Schedule, k: nat)
    ensures StreamF(lines, cancel, k).lines == NonBlank(lines[..ReadBefore(|lines|, cancel, k)])
    decreases |lines|
  {
    if lines == [] {
      ShownEmpty(lines, cancel, k);
    } else if CancelledAt(cancel, k) {
      ShownCancelled(lines, cancel, k);
    } else {
      var tail := lines[1..];
      StreamShown(tail, cancel, k + 1);
      var m := ReadBefore(|tail|, cancel, k + 1);
      ReadBeforeStep(|lines|, cancel, k);
      ShownCons(lines, cancel, k, m);
    }
  }

  /** No line: nothing is passed on. */
  lemma ShownEmpty(lines: seq<string>, cancel: Schedule, k: nat)
    requires lines == []
    ensures StreamF(lines, cancel, k).lines == NonBlank(lines[..ReadBefore(|lines|, cancel, k)])
  {
    assert lines[..ReadBefore(|lines|, cancel, k)] == [];
  }

  /** A cancel seen before the first line: nothing is read, nothing passed on. */
  lemma ShownCancelled(lines: seq<string>, cancel: Schedule, k: nat)
    requires lines != [] && CancelledAt(cancel, k)
    ensures StreamF(lines, cancel, k).lines == NonBlank(lines[..ReadBefore(|lines|, cancel, k)])
  {
    assert ReadBefore(|lines|, cancel, k) == 0;
    assert lines[..0] == [];
  }

  /** One read line: the stream passes it on, stripped unless blank, before the rest. */
  lemma ShownCons(lines: seq<string>, cancel: Schedule, k: nat, m: nat)
    requires lines != [] && !CancelledAt(cancel, k) && m < |lines|
    requires ReadBefore(|lines|, cancel, k) == m + 1
    requires StreamF(lines[1..], cancel, k + 1).lines == NonBlank(lines[1..][..m])
    ensures StreamF(lines, cancel, k).lines == NonBlank(lines[..ReadBefore(|lines|, cancel, k)])
  {
    NonBlankCons(lines, m + 1);
  }

  lemma ReadBeforeStep(n: nat, cancel: Schedule, k: nat)
    requires n > 0 && !CancelledAt(cancel, k)
    ensures ReadBefore(n, cancel, k) == ReadBefore(n - 1, cancel, k + 1) + 1
  {
  }

  lemma NonBlankCons(lines: seq<string>, m: nat)
    requires 0 < m <= |lines|
    ensures NonBlank(lines[..m]) == Kept(lines[0]) + NonBlank(lines[1..][..m - 1])
  {
    var pre := lines[..m];
    assert pre[0] == lines[0] && pre[1..] == lines[1..][..m - 1];
  }

  // ---------------------------------------------------------------- run_extraction

  /** `is_installed()`: the venv's python and the script both exist. */
  predicate Installed(fs: FileSystem, python: string, script: string) {
    python in fs && script in fs
  }

  /** What `run_extraction` returns, what it hands to the log and progress callbacks,
      the command it starts, and whether it called `stop`. */
  datatype Run360 = Run360(ok: bool, log: seq<string>, progress: seq<int>, launched: Option<seq<string>>, stopped: bool)

  /** `run_extraction(input_path, output_dir, params, ...)` for a process that prints
      `lines` and exits with `exit`; `logging` and `reporting` say whether the log and
      progress callbacks were given. */
  function RunF(fs: FileSystem, python: string, script: string, input: string, output: string, p: Params,
                logging: bool, reporting: bool, cancel: Schedule, lines: seq<string>, exit: int): (r: Run360)
    ensures !Installed(fs, python, script) ==>
      !r.ok && r.launched.None? && !r.stopped && r.log == (if logging then [NotInstalledMessage] else [])
    ensures Installed(fs, python, script) ==> r.launched == Some(ExtractorArgv(python, script, input, output, p))
  {
    if !Installed(fs, python, script) then
      Run360(false, if logging then [NotInstalledMessage] else [], [], None, false)
    else
      var argv := ExtractorArgv(python, script, input, output, p);
      var seen := StreamF(lines, cancel, 0);
      Run360(!seen.cancelled && exit == 0,
             if logging then [CommandPrefix + Join(argv, " ")] + LogOf(seen) else [],
             if reporting then Progresses(seen.lines) else [],
             Some(argv), seen.cancelled)
  }

  /** The run succeeds exactly when the extractor is installed, no cancel is seen while
      its output is read, and it exits with 0; `stop` is called exactly on a cancel. */
  lemma RunVerdict(fs: FileSystem, python: string, script: string, input: string, output: string, p: Params,
                   logging: bool, reporting: bool, cancel: Schedule, lines: seq<string>, exit: int)
    ensures var r := RunF(fs, python, script, input, output, p, logging, reporting, cancel, lines, exit);
      && (r.ok <==> Installed(fs, python, script) && !(cancel.Some? && cancel.value < |lines|) && exit == 0)
      && (r.stopped <==> Installed(fs, python, script) && cancel.Some? && cancel.value < |lines|)
  {
    StreamSound(lines, cancel, 0);
  }

  /** Without a cancel, the log callback gets the command and then every non-blank line
      stripped, and the progress callback every value those lines report. */
  lemma RunLogsAll(fs: FileSystem, python: string, script: string, input: string, output: string, p: Params,
                   cancel: Schedule, lines: seq<string>, exit: int)
    requires Installed(fs, python, script) && (cancel.None? || cancel.value >= |lines|)
    ensures var r := RunF(fs, python, script, input, output, p, true, true, cancel, lines, exit);
      && r.log == [CommandPrefix + Join(ExtractorArgv(python, script, input, output, p), " ")] + NonBlank(lines)
      && r.progress == Progresses(NonBlank(lines))
  {
    RunInstalled(fs, python, script, input, output, p, cancel, lines, exit);
    StreamWhole(lines, cancel);
    LogsWhole(RunF(fs, python, script, input, output, p, true, true, cancel, lines, exit),
              StreamF(lines, cancel, 0), NonBlank(lines),
              CommandPrefix + Join(ExtractorArgv(python, script, input, output, p), " "));
  }

  /** Without a cancel while the output lasts, the loop passes on every non-blank line. */
  lemma StreamWhole(lines: seq<string>, cancel: Schedule)
    requires cancel.None? || cancel.value >= |lines|
    ensures StreamF(lines, cancel, 0) == Seen(NonBlank(lines), false)
  {
    StreamSound(lines, cancel, 0);
    assert lines[..|lines|] == lines;
  }

  lemma LogsWhole(r: Run360, seen: Seen, shown: seq<string>, command: string)
    requires r.log == [command] + LogOf(seen) && r.progress == Progresses(seen.lines)
    requires seen == Seen(shown, false)
    ensures r.log == [command] + shown && r.progress == Progresses(shown)
  {
    assert shown + [] == shown;
  }

  /** An installed run logs the command and then what the loop passes on. */
  lemma RunInstalled(fs: FileSystem, python: string, script: string, input: string, output: string, p: Params,
                     cancel: Schedule, lines: seq<string>, exit: int)
    requires Installed(fs, python, script)
    ensures var r := RunF(fs, python, script, input, output, p, true, true, cancel, lines, exit);
      var seen := StreamF(lines, cancel, 0);
      && r.log == [CommandPrefix + Join(ExtractorArgv(python, script, input, output, p), " ")] + LogOf(seen)
      && r.progress == Progresses(seen.lines)
  {
  }

  /** Module-level loop of `run_extraction`: reads the output from poll 0, handing lines
      to the log callback and progress values to the progress callback as it goes. */
  method ReadOutput(lines: seq<string>, cancel: Schedule, logging: bool, reporting: bool)
    returns (log: seq<string>, progress: seq<int>, cancelled: bool)
    ensures var seen := StreamF(lines, cancel, 0);
      && log == (if logging then LogOf(seen) else [])
      && progress == (if reporting then Progresses(seen.lines) else [])
      && cancelled == seen.cancelled
  {
    log, progress, cancelled := [], [], false;
    ghost var goal := StreamF(lines, cancel, 0);
    ghost var shown: seq<string> := [];
    var i := 0;
    assert lines[0..] == lines;
    assert [] + goal.lines == goal.lines;
    while i < |lines|
      invariant i <= |lines|
      invariant Continues(goal, shown, StreamF(lines[i..], cancel, i))
      invariant log == (if logging then shown else [])
      invariant progress == (if reporting then Progresses(shown) else [])
      decreases |lines| - i
    {
      StreamAt(lines, i, cancel);
      if CancelledAt(cancel, i) {
        ContinuesStops(goal, shown);
        if logging {
          log := log + [CancelMessage];
        }
        cancelled := true;
        return;
      }
      var t := Strip(lines[i]);
      ContinuesStep(goal, shown, Kept(lines[i]), StreamF(lines[i + 1..], cancel, i + 1));
      if t == [] {
        assert shown + Kept(lines[i]) == shown;
      } else {
        if logging {
          log := log + [t];
        }
        if reporting {
          progress := Report(progress, shown, t);
        }
        shown := shown + [t];
      }
      i := i + 1;
    }
    assert lines[i..] == [];
    ContinuesEnds(goal, shown);
  }

  /** The progress callback's part of a passed-on line: the value it reports, if any. */
  method Report(progress: seq<int>, ghost shown: seq<string>, t: string) returns (r: seq<int>)
    requires progress == Progresses(shown)
    ensures r == Progresses(shown + [t])
  {
    ProgressesAppend(shown, t);
    r := progress + ProgressOf(t);
  }

  /** The loop has passed `shown` on, and `rest` is what the unread lines give. */
  predicate Continues(goal: Seen, shown: seq<string>, rest: Seen) {
    goal == Seen(shown + rest.lines, rest.cancelled)
  }

  /** A cancel ends the stream with what was passed on so far. */
  lemma ContinuesStops(goal: Seen, shown: seq<string>)
    requires Continues(goal, shown, Seen([], true))
    ensures goal == Seen(shown, true)
  {
    assert shown + [] == shown;
  }

  /** All lines read: what was passed on is the whole stream. */
  lemma ContinuesEnds(goal: Seen, shown: seq<string>)
    requires Continues(goal, shown, Seen([], false))
    ensures goal == Seen(shown, false)
  {
    assert shown + [] == shown;
  }

  /** A line passed on (`kept`) joins what was passed on, and the loop goes on. */
  lemma ContinuesStep(goal: Seen, shown: seq<string>, kept: seq<string>, rest: Seen)
    requires Continues(goal, shown, Seen(kept + rest.lines, rest.cancelled))
    ensures Continues(goal, shown + kept, rest)
  {
    assert shown + (kept + rest.lines) == (shown + kept) + rest.lines;
  }

  /** One turn of the loop, from line `i` read at poll `i`. */
  lemma StreamAt(lines: seq<string>, i: nat, cancel: Schedule)
    requires i < |lines|
    ensures var rest := StreamF(lines[i + 1..], cancel, i + 1);
      StreamF(lines[i..], cancel, i)
        == if CancelledAt(cancel, i) then Seen([], true) else Seen(Kept(lines[i]) + rest.lines, rest.cancelled)
  {
    assert lines[i..][0] == lines[i] && lines[i..][1..] == lines[i + 1..];
  }

  class Extractor360Engine {
    /** The venv's python and the extractor's `src/main.py`. */
    const venvPython: string
    const scriptPath: string
    /** `stop_requested`, which `stop()` sets. */
    var stopRequested: bool
    /** The command of the process last started. */
    var process: Option<seq<string>>

    constructor (python: string, script: string)
      ensures venvPython == python && scriptPath == script && !stopRequested && process == None
    {
      venvPython := python;
      scriptPath := script;
      stopRequested := false;
      process := None;
    }

    /** `stop()` (inherited from the base engine): only the flag is set. */
    method Stop()
      modifies this
      ensures stopRequested && process == old(process)
    {
      stopRequested := true;
    }

    /** `run_extraction(...)`: `log` and `progress` are what the callbacks receive. */
    method RunExtraction(fs: FileSystem, input: string, output: string, p: Params, logging: bool, reporting: bool,
                         cancel: Schedule, lines: seq<string>, exit: int)
      returns (ok: bool, log: seq<string>, progress: seq<int>)
      modifies this
      ensures var r := RunF(fs, venvPython, scriptPath, input, output, p, logging, reporting, cancel, lines, exit);
        && ok == r.ok && log == r.log && progress == r.progress
        && process == (if r.launched.Some? then r.launched else old(process))
        && stopRequested == (old(stopRequested) || r.stopped)
    {
      if !(venvPython in fs && scriptPath in fs) {
        log := if logging then [NotInstalledMessage] else [];
        return false, log, [];
      }
      var cmd := ExtractorArgv(venvPython, scriptPath, input, output, p);
      log := if logging then [CommandPrefix + Join(cmd, " ")] else [];
      process := Some(cmd);
      var streamed, cancelled;
      streamed, progress, cancelled := ReadOutput(lines, cancel, logging, reporting);
      log := log + streamed;
      assert logging ==> log == [CommandPrefix + Join(cmd, " ")] + LogOf(StreamF(lines, cancel, 0));
      if cancelled {
        Stop();
        return false, log, progress;
      }
      ok := exit == 0;
    }
  }
}
