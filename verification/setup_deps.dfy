/** The decision logic of the dependency installer (app/scripts/setup_dependencies.py):
    how `relax_requirements` loosens the torch pins, how a version is read from
    `git ls-remote` and kept in a version file, what `manage_engine` decides from the
    environment, the install state, the versions and the user's answer, and how `main`
    reads a feature flag from the configuration. Running git, pip, cargo and the other
    installers is not modelled; their results are given. */
module SetupDependencies {
  import opened Text

  // ---------------------------------------------------------------- relax_requirements

  const Pin := "=="
  const AtLeast := ">="
  const TorchName := "torch"
  const VisionName := "torchvision"

  /** A line whose stripped form starts with `torch==` or `torchvision==`. */
  predicate Pinned(line: string) {
    StartsWith(Strip(line), TorchName + Pin) || StartsWith(Strip(line), VisionName + Pin)
  }

  /** The line `relax_requirements` writes for `line`: every "==" of a pinned line
      becomes ">=", any other line is copied as it is. */
  function RelaxLine(line: string): (r: string)
    ensures |r| == |line|
    ensures !Pinned(line) ==> r == line
  {
    if Pinned(line) then
      ReplaceSameLength(line, Pin, AtLeast);
      ReplaceAll(line, Pin, AtLeast)
    else line
  }

  lemma {:induction false} ReplaceSameLength(s: string, pat: string, repl: string)
    requires pat != [] && |repl| == |pat|
    ensures |ReplaceAll(s, pat, repl)| == |s|
    decreases |s|
  {
    if |s| < |pat| {
    } else if s[..|pat|] == pat {
      ReplaceSameLength(s[|pat|..], pat, repl);
    } else {
      ReplaceSameLength(s[1..], pat, repl);
    }
  }

  /** `relax_requirements(src, dst)`, given the lines read from `src` (each with its line
      end): the lines written to `dst`, one for each line read, in order. */
  method RelaxRequirements(src: seq<string>) returns (written: seq<string>)
    ensures |written| == |src|
    ensures forall i :: 0 <= i < |src| ==> written[i] == RelaxLine(src[i])
  {
    written := [];
    for i := 0 to |src|
      invariant |written| == i
      invariant forall j :: 0 <= j < i ==> written[j] == RelaxLine(src[j])
    {
      var line := RelaxOne(src[i]);
      RelaxStep(written, line, src, i);
      written := written + [line];
    }
  }

  /** One turn of the loop keeps the lines already written and adds the next one. */
  lemma RelaxStep(written: seq<string>, line: string, src: seq<string>, i: nat)
    requires i < |src| && |written| == i && line == RelaxLine(src[i])
    requires forall j :: 0 <= j < i ==> written[j] == RelaxLine(src[j])
    ensures forall j :: 0 <= j < i + 1 ==> (written + [line])[j] == RelaxLine(src[j])
  {
    forall j | 0 <= j < i + 1 ensures (written + [line])[j] == RelaxLine(src[j]) {
      if j < i {
        assert (written + [line])[j] == written[j];
      }
    }
  }

  /** The body of the loop: one line rewritten, or copied. */
  method RelaxOne(line: string) returns (out: string)
    ensures out == RelaxLine(line)
  {
    out := line;
    if Pinned(line) {
      out := ReplaceAll(line, Pin, AtLeast);
    }
  }

  /** Rewriting only turns some "=" into ">": every other character stays where it was. */
  lemma {:induction false} RelaxOnlyLoosens(s: string)
    ensures var r := ReplaceAll(s, Pin, AtLeast);
      |r| == |s| && forall i :: 0 <= i < |s| ==> r[i] == s[i] || (s[i] == '=' && r[i] == '>')
    decreases |s|
  {
    ReplaceSameLength(s, Pin, AtLeast);
    var r := ReplaceAll(s, Pin, AtLeast);
    if |s| < 2 {
    } else if s[..2] == Pin {
      var rest := s[2..];
      RelaxOnlyLoosens(rest);
      assert r == AtLeast + ReplaceAll(rest, Pin, AtLeast);
      forall i | 0 <= i < |s| ensures r[i] == s[i] || (s[i] == '=' && r[i] == '>') {
        if i >= 2 {
          assert r[i] == ReplaceAll(rest, Pin, AtLeast)[i - 2] && s[i] == rest[i - 2];
        } else {
          assert s[i] == Pin[i];
        }
      }
    } else {
      var rest := s[1..];
      RelaxOnlyLoosens(rest);
      assert r == [s[0]] + ReplaceAll(rest, Pin, AtLeast);
      forall i | 0 <= i < |s| ensures r[i] == s[i] || (s[i] == '=' && r[i] == '>') {
        if i >= 1 {
          assert r[i] == ReplaceAll(rest, Pin, AtLeast)[i - 1] && s[i] == rest[i - 1];
        }
      }
    }
  }

  /** Text free of "=" in front is copied before the first "==" is looked for. */
  lemma {:induction false} ReplaceAfter(a: string, s: string)
    requires '=' !in a
    ensures ReplaceAll(a + s, Pin, AtLeast) == a + ReplaceAll(s, Pin, AtLeast)
    decreases |a|
  {
    if a != [] {
      var t := a + s;
      assert t[0] == a[0] && t[0] != '=';
      assert t[1..] == a[1..] + s;
      if |t| >= 2 {
        assert t[..2] != Pin;
      }
      ReplaceAfter(a[1..], s);
      assert [a[0]] + a[1..] == a;
    } else {
      assert a + s == s;
    }
  }

  /** A pinned name comes out with ">=" in place of its "==". */
  lemma RelaxedStart(line: string, name: string)
    requires name != [] && '=' !in name && !IsSpace(name[0])
    requires StartsWith(Strip(line), name + Pin)
    ensures StartsWith(LStrip(ReplaceAll(line, Pin, AtLeast)), name + AtLeast)
  {
    assert StartsWith(LStrip(line), name + Pin);
    RelaxedFrom(line, name);
  }

  lemma {:induction false} RelaxedFrom(line: string, name: string)
    requires name != [] && '=' !in name && !IsSpace(name[0])
    requires StartsWith(LStrip(line), name + Pin)
    ensures StartsWith(LStrip(ReplaceAll(line, Pin, AtLeast)), name + AtLeast)
    decreases |line|
  {
    if IsSpace(line[0]) {
      assert line[0] != '=';
      assert line[..2] != Pin;
      var r := ReplaceAll(line[1..], Pin, AtLeast);
      assert ReplaceAll(line, Pin, AtLeast) == [line[0]] + r;
      assert ([line[0]] + r)[1..] == r;
      RelaxedFrom(line[1..], name);
    } else {
      var after := line[|name|..];
      assert line == name + after;
      ReplaceAfter(name, after);
      assert after[..2] == Pin;
      var r := ReplaceAll(after[2..], Pin, AtLeast);
      assert ReplaceAll(after, Pin, AtLeast) == AtLeast + r;
      var out := name + (AtLeast + r);
      assert out[..|name| + 2] == name + AtLeast;
      assert out[0] == name[0];
    }
  }

  /** Relaxing is idempotent: a rewritten line starts with ">=" after its name, so it is
      no longer pinned and a second pass copies it. */
  lemma RelaxIdempotent(line: string)
    ensures RelaxLine(RelaxLine(line)) == RelaxLine(line)
  {
    if Pinned(line) {
      var name := if StartsWith(Strip(line), TorchName + Pin) then TorchName else VisionName;
      RelaxedStart(line, name);
      var r := ReplaceAll(line, Pin, AtLeast);
      StripKeepsPrefix(r, name + AtLeast);
      LoosenedNotPinned(Strip(r), name);
      assert RelaxLine(line) == r;
    }
  }

  /** Text starting with `torch>=` or `torchvision>=` is not pinned. */
  lemma LoosenedNotPinned(s: string, name: string)
    requires name == TorchName || name == VisionName
    requires StartsWith(s, name + AtLeast)
    ensures !StartsWith(s, TorchName + Pin) && !StartsWith(s, VisionName + Pin)
  {
    assert s[|name|] == '>';
    assert (TorchName + Pin)[5] == '=';
    assert (VisionName + Pin)[5] == 'v' && (VisionName + Pin)[11] == '=';
    if name == VisionName {
      assert s[5] == 'v';
    }
  }

  // ---------------------------------------------------------------- versions

  /** `get_remote_version(repo_url)`, given the output of `git ls-remote <url> HEAD`, or
      None when the command fails: the first word of the stripped output, or None when
      there is no output. */
  function RemoteVersion(output: Option<string>): (r: Option<string>)
    ensures r.Some? ==> IsWord(r.value)
    ensures output.None? ==> r.None?
    ensures output.Some? ==> (r.None? <==> Strip(output.value) == [])
  {
    if output.None? then None
    else
      var t := Strip(output.value);
      if t == [] then None
      else
        StripShape(output.value);
        assert LStrip(t) == t;
        Some(Words(t)[0])
  }

  /** On any output of the command: nothing exactly when the output is all whitespace,
      and otherwise the first of its whitespace-separated words (`output.split()[0]`). */
  lemma RemoteVersionFirstWord(output: string)
    ensures RemoteVersion(Some(output)).None? <==> forall i :: 0 <= i < |output| ==> IsSpace(output[i])
    ensures RemoteVersion(Some(output)).Some? ==>
      Words(output) != [] && RemoteVersion(Some(output)).value == Words(output)[0]
  {
    StripShape(output);
    if Strip(output) != [] {
      StrippedFirstWord(output);
    }
  }

  /** Output that is not all whitespace: the first word of the stripped text is the
      first word of the text. */
  lemma StrippedFirstWord(output: string)
    requires Strip(output) != []
    ensures Words(output) != [] && RemoteVersion(Some(output)) == Some(Words(output)[0])
  {
    var l := LStrip(output);
    var t := RStrip(l);
    assert t == Strip(output);
    WordsHead(output, l);
    assert LStrip(t) == t;
    WordsHead(t, t);
    RStripRemovesSpace(l);
    WordLengthPrefix(l, |t|);
    TakeOfTake(l, t, WordLength(l));
  }

  lemma TakeOfTake(l: string, t: string, n: nat)
    requires |t| <= |l| && t == l[..|t|] && n <= |t|
    ensures t[..n] == l[..n]
  {
  }

  /** The first word of `s` is the run of non-whitespace that starts its left-stripped text. */
  lemma WordsHead(s: string, l: string)
    requires l == LStrip(s) && l != []
    ensures Words(s) != [] && Words(s)[0] == l[..WordLength(l)]
  {
  }

  /** Trailing whitespace after the last word does not change the first word's length. */
  lemma WordLengthPrefix(l: string, m: nat)
    requires 0 < m <= |l| && l[..m] == RStrip(l) && !IsSpace(l[m - 1])
    requires forall i :: m <= i < |l| ==> IsSpace(l[i])
    ensures WordLength(l[..m]) == WordLength(l)
  {
    var n := WordLength(l);
    assert n <= m by {
      if m < |l| {
        assert IsSpace(l[m]);
      }
    }
    WordLengthUnique(l[..m], n);
  }

  /** The length of the first word is fixed by where the first whitespace sits. */
  lemma WordLengthUnique(t: string, k: nat)
    requires k <= |t| && (forall j :: 0 <= j < k ==> !IsSpace(t[j])) && (k < |t| ==> IsSpace(t[k]))
    ensures WordLength(t) == k
  {
  }

  /** A commit hash followed by whitespace and anything else reads back as that hash:
      `git ls-remote` prints "<hash>\tHEAD". */
  lemma RemoteVersionOfHash(hash: string, tail: string)
    requires IsWord(hash) && (tail == [] || IsSpace(tail[0]))
    ensures RemoteVersion(Some(hash + tail)) == Some(hash)
  {
    var s := hash + tail;
    assert s[0] == hash[0];
    assert LStrip(s) == s;
    var t := RStrip(s);
    RStripRemovesSpace(s);
    assert !IsSpace(s[|hash| - 1]);
    assert |t| >= |hash|;
    assert t == hash + t[|hash|..];
    var tail' := t[|hash|..];
    assert tail' == [] || tail'[0] == tail[0];
    WordLengthOf(hash, tail');
    assert LStrip(t) == t;
    assert t[..|hash|] == hash;
  }

  lemma {:induction false} WordLengthOf(w: string, tail: string)
    requires forall j :: 0 <= j < |w| ==> !IsSpace(w[j])
    requires tail == [] || IsSpace(tail[0])
    ensures WordLength(w + tail) == |w|
    decreases |w|
  {
    if w != [] {
      assert (w + tail)[1..] == w[1..] + tail;
      WordLengthOf(w[1..], tail);
    } else {
      assert w + tail == tail;
    }
  }

  /** The text files the installer reads and writes, by path. */
  type Files = map<string, string>

  /** Python truthiness of an optional text. */
  predicate Given(v: Option<string>) {
    v.Some? && v.value != []
  }

  /** `get_local_version(version_file)`: the stripped contents, or None when the file
      does not exist. */
  function LocalVersion(files: Files, path: string): (r: Option<string>)
    ensures r.Some? <==> path in files
  {
    if path in files then Some(Strip(files[path])) else None
  }

  /** `save_local_version(version_file, version)`: a missing or empty version writes
      nothing; so does a write that fails (`writable` false), which is only reported. */
  function SaveLocalVersion(files: Files, path: string, version: Option<string>, writable: bool): (r: Files)
    ensures !Given(version) || !writable ==> r == files
    ensures Given(version) && writable ==> path in r && r[path] == version.value
    ensures forall q :: q != path && q in files ==> q in r && r[q] == files[q]
  {
    if Given(version) && writable then files[path := version.value] else files
  }

  /** A remote version that was saved reads back unchanged, so the next run finds the
      engine up to date. */
  lemma SavedVersionReadsBack(output: Option<string>, files: Files, path: string)
    requires RemoteVersion(output).Some?
    ensures var v := RemoteVersion(output);
      LocalVersion(SaveLocalVersion(files, path, v, true), path) == v
  {
    SavedWordReadsBack(files, path, RemoteVersion(output).value);
  }

  /** A word written to the version file is read back unchanged. */
  lemma SavedWordReadsBack(files: Files, path: string, v: string)
    requires IsWord(v)
    ensures LocalVersion(SaveLocalVersion(files, path, Some(v), true), path) == Some(v)
  {
    EdgesStrip(v);
  }

  // ---------------------------------------------------------------- manage_engine

  /** The skip variable of `manage_engine`: none was named, or its value in the
      environment (None when it is not set, which counts as 0). */
  datatype SkipSetting = NoSkipKey | SkipKey(value: Option<string>)

  /** The question `manage_engine` asks on a terminal. */
  datatype Prompt = NoPrompt | InstallPrompt | UpdatePrompt

  /** What `manage_engine` does: returns at once on the skip variable; raises
      `ValueError` when that variable is not an integer; or, after fetching the remote
      and local versions, asks (or not), calls `install_func` with the remote version
      (or not) and runs `custom_check` (or not). */
  datatype Managed =
    | SkippedByEnv
    | BadSkipValue
    | Ran(prompt: Prompt, install: Option<Option<string>>, customCheck: bool)

  /** `int(os.environ.get(key, 0))`: None when `int` raises. */
  function SkipValue(value: Option<string>): Option<int> {
    if value.None? then Some(0) else ParseInt(value.value)
  }

  /** An update is known to exist: both versions are known, non-empty, and differ. */
  predicate UpdateAvailable(remote: Option<string>, local: Option<string>) {
    Given(remote) && Given(local) && remote.value != local.value
  }

  /** `manage_engine(...)`: `installed` is whether `check_path` exists, `tty` whether
      stdin is a terminal, `answer` the line the user types, `hasCustom` whether a
      `custom_check` was given. */
  function ManageEngine(skip: SkipSetting, installed: bool, remote: Option<string>, local: Option<string>,
                        tty: bool, answer: string, hasCustom: bool): (r: Managed)
    ensures r.Ran? && r.install.Some? ==> r.install.value == remote
  {
    if skip.SkipKey? && SkipValue(skip.value).None? then BadSkipValue
    else if skip.SkipKey? && SkipValue(skip.value) == Some(1) then SkippedByEnv
    else
      var prompt :=
        if !installed then (if tty then InstallPrompt else NoPrompt)
        else if UpdateAvailable(remote, local) then (if tty then UpdatePrompt else NoPrompt)
        else NoPrompt;
      var yes := prompt != NoPrompt && Lower(Strip(answer)) == "y";
      Ran(prompt, if yes then Some(remote) else None, !yes && installed && hasCustom)
  }

  /** A skip variable set to 1 returns before any version is fetched or anything is
      installed, whatever the rest of the machine looks like. */
  lemma SkipComesFirst(value: string, installed: bool, remote: Option<string>, local: Option<string>,
                       tty: bool, answer: string, hasCustom: bool)
    requires ParseInt(value) == Some(1)
    ensures ManageEngine(SkipKey(Some(value)), installed, remote, local, tty, answer, hasCustom) == SkippedByEnv
  {
  }

  /** An update is offered exactly when the engine is installed, both versions are
      known and differ, and there is a terminal to ask on. */
  lemma UpdateOfferedIff(skip: SkipSetting, installed: bool, remote: Option<string>, local: Option<string>,
                         tty: bool, answer: string, hasCustom: bool)
    ensures var r := ManageEngine(skip, installed, remote, local, tty, answer, hasCustom);
      (r.Ran? && r.prompt == UpdatePrompt) <==> r.Ran? && installed && UpdateAvailable(remote, local) && tty
  {
  }

  /** An install happens only after a "y" to a question that was asked, and gets the
      remote version; without a terminal nothing is installed. */
  lemma InstallOnlyOnYes(skip: SkipSetting, installed: bool, remote: Option<string>, local: Option<string>,
                         tty: bool, answer: string, hasCustom: bool)
    ensures var r := ManageEngine(skip, installed, remote, local, tty, answer, hasCustom);
      r.Ran? && r.install.Some? <==>
        && r.Ran? && tty && Lower(Strip(answer)) == "y"
        && (!installed || UpdateAvailable(remote, local))
  {
  }

  /** `custom_check` runs exactly when the engine is installed, nothing was installed,
      and a check was given. */
  lemma CustomCheckIff(skip: SkipSetting, installed: bool, remote: Option<string>, local: Option<string>,
                       tty: bool, answer: string, hasCustom: bool)
    ensures var r := ManageEngine(skip, installed, remote, local, tty, answer, hasCustom);
      r.Ran? ==> (r.customCheck <==> installed && r.install.None? && hasCustom)
  {
  }

  /** After an install that saved the remote version, the same remote version offers
      no update. */
  lemma NoUpdateAfterSave(skip: SkipSetting, output: Option<string>, files: Files, path: string,
                          tty: bool, answer: string, hasCustom: bool)
    requires RemoteVersion(output).Some?
    ensures var remote := RemoteVersion(output);
      var local := LocalVersion(SaveLocalVersion(files, path, remote, true), path);
      var r := ManageEngine(skip, true, remote, local, tty, answer, hasCustom);
      r.Ran? ==> r.prompt == NoPrompt && r.install.None? && r.customCheck == hasCustom
  {
    SavedVersionReadsBack(output, files, path);
  }

  // ---------------------------------------------------------------- feature flags

  /** A JSON value as `json.load` gives it (numbers as integers). */
  datatype Value =
    | Null
    | Bool(b: bool)
    | Int(i: int)
    | Str(s: string)
    | List(items: seq<Value>)
    | Dict(entries: map<string, Value>)

  /** Python truthiness. */
  predicate Truthy(v: Value) {
    match v
    case Null => false
    case Bool(b) => b
    case Int(i) => i != 0
    case Str(s) => s != []
    case List(items) => items != []
    case Dict(entries) => entries != map[]
  }

  /** `load_config()`: the parsed `config.json`, or `{}` when it is missing or does not
      parse (`parsed` None). */
  function LoadConfig(exists_: bool, parsed: Option<Value>): (r: Value)
    ensures !exists_ || parsed.None? ==> r == Dict(map[])
    ensures exists_ && parsed.Some? ==> r == parsed.value
  {
    if exists_ && parsed.Some? then parsed.value else Dict(map[])
  }

  /** `d.get(key, default)` */
  function Get(d: map<string, Value>, key: string, default: Value): Value {
    if key in d then d[key] else default
  }

  const EnabledKey := "enabled"
  const SharpSection := "sharp_params"
  const SharpFlat := "sharp_enabled"
  const UpscaleSection := "upscale_params"
  const UpscaleFlat := "upscale_enabled"

  /** `config.get(section, {}).get("enabled", False)`, falling back to
      `config.get(flat, False)` when that is falsy; None where `.get` is called on
      something that is not a dictionary and raises. */
  function FeatureEnabled(config: Value, section: string, flat: string): Option<bool> {
    if !config.Dict? then None
    else
      var sec := Get(config.entries, section, Dict(map[]));
      if !sec.Dict? then None
      else if Truthy(Get(sec.entries, EnabledKey, Bool(false))) then Some(true)
      else Some(Truthy(Get(config.entries, flat, Bool(false))))
  }

  /** The flag is on exactly when the nested "enabled" or the flat key is truthy, and
      the lookup fails exactly when the configuration or its section is not a
      dictionary. */
  lemma FeatureEnabledIff(config: Value, section: string, flat: string)
    ensures FeatureEnabled(config, section, flat).None? <==>
      !config.Dict? || (section in config.entries && !config.entries[section].Dict?)
    ensures FeatureEnabled(config, section, flat) == Some(true) <==>
      && config.Dict?
      && (section in config.entries ==> config.entries[section].Dict?)
      && (|| (section in config.entries && EnabledKey in config.entries[section].entries
              && Truthy(config.entries[section].entries[EnabledKey]))
          || (flat in config.entries && Truthy(config.entries[flat])))
  {
  }

  /** With no configuration file, Sharp and the upscaler are both off. */
  lemma NoConfigAllOff(parsed: Option<Value>)
    ensures FeatureEnabled(LoadConfig(false, parsed), SharpSection, SharpFlat) == Some(false)
    ensures FeatureEnabled(LoadConfig(false, parsed), UpscaleSection, UpscaleFlat) == Some(false)
  {
  }
}
