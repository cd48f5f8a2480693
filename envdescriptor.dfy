/** The environment descriptor (`.yml` file) side of `CondaManager` in both
    revisions of condamanager.py: the validation done by the `env_file`
    setter, the scan of the file's lines for the environment's name and
    version, and the integer check of the `env_version` setter. */
module EnvDescriptor {
  import opened Text
  import opened Py

  // ---------------------------------------------------------------------
  // Validation of the `env_file` argument

  /** A non-None value handed to the `env_file` setter: a string path, or an
      object of any other type. */
  datatype EnvFileArg = NotAString | PathArg(path: string)

  /** The four reasons for refusing the argument, in the order they are
      tested. Each one raises `ValueError`. */
  datatype EnvFileError = NotAStringError | NotYml | DoesNotExist | NotAFile

  /** The outcome of validation. `Crashed` is an exception other than the
      intended `ValueError` escaping from the setter. */
  datatype Validation = Accepted(path: string) | Rejected(error: EnvFileError) | Crashed

  /** The message of the `ValueError` raised for each refusal. */
  function ErrorMessage(e: EnvFileError): (m: string)
    ensures m == "Miniconda env file name not a string" <==> e == NotAStringError
  {
    if e == NotAStringError then "Miniconda env file name not a string"
    else "Miniconda env file not valid"
  }

  /** Position of each test in the sequence of tests. */
  function Rank(e: EnvFileError): nat {
    match e
    case NotAStringError => 0
    case NotYml => 1
    case DoesNotExist => 2
    case NotAFile => 3
  }

  /** The test guarding against `e` succeeds on `arg`. */
  predicate Passes(e: EnvFileError, arg: EnvFileArg, fs: FileSystem) {
    match e
    case NotAStringError => arg.PathArg?
    case NotYml => arg.PathArg? && EndsWith(arg.path, ".yml")
    case DoesNotExist => arg.PathArg? && Exists(fs, arg.path)
    case NotAFile => arg.PathArg? && IsFile(fs, arg.path)
  }

  /** The setter as intended (ToL_install/condamanager.py:264-302, with the
      four tests short-circuiting): accept when all four tests pass,
      otherwise raise for the first one that fails. */
  function Validate(arg: EnvFileArg, fs: FileSystem): Validation {
    var validFile := arg.PathArg? && EndsWith(arg.path, ".yml") && Exists(fs, arg.path) && IsFile(fs, arg.path);
    if validFile then Accepted(arg.path)
    else if !arg.PathArg? then Rejected(NotAStringError)
    else if !EndsWith(arg.path, ".yml") then Rejected(NotYml)
    else if !Exists(fs, arg.path) then Rejected(DoesNotExist)
    else Rejected(NotAFile)
  }

  /** A path is accepted exactly when it is a string naming an existing
      regular file with the `.yml` extension. */
  lemma ValidateAccepts(arg: EnvFileArg, fs: FileSystem, p: string)
    ensures Validate(arg, fs) == Accepted(p) <==>
      arg == PathArg(p) && EndsWith(p, ".yml") && p in fs && fs[p] == RegularFile
  {
  }

  /** Validation never crashes, and a refusal names the FIRST test that
      fails: that test fails and every earlier one passes. */
  lemma ValidateReportsFirstFailure(arg: EnvFileArg, fs: FileSystem, e: EnvFileError)
    ensures Validate(arg, fs) != Crashed
    ensures Validate(arg, fs) == Rejected(e) <==>
      !Passes(e, arg, fs) && forall d: EnvFileError :: Rank(d) < Rank(e) ==> Passes(d, arg, fs)
  {
    if !Passes(e, arg, fs) && forall d: EnvFileError :: Rank(d) < Rank(e) ==> Passes(d, arg, fs) {
      assert Rank(NotAStringError) == 0 && Rank(NotYml) == 1 && Rank(DoesNotExist) == 2;
    }
    if Validate(arg, fs) == Rejected(e) {
      forall d: EnvFileError | Rank(d) < Rank(e) ensures Passes(d, arg, fs) {
        match d
        case NotAStringError =>
        case NotYml =>
        case DoesNotExist =>
        case NotAFile =>
      }
    }
  }

  /** The setter as written: the tuple handed to `all` is built before
      `all` runs, so `env_file.endswith('.yml')` is evaluated even when
      `env_file` is not a string, and raises `AttributeError` before the
      `isinstance` branch can raise its `ValueError`. */
  function ValidateAsWritten(arg: EnvFileArg, fs: FileSystem): Validation {
    match arg
    case NotAString => Crashed
    case PathArg(p) => Validate(arg, fs)
  }

  /** The discrepancy: as written, the "not a string" refusal is
      unreachable; a non-string argument crashes instead. On string
      arguments both versions agree. */
  lemma AsWrittenNeverReportsNotAString(arg: EnvFileArg, fs: FileSystem)
    ensures ValidateAsWritten(arg, fs) != Rejected(NotAStringError)
    ensures ValidateAsWritten(NotAString, fs) == Crashed
    ensures Validate(NotAString, fs) == Rejected(NotAStringError)
    ensures arg.PathArg? ==> ValidateAsWritten(arg, fs) == Validate(arg, fs)
  {
  }

  // ---------------------------------------------------------------------
  // The integer gate of the `env_version` setter

  predicate IsDigit(c: char) {
    '0' <= c <= '9'
  }

  /** Digits, with single underscores allowed between two digits. */
  predicate DigitGroups(s: string)
    decreases |s|
  {
    |s| > 0 && IsDigit(s[0]) &&
    (|s| == 1 || if s[1] == '_' then DigitGroups(s[2..]) else DigitGroups(s[1..]))
  }

  /** `int(s)` succeeds on the string `s`: an optional sign followed by
      digit groups. (`int` also skips surrounding whitespace, which never
      occurs here: every string it is given is a token of `split()`.) */
  predicate ParsesAsInt(s: string) {
    |s| > 0 && if s[0] == '+' || s[0] == '-' then DigitGroups(s[1..]) else DigitGroups(s)
  }

  /** What the `env_version` setter does with its argument. */
  datatype VersionOutcome = VersionNone | VersionKept(text: string) | VersionAbort

  /** `int(None)` raises `TypeError`, which stores None; a string `int`
      refuses raises `ValueError`, which aborts; anything else is stored
      unchanged, as the string it was. */
  function VersionGate(v: Option<string>): (r: VersionOutcome)
    ensures v.None? <==> r == VersionNone
    ensures r.VersionKept? ==> v == Some(r.text) && ParsesAsInt(r.text)
    ensures r == VersionAbort <==> v.Some? && !ParsesAsInt(v.value)
  {
    match v
    case None => VersionNone
    case Some(s) => if ParsesAsInt(s) then VersionKept(s) else VersionAbort
  }

  lemma ParsesAsIntExamples()
    ensures ParsesAsInt("3") && ParsesAsInt("-12") && ParsesAsInt("1_000")
    ensures !ParsesAsInt("") && !ParsesAsInt("1.0") && !ParsesAsInt("1__0") && !ParsesAsInt("_1")
    ensures !ParsesAsInt("version:")
  {
    assert "-12"[1..] == "12";
    assert !IsDigit("1.0"[1]);
    assert "1__0"[1..3] == "__";
  }

  // ---------------------------------------------------------------------
  // Scanning the lines of the descriptor

  /** A raw line (its end-of-line included) that names the environment. */
  predicate IsNameLine(line: string) {
    StartsWith(line, "name:")
  }

  /** A raw line that gives the environment's version. */
  predicate IsVersionLine(line: string) {
    StartsWith(line, "# version:")
  }

  /** `line.strip().split()[-1]`: the last whitespace-separated token. */
  function LastToken(line: string): (t: string)
    requires |line| > 0 && !IsSpace(line[0])
    ensures IsWord(t)
    ensures |Split(line)| > 0 && t == Split(line)[|Split(line)| - 1]
  {
    SplitIgnoresStrip(line);
    SplitNonEmpty(line);
    var words := Split(Strip(line));
    words[|words| - 1]
  }

  /** The fields the scan updates, or the abort of the `env_version` setter,
      which ends the program. */
  datatype ScanState = Scanning(name: Attr<string>, version: Attr<string>) | ScanAborted

  /** One iteration of the loop over the file's lines. */
  function Step(st: ScanState, line: string): ScanState {
    if st.ScanAborted? then st
    else if IsNameLine(line) then st.(name := Assigned(LastToken(line)))
    else if IsVersionLine(line) then
      var gate := VersionGate(Some(LastToken(line)));
      if gate.VersionKept? then st.(version := Assigned(gate.text)) else ScanAborted
    else st
  }

  /** The state after the loop has consumed `lines`, starting from `init`. */
  function ScanAll(init: ScanState, lines: seq<string>): ScanState
    decreases |lines|
  {
    if lines == [] then init
    else Step(ScanAll(init, lines[..|lines| - 1]), lines[|lines| - 1])
  }

  /** The two kinds of line are exclusive, so the `elif` never hides a line. */
  lemma LineKindsExclusive(line: string)
    ensures !(IsNameLine(line) && IsVersionLine(line))
  {
    if IsNameLine(line) {
      assert line[0] == line[..5][0] == 'n';
      assert |line| < 10 || line[..10][0] != '#';
    }
  }

  lemma {:induction false} AbortIsFinal(lines: seq<string>)
    ensures ScanAll(ScanAborted, lines) == ScanAborted
    decreases |lines|
  {
    if lines != [] {
      AbortIsFinal(lines[..|lines| - 1]);
    }
  }

  /** When the scan finishes, the name is the last token of the LAST name
      line. */
  lemma {:induction false} NameLastWins(init: ScanState, lines: seq<string>, j: nat)
    requires ScanAll(init, lines).Scanning?
    requires j < |lines| && IsNameLine(lines[j])
    requires forall k :: j < k < |lines| ==> !IsNameLine(lines[k])
    ensures ScanAll(init, lines).name == Assigned(LastToken(lines[j]))
    decreases |lines|
  {
    var prefix := lines[..|lines| - 1];
    assert ScanAll(init, prefix).Scanning?;
    if j < |lines| - 1 {
      NameLastWins(init, prefix, j);
    }
  }

  /** Without any name line the name keeps its value from before the scan. */
  lemma {:induction false} NameUntouched(init: ScanState, lines: seq<string>)
    requires ScanAll(init, lines).Scanning?
    requires forall k :: 0 <= k < |lines| ==> !IsNameLine(lines[k])
    ensures init.Scanning? && ScanAll(init, lines).name == init.name
    decreases |lines|
  {
    if lines != [] {
      var prefix := lines[..|lines| - 1];
      assert ScanAll(init, prefix).Scanning?;
      NameUntouched(init, prefix);
    }
  }

  /** When the scan finishes, the version is the last token of the LAST
      version line. */
  lemma {:induction false} VersionLastWins(init: ScanState, lines: seq<string>, j: nat)
    requires ScanAll(init, lines).Scanning?
    requires j < |lines| && IsVersionLine(lines[j])
    requires forall k :: j < k < |lines| ==> !IsVersionLine(lines[k])
    ensures ScanAll(init, lines).version == Assigned(LastToken(lines[j]))
    decreases |lines|
  {
    var prefix := lines[..|lines| - 1];
    assert ScanAll(init, prefix).Scanning?;
    LineKindsExclusive(lines[j]);
    if j < |lines| - 1 {
      VersionLastWins(init, prefix, j);
    }
  }

  /** Without any version line the version keeps its value from before. */
  lemma {:induction false} VersionUntouched(init: ScanState, lines: seq<string>)
    requires ScanAll(init, lines).Scanning?
    requires forall k :: 0 <= k < |lines| ==> !IsVersionLine(lines[k])
    ensures init.Scanning? && ScanAll(init, lines).version == init.version
    decreases |lines|
  {
    if lines != [] {
      var prefix := lines[..|lines| - 1];
      assert ScanAll(init, prefix).Scanning?;
      VersionUntouched(init, prefix);
    }
  }

  /** A version line whose token `int` refuses: reaching it aborts. */
  predicate BadVersionLine(line: string) {
    IsVersionLine(line) && !ParsesAsInt(LastToken(line))
  }

  /** One step from a live state aborts exactly on a bad version line. */
  lemma StepAbortsIff(st: ScanState, line: string)
    requires st.Scanning?
    ensures Step(st, line).ScanAborted? <==> BadVersionLine(line)
  {
    LineKindsExclusive(line);
  }

  /** A bad version line anywhere in the file aborts the scan: an abort
      ends the program, so nothing after it can undo it. */
  lemma BadLineAborts(init: ScanState, lines: seq<string>, k: nat)
    requires k < |lines| && BadVersionLine(lines[k])
    ensures ScanAll(init, lines).ScanAborted?
  {
    BadLastLine(init, lines[..k], lines[k]);
    assert lines[..k] + [lines[k]] == lines[..k + 1];
    AbortExtends(init, lines, k + 1);
  }

  /** Once a prefix of the lines has aborted the scan, so have all lines. */
  lemma {:induction false} AbortExtends(init: ScanState, lines: seq<string>, i: nat)
    requires i <= |lines| && ScanAll(init, lines[..i]).ScanAborted?
    ensures ScanAll(init, lines).ScanAborted?
    decreases |lines|
  {
    if i == |lines| {
      assert lines[..i] == lines;
    } else {
      var n := |lines| - 1;
      assert lines[..n][..i] == lines[..i];
      AbortExtends(init, lines[..n], i);
    }
  }

  /** A bad version line after any prefix aborts the scan. */
  lemma BadLastLine(init: ScanState, prefix: seq<string>, line: string)
    requires BadVersionLine(line)
    ensures ScanAll(init, prefix + [line]).ScanAborted?
  {
    assert (prefix + [line])[..|prefix|] == prefix;
    var before := ScanAll(init, prefix);
    if before.Scanning? {
      StepAbortsIff(before, line);
    }
  }

  /** Conversely, a scan started from a live state aborts only at a bad
      version line, whose index the lemma returns. */
  lemma {:induction false} AbortHasBadLine(init: ScanState, lines: seq<string>) returns (k: nat)
    requires init.Scanning? && ScanAll(init, lines).ScanAborted?
    ensures k < |lines| && BadVersionLine(lines[k])
    decreases |lines|
  {
    var n := |lines| - 1;
    var before := ScanAll(init, lines[..n]);
    assert ScanAll(init, lines) == Step(before, lines[n]);
    if before.ScanAborted? {
      k := AbortHasBadLine(init, lines[..n]);
      assert lines[..n][k] == lines[k];
    } else {
      StepAbortsIff(before, lines[n]);
      k := n;
    }
  }

  /** A version the scan stores always parses as an integer, provided the
      one it started from did. */
  lemma {:induction false} ScanKeepsVersionParsable(init: ScanState, lines: seq<string>)
    requires init.Scanning? && (init.version.Assigned? ==> ParsesAsInt(init.version.value))
    ensures var st := ScanAll(init, lines);
      st.Scanning? && st.version.Assigned? ==> ParsesAsInt(st.version.value)
    decreases |lines|
  {
    if lines != [] {
      ScanKeepsVersionParsable(init, lines[..|lines| - 1]);
    }
  }

  /** The last token of a line that ends with a space, a word and an
      optional end-of-line is that word, whatever precedes it. */
  lemma LastTokenOfLine(front: string, w: string, eol: string)
    requires |front| > 0 && !IsSpace(front[0])
    requires IsWord(w) && (eol == "" || eol == "\n")
    ensures LastToken(front + " " + w + eol) == w
  {
    var line := front + " " + w + eol;
    assert line == front + [' '] + (w + eol);
    SplitAtSpace(front, ' ', w + eol);
    SplitWordPrefix(w, eol);
    if eol == "\n" {
      assert eol[1..] == [];
    }
    assert w + eol == front[..0] + w + eol;
  }

  /** `name: <env>` is a name line whose token is `<env>`. */
  lemma NameLineToken(env: string)
    requires IsWord(env)
    ensures IsNameLine("name:" + " " + env + "\n") && !IsVersionLine("name:" + " " + env + "\n")
    ensures LastToken("name:" + " " + env + "\n") == env
  {
    var l := "name:" + " " + env + "\n";
    assert l[..5] == "name:";
    LineKindsExclusive(l);
    LastTokenOfLine("name:", env, "\n");
  }

  /** `# version: <v>` is a version line whose token is `<v>`. */
  lemma VersionLineToken(v: string)
    requires IsWord(v)
    ensures IsVersionLine("# version:" + " " + v + "\n") && !IsNameLine("# version:" + " " + v + "\n")
    ensures LastToken("# version:" + " " + v + "\n") == v
  {
    var l := "# version:" + " " + v + "\n";
    assert l[..10] == "# version:";
    LineKindsExclusive(l);
    LastTokenOfLine("# version:", v, "\n");
  }

  /** The line `name: <env>` sets the name to `<env>`, and the line
      `# version: <v>` sets the version to `<v>` when `int` accepts it;
      any other line in between changes nothing. */
  lemma ScanExample(env: string, other: string, v: string)
    requires IsWord(env) && IsWord(v) && ParsesAsInt(v)
    requires !IsNameLine(other) && !IsVersionLine(other)
    ensures ScanAll(Scanning(Unassigned, Unassigned), ["name:" + " " + env + "\n", other, "# version:" + " " + v + "\n"])
      == Scanning(Assigned(env), Assigned(v))
  {
    var l0, l2 := "name:" + " " + env + "\n", "# version:" + " " + v + "\n";
    var lines := [l0, other, l2];
    NameLineToken(env);
    VersionLineToken(v);
    var s0 := Step(Scanning(Unassigned, Unassigned), l0);
    assert s0 == Scanning(Assigned(env), Unassigned);
    var s1 := Step(s0, other);
    assert s1 == s0;
    assert Step(s1, l2) == Scanning(Assigned(env), Assigned(v));
    assert lines[..2][..1] == [l0];
    assert lines[..2] == [l0, other];
    assert [l0][..0] == [];
    assert ScanAll(Scanning(Unassigned, Unassigned), [l0]) == s0;
    assert ScanAll(Scanning(Unassigned, Unassigned), [l0, other]) == s1;
  }
}
