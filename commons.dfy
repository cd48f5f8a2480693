/** The helpers of install/commons.py that sit under the installer's I/O:
    the disk-space decision, the byte to GiB conversion, the tokenising and
    outcomes of `sub_call`, the text of the installation registry, and the
    launcher scripts written by `create_executables`. */
module Commons {
  import opened Text
  import opened Paths
  import opened Py

  // ---------------------------------------------------------------------
  // Disk space

  /** A Python `float`: IEEE-754 values seen as exact reals, infinities and
      NaN. (Rounding is not modelled.) */
  datatype Float = Finite(value: real) | Infinite(negative: bool) | NaN

  /** The value handed to `check_available_disk_space` as `min_space`. */
  datatype MinSpace = NoneValue | IntValue(i: int) | FloatValue(f: Float) | Text(s: string)

  /** Python truthiness of `min_space`. */
  predicate Truthy(m: MinSpace) {
    match m
    case NoneValue => false
    case IntValue(i) => i != 0
    case FloatValue(f) => f != Finite(0.0)
    case Text(s) => s != ""
  }

  /** The outcome of `float(x)`: a value, `ValueError` (caught: the check
      aborts) or `TypeError` (not caught). */
  datatype Conversion = Converted(f: Float) | ValueErr | TypeErr

  /** `float(x)`; `parseFloat` stands for Python's parsing of a string, which
      gives None where `float` raises `ValueError`. */
  function ToFloat(m: MinSpace, parseFloat: string -> Option<Float>): (c: Conversion)
    ensures c == TypeErr <==> m == NoneValue
    ensures m.Text? ==> (c == ValueErr <==> parseFloat(m.s) == None)
    ensures !m.Text? ==> c != ValueErr
  {
    match m
    case NoneValue => TypeErr
    case IntValue(i) => Converted(Finite(i as real))
    case FloatValue(f) => Converted(f)
    case Text(s) => if parseFloat(s).Some? then Converted(parseFloat(s).value) else ValueErr
  }

  /** `min_space = float(min_space or default)`. */
  function Threshold(m: MinSpace, default: MinSpace, parseFloat: string -> Option<Float>): Conversion {
    ToFloat(if Truthy(m) then m else default, parseFloat)
  }

  /** `free > t` in Python, an `int` against a `float`. */
  predicate Greater(free: nat, t: Float) {
    match t
    case Finite(x) => free as real > x
    case Infinite(negative) => negative
    case NaN => false
  }

  /** `free <= t`. */
  predicate AtMost(free: nat, t: Float) {
    match t
    case Finite(x) => free as real <= x
    case Infinite(negative) => !negative
    case NaN => false
  }

  datatype DiskOutcome = Enough | NotEnough | DiskAborted | DiskRaised

  /** `check_available_disk_space(min_space)` once the free space in GB is
      known: True, False, the abort of the unexpected branch or of a
      `ValueError`, or an uncaught `TypeError`. */
  function CheckDiskSpace(m: MinSpace, default: MinSpace, parseFloat: string -> Option<Float>, freeGB: nat): DiskOutcome {
    match Threshold(m, default, parseFloat)
    case TypeErr => DiskRaised
    case ValueErr => DiskAborted
    case Converted(t) =>
      if Greater(freeGB, t) then Enough
      else if AtMost(freeGB, t) then NotEnough
      else DiskAborted
  }

  /** The decision on a finite threshold is the strict comparison: equality
      counts as not enough. */
  lemma DiskSpaceFinite(m: MinSpace, default: MinSpace, parseFloat: string -> Option<Float>, freeGB: nat, x: real)
    requires Threshold(m, default, parseFloat) == Converted(Finite(x))
    ensures CheckDiskSpace(m, default, parseFloat, freeGB) == Enough <==> freeGB as real > x
    ensures CheckDiskSpace(m, default, parseFloat, freeGB) == NotEnough <==> freeGB as real <= x
    ensures freeGB as real == x ==> CheckDiskSpace(m, default, parseFloat, freeGB) == NotEnough
  {
  }

  /** The check aborts exactly when the threshold is a string `float`
      refuses, or is NaN (the branch for the unexpected); it raises only
      when both the argument and the default are None. */
  lemma DiskSpaceAborts(m: MinSpace, default: MinSpace, parseFloat: string -> Option<Float>, freeGB: nat)
    ensures CheckDiskSpace(m, default, parseFloat, freeGB) == DiskAborted <==>
      Threshold(m, default, parseFloat) in {ValueErr, Converted(NaN)}
    ensures CheckDiskSpace(m, default, parseFloat, freeGB) == DiskRaised <==>
      !Truthy(m) && default == NoneValue
  {
    var t := Threshold(m, default, parseFloat);
    if t.Converted? && t.f.Finite? {
      assert Greater(freeGB, t.f) || AtMost(freeGB, t.f);
    }
  }

  /** A falsy argument (None, 0, 0.0 or the empty string) is replaced by the
      default; a truthy one is used as it is. */
  lemma FalsyMeansDefault(m: MinSpace, default: MinSpace, parseFloat: string -> Option<Float>, freeGB: nat)
    ensures !Truthy(m) ==> CheckDiskSpace(m, default, parseFloat, freeGB) == CheckDiskSpace(default, default, parseFloat, freeGB)
    ensures Truthy(m) ==> CheckDiskSpace(m, default, parseFloat, freeGB) == CheckDiskSpace(m, m, parseFloat, freeGB)
    ensures !Truthy(m) && m != NoneValue ==> m in {IntValue(0), FloatValue(Finite(0.0)), Text("")}
  {
  }

  /** Bytes in one GiB: 1024 * 1024 * 1024. */
  const GiB: nat := 1073741824

  /** `int(n / 1024 / 1024 / 1024)`: the whole number of GiB in `n` bytes,
      truncated (exact while `n` is below 2^53). */
  function BytesToGiB(n: nat): (g: nat)
    ensures g * GiB <= n < (g + 1) * GiB
  {
    n / GiB
  }

  /** The free space in GB: the Windows query's free byte count, or the
      product of `f_frsize` and `f_bavail` from `statvfs` elsewhere. Unlike
      the resolver, the platform is compared with `==`. */
  function FreeSpaceGB(platform: string, windowsFreeBytes: nat, frsize: nat, bavail: nat): (g: nat)
    ensures platform == "Windows" ==> g * GiB <= windowsFreeBytes < (g + 1) * GiB
    ensures platform != "Windows" ==> g * GiB <= frsize * bavail < (g + 1) * GiB
  {
    if platform == "Windows" then BytesToGiB(windowsFreeBytes) else BytesToGiB(frsize * bavail)
  }

  // ---------------------------------------------------------------------
  // sub_call

  /** What running a command gives: the executable was not found, the
      process could not be started for another reason (an `OSError` such as
      a missing execute permission or an unknown executable format), or the
      process exited with a status and printed an output. */
  datatype ProcessResult = ExecutableNotFound | StartFailed | Exited(status: int, output: string)

  /** The outcome of `sub_call`: the captured output, the abort that follows
      a missing executable or a non-zero exit, or an uncaught exception:
      `IndexError` for an empty argument list, or the `OSError` of a process
      that could not be started. */
  datatype CallOutcome = Output(output: string) | CallAborted | CallRaised | CallStartFailed

  /** `exec_line.strip().split()`. */
  function Tokenize(line: string): (args: seq<string>)
    ensures forall i :: 0 <= i < |args| ==> IsWord(args[i])
    ensures args == Split(line)
  {
    SplitIgnoresStrip(line);
    Split(Strip(line))
  }

  /** `sub_call(exec_line)`, with `run` standing for the operating system. */
  function SubCall(line: string, run: seq<string> -> ProcessResult): (r: CallOutcome)
    ensures r.Output? ==> Tokenize(line) != [] && run(Tokenize(line)) == Exited(0, r.output)
    ensures r == CallAborted <==>
      Tokenize(line) != [] &&
      (run(Tokenize(line)) == ExecutableNotFound || (run(Tokenize(line)).Exited? && run(Tokenize(line)).status != 0))
    ensures r == CallRaised <==> Tokenize(line) == []
    ensures r == CallStartFailed <==> Tokenize(line) != [] && run(Tokenize(line)) == StartFailed
  {
    var args := Tokenize(line);
    if args == [] then CallRaised
    else match run(args)
      case ExecutableNotFound => CallAborted
      case StartFailed => CallStartFailed
      case Exited(status, output) => if status != 0 then CallAborted else Output(output)
  }

  /** Round trip with the command builders: a line built with `" ".join`
      from whitespace-free, non-empty parts is tokenised back into exactly
      those parts. */
  lemma TokenizeJoin(parts: seq<string>)
    requires forall i :: 0 <= i < |parts| ==> IsWord(parts[i])
    ensures Tokenize(JoinWith(" ", parts)) == parts
  {
    SplitJoin(parts);
  }

  // ---------------------------------------------------------------------
  // The installation registry

  /** The values `register_install_vars` receives. Optional arguments are
      None or the text `str.format` gives for them. */
  datatype Registry = Registry(
    installDir: string,
    pythonExec: Option<string>,
    installOption: Option<string>,
    condaExec: Option<string>,
    envFile: Option<string>,
    envName: Option<string>,
    envVersion: Option<string>,
    minicondaFolder: Option<string>)

  /** Python truthiness of an optional string. */
  predicate Given(v: Option<string>) {
    v.Some? && v.value != ""
  }

  /** `"Path(r'{}')".format(v) if v else None`, as formatted. */
  function PathLiteral(v: Option<string>): string {
    if Given(v) then "Path(r'" + v.value + "')" else "None"
  }

  /** `"'{}'".format(v) if v else None`, as formatted. */
  function QuotedName(v: Option<string>): string {
    if Given(v) then "'" + v.value + "'" else "None"
  }

  /** A value formatted as it is. */
  function Raw(v: Option<string>): string {
    if v.Some? then v.value else "None"
  }

  /** Reading a path field back from the registry. */
  function ParsePathLiteral(text: string): Option<string> {
    if |text| >= 9 && text[..7] == "Path(r'" && text[|text| - 2..] == "')" then Some(text[7..|text| - 2])
    else None
  }

  /** Reading back gives the path when one was given, and None for None and
      for the empty string. */
  lemma PathLiteralRoundTrip(v: Option<string>)
    ensures ParsePathLiteral(PathLiteral(v)) == if Given(v) then v else None
  {
    if Given(v) {
      var t := PathLiteral(v);
      assert t == "Path(r'" + v.value + "')";
      assert t[..7] == "Path(r'";
      assert t[|t| - 2..] == "')";
      assert t[7..|t| - 2] == v.value;
    } else {
      assert "None"[..4] != "Path(r'";
    }
  }

  /** The registry file: `installation_vars.py` inside the install folder. */
  function RegistryFile(sep: Separator, installDir: string): (p: string)
    ensures Under(sep, installDir, p)
    ensures EndsWith(p, "installation_vars.py")
  {
    JoinUnder(sep, installDir, "installation_vars.py");
    Join(sep, installDir, "installation_vars.py")
  }

  /** The variables assigned in the registry, in the order they appear. */
  const RegistryNames: seq<string> := [
    "install_option", "install_dir", "conda_exec", "python_exec",
    "miniconda_folder", "installed_env_file", "installed_env_name", "installed_env_version"]

  /** The value written for each variable, in the same order. */
  function RegistryValues(r: Registry): (vs: seq<string>)
    ensures |vs| == |RegistryNames|
  {
    [Raw(r.installOption), "Path(r'" + r.installDir + "')", PathLiteral(r.condaExec),
     PathLiteral(r.pythonExec), PathLiteral(r.minicondaFolder), PathLiteral(r.envFile),
     QuotedName(r.envName), Raw(r.envVersion)]
  }

  /** The comment block that opens the file; `mailist` is the project's
      contact address. The text starts with an empty line. */
  function RegistryHeader(mailist: string): (h: seq<string>)
    ensures |h| == 11
  {
    // The longer lines are written in pieces of at most twenty characters
    // so that the verifier can inspect them character by character.
    ["",
     "# This file " + "registers the " + "installation variables",
     "# which are required" + " for debugging" + " and updating purposes.",
     "#",
     "# Please do not " + "delete it from the " + "installation folder",
     "#",
     "# For additional " + "help, please " + "write us at:",
     "# " + mailist,
     "",
     "from pathlib import Path",
     ""]
  }

  /** The lines of the registry: the header, one assignment per variable,
      and the empty remainder after the final newline. */
  function RegistryLines(mailist: string, r: Registry): (ls: seq<string>)
    ensures |ls| == 20
  {
    var vs := RegistryValues(r);
    RegistryHeader(mailist) +
    seq(8, i requires 0 <= i < 8 => RegistryNames[i] + " = " + vs[i]) +
    [""]
  }

  /** The text `register_install_vars` writes. */
  function RegistryText(mailist: string, r: Registry): string {
    JoinWith("\n", RegistryLines(mailist, r))
  }

  /** No line break in `s`. */
  predicate SingleLine(s: string) {
    '\n' !in s
  }

  predicate SingleLineValues(r: Registry) {
    SingleLine(r.installDir) &&
    (r.pythonExec.Some? ==> SingleLine(r.pythonExec.value)) &&
    (r.installOption.Some? ==> SingleLine(r.installOption.value)) &&
    (r.condaExec.Some? ==> SingleLine(r.condaExec.value)) &&
    (r.envFile.Some? ==> SingleLine(r.envFile.value)) &&
    (r.envName.Some? ==> SingleLine(r.envName.value)) &&
    (r.envVersion.Some? ==> SingleLine(r.envVersion.value)) &&
    (r.minicondaFolder.Some? ==> SingleLine(r.minicondaFolder.value))
  }

  /** Text made of printable ASCII characters holds no line break. */
  lemma VisibleLine(s: string)
    requires forall i :: 0 <= i < |s| ==> ' ' <= s[i] <= '~'
    ensures SingleLine(s)
  {
  }

  /** Joining single lines without a separator gives a single line. */
  lemma SingleLineConcat(a: string, b: string)
    requires SingleLine(a) && SingleLine(b)
    ensures SingleLine(a + b)
  {
    assert forall i :: 0 <= i < |a + b| ==> (a + b)[i] == if i < |a| then a[i] else b[i - |a|];
  }

  /** Every header line is a single line when the address is. */
  lemma HeaderSingleLines(mailist: string)
    requires SingleLine(mailist)
    ensures forall i :: 0 <= i < 11 ==> SingleLine(RegistryHeader(mailist)[i])
  {
    var h := RegistryHeader(mailist);
    HeaderIntroSingle();
    HeaderHelpSingle();
    VisibleLine("# ");
    SingleLineConcat("# ", mailist);
    assert SingleLine("from pathlib import Path") && SingleLine("#") && SingleLine("");
    forall i | 0 <= i < 11 ensures SingleLine(h[i]) {
      if i == 7 {
        assert h[7] == "# " + mailist;
      }
    }
  }

  /** The two lines that say what the file is for are single lines. */
  lemma HeaderIntroSingle()
    ensures SingleLine("# This file " + "registers the " + "installation variables")
    ensures SingleLine("# which are required" + " for debugging" + " and updating purposes.")
  {
    SingleLines3("# This file ", "registers the ", "installation variables");
    SingleLines3("# which are required", " for debugging", " and updating purposes.");
  }

  /** The two lines that ask to keep the file and give the contact are single
      lines. */
  lemma HeaderHelpSingle()
    ensures SingleLine("# Please do not " + "delete it from the " + "installation folder")
    ensures SingleLine("# For additional " + "help, please " + "write us at:")
  {
    SingleLines3("# Please do not ", "delete it from the ", "installation folder");
    SingleLines3("# For additional ", "help, please ", "write us at:");
  }

  /** Three pieces of printable text form a single line. */
  lemma SingleLines3(a: string, b: string, c: string)
    requires forall i :: 0 <= i < |a| ==> ' ' <= a[i] <= '~'
    requires forall i :: 0 <= i < |b| ==> ' ' <= b[i] <= '~'
    requires forall i :: 0 <= i < |c| ==> ' ' <= c[i] <= '~'
    ensures SingleLine(a + b + c)
  {
    VisibleLine(a);
    VisibleLine(b);
    VisibleLine(c);
    SingleLineConcat(a, b);
    SingleLineConcat(a + b, c);
  }

  /** The variable names are single lines. */
  lemma NamesSingleLines()
    ensures forall k :: 0 <= k < 8 ==> SingleLine(RegistryNames[k])
  {
    forall k | 0 <= k < 8 ensures SingleLine(RegistryNames[k]) {
      VisibleLine(RegistryNames[k]);
    }
  }

  /** A path written as `Path(r'...')` is a single line when the path is. */
  lemma PathSingleLine(path: string)
    requires SingleLine(path)
    ensures SingleLine("Path(r'" + path + "')")
  {
    VisibleLine("Path(r'");
    VisibleLine("')");
    SingleLineConcat("Path(r'", path);
    SingleLineConcat("Path(r'" + path, "')");
  }

  /** Each way of writing an optional value keeps it on one line. */
  lemma FormattedSingleLine(v: Option<string>)
    requires v.Some? ==> SingleLine(v.value)
    ensures SingleLine(PathLiteral(v)) && SingleLine(QuotedName(v)) && SingleLine(Raw(v))
  {
    VisibleLine("None");
    if v.Some? {
      PathSingleLine(v.value);
      VisibleLine("'");
      SingleLineConcat("'", v.value);
      SingleLineConcat("'" + v.value, "'");
    }
  }

  /** The written values are single lines when the values given are. */
  lemma ValuesSingleLines(r: Registry)
    requires SingleLineValues(r)
    ensures forall k :: 0 <= k < 8 ==> SingleLine(RegistryValues(r)[k])
  {
    PathSingleLine(r.installDir);
    FormattedSingleLine(r.installOption);
    FormattedSingleLine(r.condaExec);
    FormattedSingleLine(r.pythonExec);
    FormattedSingleLine(r.minicondaFolder);
    FormattedSingleLine(r.envFile);
    FormattedSingleLine(r.envName);
    FormattedSingleLine(r.envVersion);
    var vs := RegistryValues(r);
    forall k | 0 <= k < 8 ensures SingleLine(vs[k]) {
      if k == 1 {
        assert vs[k] == "Path(r'" + r.installDir + "')";
      }
    }
  }

  /** Each variable's assignment line is a single line when the values are. */
  lemma AssignmentsSingleLines(r: Registry)
    requires SingleLineValues(r)
    ensures forall k :: 0 <= k < 8 ==> SingleLine(RegistryNames[k] + " = " + RegistryValues(r)[k])
  {
    var vs := RegistryValues(r);
    NamesSingleLines();
    ValuesSingleLines(r);
    VisibleLine(" = ");
    forall k | 0 <= k < 8 ensures SingleLine(RegistryNames[k] + " = " + vs[k]) {
      SingleLineConcat(RegistryNames[k], " = ");
      SingleLineConcat(RegistryNames[k] + " = ", vs[k]);
    }
  }

  /** Every line of the registry is a single line. */
  lemma RegistryLinesSingle(mailist: string, r: Registry)
    requires SingleLine(mailist) && SingleLineValues(r)
    ensures var ls := RegistryLines(mailist, r);
      forall i :: 0 <= i < |ls| ==> '\n' !in ls[i]
  {
    var ls := RegistryLines(mailist, r);
    var vs := RegistryValues(r);
    HeaderSingleLines(mailist);
    AssignmentsSingleLines(r);
    forall i | 0 <= i < |ls| ensures '\n' !in ls[i] {
      if i < 11 {
        assert ls[i] == RegistryHeader(mailist)[i];
      } else if i < 19 {
        assert ls[i] == RegistryNames[i - 11] + " = " + vs[i - 11];
      }
    }
  }

  /** When no value spans several lines, reading the file back line by line
      gives the header, then `<variable> = <value>` for each variable in
      the fixed order, then nothing. */
  lemma RegistryTextLines(mailist: string, r: Registry)
    requires SingleLine(mailist) && SingleLineValues(r)
    ensures SplitOn('\n', RegistryText(mailist, r)) == RegistryLines(mailist, r)
    ensures forall k :: 0 <= k < 8 ==>
      SplitOn('\n', RegistryText(mailist, r))[11 + k] == RegistryNames[k] + " = " + RegistryValues(r)[k]
  {
    RegistryLinesSingle(mailist, r);
    SplitOnJoin('\n', RegistryLines(mailist, r));
  }

  // ---------------------------------------------------------------------
  // Launcher scripts

  /** `stat.S_IRWXU | stat.S_IRWXG | stat.S_IRWXO`: read, write and execute
      for owner, group and others, that is 0o777. */
  function Mode777(): (m: nat)
    ensures m == 511
  {
    ((0x1C0 as bv16) | (0x38 as bv16) | (0x7 as bv16)) as nat
  }

  /** The launchers' shebang template, `before + "{}" + after`: its single
      replacement field receives the interpreter's path. */
  datatype Shebang = Shebang(before: string, after: string)

  /** `shebang.format(python_exec) + code`. */
  function LauncherContent(t: Shebang, pythonExec: string, code: string): (c: string)
    ensures |c| == |t.before| + |pythonExec| + |t.after| + |code|
  {
    t.before + pythonExec + t.after + code
  }

  /** A launcher starts with the template's opening, has the interpreter
      path in the template's field, and ends with the launcher's code. */
  lemma LauncherContentLayout(t: Shebang, pythonExec: string, code: string)
    ensures var c := LauncherContent(t, pythonExec, code);
      c[..|t.before|] == t.before &&
      c[|t.before|..|t.before| + |pythonExec|] == pythonExec &&
      c[|c| - |code|..] == code
  {
    var c := LauncherContent(t, pythonExec, code);
    assert c[|t.before|..|t.before| + |pythonExec|] == pythonExec;
  }

  /** When the template puts a line break right after the field and the
      interpreter path is a single line, the rest of the shebang line is
      exactly the interpreter path. */
  lemma ShebangInterpreter(t: Shebang, pythonExec: string, code: string)
    requires |t.after| > 0 && t.after[0] == '\n' && SingleLine(pythonExec)
    ensures SplitOn('\n', LauncherContent(t, pythonExec, code)[|t.before|..])[0] == pythonExec
  {
    var rest := LauncherContent(t, pythonExec, code)[|t.before|..];
    assert rest == pythonExec + t.after + code;
    assert rest[|pythonExec|] == '\n';
    FieldLengthUnique('\n', rest, |pythonExec|);
    assert rest[..|pythonExec|] == pythonExec;
  }

  /** An entry of the file store: a directory or a regular file, each with
      its permission bits. */
  datatype Node = DirNode(mode: nat) | FileNode(content: string, mode: nat)

  /** The launchers of `executables.executable_files`: distinct names, none
      of them starting with the separator. */
  predicate LauncherNames(sep: Separator, items: seq<(string, string)>) {
    (forall i :: 0 <= i < |items| ==> IsRelative(sep, items[i].0)) &&
    (forall i, j :: 0 <= i < j < |items| ==> items[i].0 != items[j].0)
  }

  /** Where the launcher `item` is written inside `bin`. */
  function Target(sep: Separator, bin: string, item: (string, string)): string {
    Join(sep, bin, item.0)
  }

  /** Writing launchers either completes or stops at the first launcher that
      cannot be opened for writing; the store is as the writes left it. */
  datatype Writing = Wrote(nodes: map<string, Node>) | Stopped(nodes: map<string, Node>)

  /** Writing one launcher and setting its mode: `open` fails when `bin` is
      not a directory or the target is one. */
  function WriteLauncher(nodes: map<string, Node>, sep: Separator, bin: string, t: Shebang,
                         pythonExec: string, item: (string, string)): Writing
  {
    var p := Target(sep, bin, item);
    if !(bin in nodes && nodes[bin].DirNode?) || (p in nodes && nodes[p].DirNode?) then Stopped(nodes)
    else Wrote(nodes[p := FileNode(LauncherContent(t, pythonExec, item.1), Mode777())])
  }

  /** Writing the launchers one after the other. */
  function WriteLaunchers(nodes: map<string, Node>, sep: Separator, bin: string, t: Shebang,
                          pythonExec: string, items: seq<(string, string)>): Writing
  {
    if items == [] then Wrote(nodes)
    else
      match WriteLaunchers(nodes, sep, bin, t, pythonExec, items[..|items| - 1])
      case Stopped(m) => Stopped(m)
      case Wrote(m) => WriteLauncher(m, sep, bin, t, pythonExec, items[|items| - 1])
  }

  /** `create_executables`: `bin` is made inside the installation folder
      when missing (which fails unless the folder is a directory), then the
      launchers are written. `dirMode` is the mode `mkdir` gives. */
  function CreateExecutablesResult(nodes: map<string, Node>, sep: Separator, folder: string, t: Shebang,
                                   pythonExec: string, items: seq<(string, string)>, dirMode: nat): Writing
  {
    var bin := Join(sep, folder, "bin");
    if bin in nodes then WriteLaunchers(nodes, sep, bin, t, pythonExec, items)
    else if folder in nodes && nodes[folder].DirNode? then
      WriteLaunchers(nodes[bin := DirNode(dirMode)], sep, bin, t, pythonExec, items)
    else Stopped(nodes)
  }

  /** Once a launcher cannot be opened, the rest are not written. */
  lemma {:induction false} WriteLaunchersStopIsFinal(nodes: map<string, Node>, sep: Separator, bin: string, t: Shebang,
                                                     pythonExec: string, items: seq<(string, string)>, k: nat)
    requires k <= |items|
    requires WriteLaunchers(nodes, sep, bin, t, pythonExec, items[..k]).Stopped?
    ensures WriteLaunchers(nodes, sep, bin, t, pythonExec, items) ==
            WriteLaunchers(nodes, sep, bin, t, pythonExec, items[..k])
    decreases |items| - k
  {
    if k < |items| {
      WriteLaunchersStopIsFinal(nodes, sep, bin, t, pythonExec, items[..|items| - 1], k);
      assert items[..|items| - 1][..k] == items[..k];
    } else {
      assert items[..k] == items;
    }
  }

  /** Writing one more launcher after a run that completed. */
  lemma WriteLaunchersStep(nodes: map<string, Node>, sep: Separator, bin: string, t: Shebang,
                           pythonExec: string, items: seq<(string, string)>, i: nat, m: map<string, Node>)
    requires i < |items| && WriteLaunchers(nodes, sep, bin, t, pythonExec, items[..i]) == Wrote(m)
    ensures WriteLaunchers(nodes, sep, bin, t, pythonExec, items[..i + 1]) ==
            WriteLauncher(m, sep, bin, t, pythonExec, items[i])
  {
    assert items[..i + 1][..i] == items[..i];
  }

  /** Writing a file and then setting its mode to 0o777 leaves the file
      as if it had been written with that mode. */
  lemma ModeRewrite(nodes: map<string, Node>, p: string, content: string, mode: nat)
    ensures var written := nodes[p := FileNode(content, mode)];
      written[p := written[p].(mode := 511)] == nodes[p := FileNode(content, Mode777())]
  {
  }

  /** Paths that are no launcher's target keep their entry. */
  lemma {:induction false} WriteLaunchersFrame(nodes: map<string, Node>, sep: Separator, bin: string, t: Shebang,
                                               pythonExec: string, items: seq<(string, string)>, p: string)
    requires forall i :: 0 <= i < |items| ==> p != Target(sep, bin, items[i])
    ensures p in WriteLaunchers(nodes, sep, bin, t, pythonExec, items).nodes <==> p in nodes
    ensures p in nodes ==> WriteLaunchers(nodes, sep, bin, t, pythonExec, items).nodes[p] == nodes[p]
    decreases |items|
  {
    if items != [] {
      var front := items[..|items| - 1];
      WriteLaunchersFrame(nodes, sep, bin, t, pythonExec, front, p);
    }
  }

  /** After a complete run every launcher holds the filled template and its
      code, with mode 0o777. */
  lemma {:induction false} WriteLaunchersContent(nodes: map<string, Node>, sep: Separator, bin: string, t: Shebang,
                                                 pythonExec: string, items: seq<(string, string)>)
    requires LauncherNames(sep, items)
    requires WriteLaunchers(nodes, sep, bin, t, pythonExec, items).Wrote?
    ensures forall i :: 0 <= i < |items| ==>
      var m := WriteLaunchers(nodes, sep, bin, t, pythonExec, items).nodes;
      Target(sep, bin, items[i]) in m &&
      m[Target(sep, bin, items[i])] == FileNode(LauncherContent(t, pythonExec, items[i].1), 511)
    decreases |items|
  {
    if items != [] {
      var n := |items| - 1;
      var front := items[..n];
      var m0 := WriteLaunchers(nodes, sep, bin, t, pythonExec, front).nodes;
      WriteLaunchersContent(nodes, sep, bin, t, pythonExec, front);
      forall i | 0 <= i < n ensures Target(sep, bin, items[i]) != Target(sep, bin, items[n]) {
        if Target(sep, bin, items[i]) == Target(sep, bin, items[n]) {
          JoinInjective(sep, bin, items[i].0, items[n].0);
        }
      }
      assert forall i :: 0 <= i < n ==> front[i] == items[i];
    }
  }

  /** A run completes exactly when `bin` is a directory (or there is nothing
      to write) and no target is a directory. */
  lemma {:induction false} WriteLaunchersCompletes(nodes: map<string, Node>, sep: Separator, bin: string, t: Shebang,
                                                   pythonExec: string, items: seq<(string, string)>)
    requires LauncherNames(sep, items)
    ensures WriteLaunchers(nodes, sep, bin, t, pythonExec, items).Wrote? <==>
      (items == [] || (bin in nodes && nodes[bin].DirNode?)) &&
      (forall i :: 0 <= i < |items| ==> !(Target(sep, bin, items[i]) in nodes && nodes[Target(sep, bin, items[i])].DirNode?))
    decreases |items|
  {
    if items != [] {
      var n := |items| - 1;
      var front := items[..n];
      assert forall i :: 0 <= i < n ==> front[i] == items[i];
      WriteLaunchersCompletes(nodes, sep, bin, t, pythonExec, front);
      var last := Target(sep, bin, items[n]);
      forall i | 0 <= i < n ensures Target(sep, bin, front[i]) != last {
        if Target(sep, bin, front[i]) == last {
          JoinInjective(sep, bin, items[i].0, items[n].0);
        }
      }
      WriteLaunchersFrame(nodes, sep, bin, t, pythonExec, front, last);
      forall i | 0 <= i < n ensures Target(sep, bin, front[i]) != bin {
        JoinUnder(sep, bin, front[i].0);
      }
      WriteLaunchersFrame(nodes, sep, bin, t, pythonExec, front, bin);
    }
  }

  /** When `create_executables` completes, each launcher lies at
      `<installation_folder>/bin/<name>`, inside the installation folder,
      and holds the filled template and its code with mode 0o777. */
  lemma CreateExecutablesPlacesLaunchers(nodes: map<string, Node>, sep: Separator, folder: string, t: Shebang,
                                         pythonExec: string, items: seq<(string, string)>, dirMode: nat)
    requires LauncherNames(sep, items)
    requires CreateExecutablesResult(nodes, sep, folder, t, pythonExec, items, dirMode).Wrote?
    ensures forall i :: 0 <= i < |items| ==>
      var m := CreateExecutablesResult(nodes, sep, folder, t, pythonExec, items, dirMode).nodes;
      var p := Join3(sep, folder, "bin", items[i].0);
      Under(sep, folder, p) && p in m && m[p] == FileNode(LauncherContent(t, pythonExec, items[i].1), 511)
  {
    var bin := Join(sep, folder, "bin");
    var start := if bin in nodes then nodes else nodes[bin := DirNode(dirMode)];
    WriteLaunchersContent(start, sep, bin, t, pythonExec, items);
    forall i | 0 <= i < |items| ensures Under(sep, folder, Join3(sep, folder, "bin", items[i].0)) {
      Join3Under(sep, folder, "bin", items[i].0);
    }
  }

  /** `create_executables` completes exactly when the installation folder is
      a directory or `bin` exists, `bin` is a directory unless there is
      nothing to write, and no launcher's path is a directory. */
  lemma CreateExecutablesCompletes(nodes: map<string, Node>, sep: Separator, folder: string, t: Shebang,
                                   pythonExec: string, items: seq<(string, string)>, dirMode: nat)
    requires LauncherNames(sep, items)
    ensures CreateExecutablesResult(nodes, sep, folder, t, pythonExec, items, dirMode).Wrote? <==>
      var bin := Join(sep, folder, "bin");
      (bin in nodes || (folder in nodes && nodes[folder].DirNode?)) &&
      (bin in nodes && items != [] ==> nodes[bin].DirNode?) &&
      (forall i :: 0 <= i < |items| ==> !(Target(sep, bin, items[i]) in nodes && nodes[Target(sep, bin, items[i])].DirNode?))
  {
    var bin := Join(sep, folder, "bin");
    if bin in nodes {
      WriteLaunchersCompletes(nodes, sep, bin, t, pythonExec, items);
    } else if folder in nodes && nodes[folder].DirNode? {
      var start := nodes[bin := DirNode(dirMode)];
      WriteLaunchersCompletes(start, sep, bin, t, pythonExec, items);
      forall i | 0 <= i < |items| ensures Target(sep, bin, items[i]) != bin {
        JoinUnder(sep, bin, items[i].0);
      }
    }
  }

  /** The file system the launchers are written to. */
  class FileStore {
    var nodes: map<string, Node>

    constructor (init: map<string, Node>)
      ensures nodes == init
    {
      nodes := init;
    }

    /** `change_permissions_777(file_)`: a missing path aborts; otherwise
        its mode becomes 0o777 and nothing else changes. */
    method ChangePermissions777(path: string) returns (aborted: bool)
      modifies this
      ensures aborted <==> path !in old(nodes)
      ensures aborted ==> nodes == old(nodes)
      ensures !aborted ==> nodes == old(nodes)[path := old(nodes)[path].(mode := 511)]
    {
      if path !in nodes {
        return true;
      }
      nodes := nodes[path := nodes[path].(mode := Mode777())];
      return false;
    }

    /** `create_executables(installation_folder, python_exec)` for the
        launchers `items`; `false` means that `mkdir` or `open` raised, and
        the store keeps what was done before. `dirMode` and `fileMode` are
        the modes new directories and files receive. */
    method CreateExecutables(sep: Separator, folder: string, t: Shebang, pythonExec: string,
                             items: seq<(string, string)>, dirMode: nat, fileMode: nat)
      returns (created: bool)
      requires LauncherNames(sep, items)
      modifies this
      ensures var r := CreateExecutablesResult(old(nodes), sep, folder, t, pythonExec, items, dirMode);
              created == r.Wrote? && nodes == r.nodes
    {
      var bin := Join(sep, folder, "bin");
      if bin !in nodes {
        if !(folder in nodes && nodes[folder].DirNode?) {
          return false;
        }
        nodes := nodes[bin := DirNode(dirMode)];
      }
      created := WriteLaunchersInto(sep, bin, t, pythonExec, items, fileMode);
    }

    /** The loop of `create_executables` over the launchers: each is opened
        for writing inside `bin`, filled, and given mode 0o777. */
    method WriteLaunchersInto(sep: Separator, bin: string, t: Shebang, pythonExec: string,
                              items: seq<(string, string)>, fileMode: nat)
      returns (written: bool)
      modifies this
      ensures var r := WriteLaunchers(old(nodes), sep, bin, t, pythonExec, items);
              written == r.Wrote? && nodes == r.nodes
    {
      ghost var start := nodes;
      var i := 0;
      while i < |items|
        invariant 0 <= i <= |items|
        invariant WriteLaunchers(start, sep, bin, t, pythonExec, items[..i]) == Wrote(nodes)
      {
        var name, code := items[i].0, items[i].1;
        var target := Join(sep, bin, name);
        WriteLaunchersStep(start, sep, bin, t, pythonExec, items, i, nodes);
        if !(bin in nodes && nodes[bin].DirNode?) || (target in nodes && nodes[target].DirNode?) {
          WriteLaunchersStopIsFinal(start, sep, bin, t, pythonExec, items, i + 1);
          return false;
        }
        ghost var before := nodes;
        var content := LauncherContent(t, pythonExec, code);
        var mode := if target in nodes then nodes[target].mode else fileMode;
        var filled := nodes[target := FileNode(content, mode)];
        nodes := filled;
        var aborted := ChangePermissions777(target);
        ModeRewrite(before, target, content, mode);
        i := i + 1;
      }
      assert items[..i] == items;
      return true;
    }
  }
}
