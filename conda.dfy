/** `CondaManager`, the installation-state manager of install/condamanager.py
    and ToL_install/condamanager.py: the names and paths it derives, its
    setters for the environment descriptor and version, the search for a
    previous Miniconda folder, and the `conda` command lines it runs. */
module Conda {
  import opened Text
  import opened Paths
  import opened Py
  import opened Resolver
  import opened EnvDescriptor
  import opened Commons

  /** The values of the host's `system` module the manager reads. `bits` is
      the text `str.format` gives for the word size. */
  datatype Host = Host(platform: string, bits: string, fileExtension: string,
                       defaultMinicondaFolder: string, sep: Separator)

  // ---------------------------------------------------------------------
  // Names and paths

  /** `cwd or os.getcwd()`. */
  function InstallFolderOf(cwd: Option<string>, getcwd: string): string {
    if cwd.Some? && cwd.value != "" then cwd.value else getcwd
  }

  /** `"Miniconda3-latest-{}-{}.{}".format(platform, bits, extension)`. */
  function InstallerFileName(platform: string, bits: string, extension: string): string {
    "Miniconda3-latest-" + platform + "-" + bits + "." + extension
  }

  /** Reads platform, bits and extension back from an installer's name. */
  function ParseInstallerFileName(name: string): Option<(string, string, string)> {
    if |name| >= 18 && name[..18] == "Miniconda3-latest-" then
      var parts := SplitOn('-', name[18..]);
      if |parts| != 2 then None
      else
        var tail := SplitOn('.', parts[1]);
        if |tail| != 2 then None else Some((parts[0], tail[0], tail[1]))
    else None
  }

  lemma JoinTwo(c: char, a: string, b: string)
    ensures JoinWith([c], [a, b]) == a + [c] + b
  {
    assert [a, b][1..] == [b];
  }

  /** The installer's name determines the platform, the word size and the
      extension it was built from, as long as the platform and word size
      hold no `-` and the word size and extension no `.`. */
  lemma InstallerFileNameRoundTrip(platform: string, bits: string, extension: string)
    requires '-' !in platform && '-' !in bits && '-' !in extension
    requires '.' !in bits && '.' !in extension
    ensures ParseInstallerFileName(InstallerFileName(platform, bits, extension)) == Some((platform, bits, extension))
  {
    var name := InstallerFileName(platform, bits, extension);
    var rest := bits + "." + extension;
    assert name[..18] == "Miniconda3-latest-";
    assert name[18..] == platform + "-" + rest;
    assert '-' !in rest by {
      forall i | 0 <= i < |rest| ensures rest[i] != '-' {
        if i > |bits| {
          assert rest[i] == extension[i - |bits| - 1];
        }
      }
    }
    JoinTwo('-', platform, rest);
    SplitOnJoin('-', [platform, rest]);
    JoinTwo('.', bits, extension);
    SplitOnJoin('.', [bits, extension]);
  }

  /** `miniconda_install_file` and `miniconda_install_folder` lie inside the
      installation folder, and the installer keeps its name there. */
  lemma ManagerLayout(host: Host, installFolder: string)
    requires IsRelative(host.sep, host.defaultMinicondaFolder)
    ensures var name := InstallerFileName(host.platform, host.bits, host.fileExtension);
      var file := Join(host.sep, installFolder, name);
      Under(host.sep, installFolder, file) && EndsWith(file, name)
    ensures Under(host.sep, installFolder, Join(host.sep, installFolder, host.defaultMinicondaFolder))
  {
    var name := InstallerFileName(host.platform, host.bits, host.fileExtension);
    assert name[0] == 'M';
    JoinUnder(host.sep, installFolder, name);
    JoinUnder(host.sep, installFolder, host.defaultMinicondaFolder);
  }

  // ---------------------------------------------------------------------
  // The inline platform selection of install/condamanager.py

  /** `install_miniconda`'s choice of command line in install/condamanager.py. */
  function LegacyInstallCommand(platform: string, installFile: string, installFolder: string): string {
    var unix := JoinWith(" ", [installFile, "-b", "-p", installFolder]);
    if platform == "Linux" || platform == "MacOSX" then unix
    else if IsSubstring(platform, "Windows") then
      JoinWith(" ", [installFile, "/InstallationType=JustMe", "/RegisterPython=0", "/S", "/D=" + installFolder])
    else unix
  }

  /** The `conda` path chosen after installation in install/condamanager.py. */
  function LegacyCondaExec(platform: string, sep: Separator, folder: string): string {
    if IsSubstring(platform, "Windows") then Join3(sep, folder, "Scripts", "conda.exe")
    else Join3(sep, folder, "bin", "conda")
  }

  /** The interpreter chosen for a Miniconda or environment folder in
      install/condamanager.py (`install_miniconda` and `install_env`). */
  function LegacyPythonExec(platform: string, sep: Separator, folder: string): string {
    if IsSubstring(platform, "Windows") then Join(sep, folder, "python.exe")
    else Join3(sep, folder, "bin", "python")
  }

  /** The older revision's inline choices agree with the resolver of the
      newer one, so the manager below serves both. */
  lemma LegacyAgreesWithResolver(platform: string, sep: Separator, installFile: string, folder: string)
    ensures LegacyInstallCommand(platform, installFile, folder) == InstallCommand(Dispatch(platform), installFile, folder)
    ensures LegacyCondaExec(platform, sep, folder) == CondaExec(Dispatch(platform), sep, folder)
    ensures LegacyPythonExec(platform, sep, folder) == EnvPythonExec(Dispatch(platform), sep, folder)
  {
    InstallCommandIsJoin(Dispatch(platform), installFile, folder);
    SubstringAt(platform, "Windows");
    DispatchWindowsIff(platform);
  }

  // ---------------------------------------------------------------------
  // A previous Miniconda folder

  /** The elements of `names` that `keep` accepts, in their order. */
  function Filter(names: seq<string>, keep: string -> bool): (r: seq<string>)
    ensures forall x :: x in r <==> x in names && keep(x)
    ensures Distinct(names) ==> Distinct(r)
    ensures (forall x :: x in names ==> keep(x)) ==> r == names
    decreases |names|
  {
    if names == [] then []
    else if keep(names[0]) then [names[0]] + Filter(names[1..], keep)
    else Filter(names[1..], keep)
  }

  predicate Distinct(names: seq<string>) {
    forall i, j :: 0 <= i < j < |names| ==> names[i] != names[j]
  }

  /** `_get_all_subfolders`: the listed names that `os.path.isdir` accepts.
      The names are tested as they are listed, that is relative to the
      process's current directory. */
  function Subfolders(listing: seq<string>, fs: FileSystem): seq<string> {
    Filter(listing, a => IsDir(fs, a))
  }

  /** `re.compile('[M|m]iniconda.*').match(name)`: the match is anchored at
      the start; the class accepts `M`, `|` and `m`; `.*` may match nothing. */
  predicate DefaultPattern(name: string) {
    |name| >= 9 && name[0] in "M|m" && name[1..9] == "iniconda"
  }

  lemma DefaultPatternExamples()
    ensures DefaultPattern("Miniconda3") && DefaultPattern("miniconda") && DefaultPattern("|iniconda")
    ensures !DefaultPattern("Anaconda3") && !DefaultPattern("xMiniconda") && !DefaultPattern("Minicond")
  {
    assert "Miniconda3"[1..9] == "iniconda";
    assert "miniconda"[1..9] == "iniconda";
    assert "|iniconda"[1..9] == "iniconda";
    assert "xMiniconda"[0] !in "M|m";
    assert "Anaconda3"[0] !in "M|m";
  }

  datatype PreviousFolder = NoFolder | Found(name: string) | TooMany

  /** `check_previous_miniconda_folder(folder)`: the matching sub-folders of
      the installation folder decide; `matches` is the compiled pattern's
      `match`. `TooMany` is the abort. */
  function CheckPreviousMinicondaFolder(listing: seq<string>, fs: FileSystem, matches: string -> bool): PreviousFolder {
    var found := Filter(Subfolders(listing, fs), matches);
    if |found| == 0 then NoFolder
    else if |found| == 1 then Found(found[0])
    else TooMany
  }

  /** A listed name that is a directory and matches the pattern. */
  predicate Candidate(listing: seq<string>, fs: FileSystem, matches: string -> bool, x: string) {
    x in listing && IsDir(fs, x) && matches(x)
  }

  /** No candidate gives `False`, exactly one gives its name, and two or
      more abort. */
  lemma PreviousFolderDecision(listing: seq<string>, fs: FileSystem, matches: string -> bool)
    requires Distinct(listing)
    ensures CheckPreviousMinicondaFolder(listing, fs, matches) == NoFolder <==>
      forall x :: !Candidate(listing, fs, matches, x)
    ensures forall n :: CheckPreviousMinicondaFolder(listing, fs, matches) == Found(n) <==>
      Candidate(listing, fs, matches, n) && forall x :: Candidate(listing, fs, matches, x) ==> x == n
    ensures CheckPreviousMinicondaFolder(listing, fs, matches) == TooMany <==>
      exists x, y :: x != y && Candidate(listing, fs, matches, x) && Candidate(listing, fs, matches, y)
  {
    var found := Filter(Subfolders(listing, fs), matches);
    assert forall x :: x in found <==> Candidate(listing, fs, matches, x);
    if |found| >= 2 {
      assert found[0] != found[1];
      assert Candidate(listing, fs, matches, found[0]) && Candidate(listing, fs, matches, found[1]);
    }
    if |found| == 1 {
      assert forall x :: x in found ==> x == found[0];
    }
  }

  // ---------------------------------------------------------------------
  // The `conda` command lines

  /** `'{} env create -f {}'.format(conda_exec, env_file)`. */
  function EnvCreateCommand(conda: string, envFile: string): string {
    conda + " " + "env" + " " + "create" + " " + "-f" + " " + envFile
  }

  /** `'{} remove -vy --name {} --all'.format(conda_exec, env_name)`. */
  function RemoveEnvCommand(conda: string, envName: string): string {
    conda + " " + "remove" + " " + "-vy" + " " + "--name" + " " + envName + " " + "--all"
  }

  /** `"{} list -n {}".format(conda_exec, env_name)`. */
  function ListEnvCommand(conda: string, envName: string): string {
    conda + " " + "list" + " " + "-n" + " " + envName
  }

  /** `"{} install -y {}".format(conda_exec, package)`. */
  function InstallPackageCommand(conda: string, package: string): string {
    conda + " " + "install" + " " + "-y" + " " + package
  }

  /** `package.split('=')[0]`: the package's name without its version. */
  function PackageName(package: string): (name: string)
    ensures '=' !in name
    ensures |name| <= |package| && name == package[..|name|]
    ensures |name| == |package| || package[|name|] == '='
  {
    SplitOn('=', package)[0]
  }

  /** `"{} list {}".format(conda_exec, package_name)`. */
  function ListPackageCommand(conda: string, package: string): string {
    conda + " " + "list" + " " + PackageName(package)
  }

  /** `" ".join([conda_exec, 'develop', '-p', env_folder, install_folder])`. */
  function DevelopCommand(conda: string, envFolder: string, installFolder: string): string {
    JoinWith(" ", [conda, "develop", "-p", envFolder, installFolder])
  }

  /** The package name is the whole specification when it has no `=`, and
      otherwise the part before the first `=`. */
  lemma PackageNameCases(package: string, name: string, version: string)
    requires '=' !in name
    ensures PackageName(name) == name
    ensures PackageName(name + "=" + version) == name
  {
    var s := name + "=" + version;
    assert forall i :: 0 <= i < |name| ==> s[i] == name[i];
    FieldLengthUnique('=', s, |name|);
    assert s[..|name|] == name;
    FieldLengthUnique('=', name, |name|);
  }

  /** `conda env create -f <file>` reaches `conda` as those five arguments
      when the executable and file paths hold no whitespace. */
  lemma EnvCreateArguments(conda: string, envFile: string)
    requires IsWord(conda) && IsWord(envFile)
    ensures Tokenize(EnvCreateCommand(conda, envFile)) == [conda, "env", "create", "-f", envFile]
  {
    VisibleWord("env");
    VisibleWord("create");
    VisibleWord("-f");
    SplitSpaced5(conda, "env", "create", "-f", envFile);
  }

  /** `conda remove -vy --name <name> --all` reaches `conda` as those six
      arguments when the executable path and the name hold no whitespace. */
  lemma RemoveEnvArguments(conda: string, envName: string)
    requires IsWord(conda) && IsWord(envName)
    ensures Tokenize(RemoveEnvCommand(conda, envName)) == [conda, "remove", "-vy", "--name", envName, "--all"]
  {
    VisibleWord("remove");
    VisibleWord("-vy");
    VisibleWord("--name");
    VisibleWord("--all");
    SplitSpaced6(conda, "remove", "-vy", "--name", envName, "--all");
  }

  /** `conda list -n <name>` reaches `conda` as those four arguments. */
  lemma ListEnvArguments(conda: string, envName: string)
    requires IsWord(conda) && IsWord(envName)
    ensures Tokenize(ListEnvCommand(conda, envName)) == [conda, "list", "-n", envName]
  {
    VisibleWord("list");
    VisibleWord("-n");
    SplitSpaced4(conda, "list", "-n", envName);
  }

  /** `conda install -y <package>` reaches `conda` as those four arguments. */
  lemma InstallPackageArguments(conda: string, package: string)
    requires IsWord(conda) && IsWord(package)
    ensures Tokenize(InstallPackageCommand(conda, package)) == [conda, "install", "-y", package]
  {
    VisibleWord("install");
    VisibleWord("-y");
    SplitSpaced4(conda, "install", "-y", package);
  }

  /** `conda develop -p <env folder> <install folder>` reaches `conda` as
      those five arguments. */
  lemma DevelopArguments(conda: string, envFolder: string, installFolder: string)
    requires IsWord(conda) && IsWord(envFolder) && IsWord(installFolder)
    ensures Tokenize(DevelopCommand(conda, envFolder, installFolder)) == [conda, "develop", "-p", envFolder, installFolder]
  {
    assert IsWord("develop") && IsWord("-p");
    TokenizeJoin([conda, "develop", "-p", envFolder, installFolder]);
  }

  /** The package query names the package without its version. */
  lemma ListPackageArguments(conda: string, package: string)
    requires IsWord(conda) && IsWord(package) && package[0] != '='
    ensures Tokenize(ListPackageCommand(conda, package)) == [conda, "list", PackageName(package)]
  {
    var n := PackageName(package);
    assert IsWord(n) by {
      forall i | 0 <= i < |n| ensures !IsSpace(n[i]) {
        assert n[i] == package[i];
      }
    }
    JoinCons(" ", "list", [n]);
    JoinCons(" ", conda, ["list", n]);
    assert [conda] + ["list", n] == [conda, "list", n];
    assert JoinWith(" ", [conda, "list", n]) == ListPackageCommand(conda, package);
    assert IsWord("list");
    TokenizeJoin([conda, "list", n]);
  }

  // ---------------------------------------------------------------------
  // The manager

  /** The exceptions that escape the manager's methods. Reading an
      attribute that was never assigned raises `AttributeError`; `" ".join`
      of a list holding None raises `TypeError`; `sub_call` lets `IndexError`
      (a blank line) and `OSError` (a process that cannot start) escape. */
  datatype PyError = ValueError(message: string) | AttributeError(attribute: string) | TypeError | IndexError | OSError

  /** How a call on the manager ends: normally, by doing nothing because
      there is no environment, by the abort of `sys_exit`, or by raising. */
  datatype Outcome = Done | Skipped | Aborted | Raised(error: PyError)

  /** Running a command line through `sub_call`, whose output is only
      logged. */
  function RunCommand(line: string, run: seq<string> -> ProcessResult): (o: Outcome)
    ensures o == Done || o == Aborted || o == Raised(IndexError) || o == Raised(OSError)
  {
    match SubCall(line, run)
    case Output(_) => Done
    case CallAborted => Aborted
    case CallRaised => Raised(IndexError)
    case CallStartFailed => Raised(OSError)
  }

  /** A command runs to completion exactly when its tokens start a process
      that exits with status 0; it aborts when the process is missing or
      fails, raises `IndexError` on a blank line, and lets the `OSError` of a
      process that cannot be started escape. */
  lemma RunCommandOutcomes(line: string, run: seq<string> -> ProcessResult)
    ensures RunCommand(line, run) == Done <==>
      Tokenize(line) != [] && run(Tokenize(line)).Exited? && run(Tokenize(line)).status == 0
    ensures RunCommand(line, run) == Aborted <==>
      Tokenize(line) != [] &&
      (run(Tokenize(line)) == ExecutableNotFound || (run(Tokenize(line)).Exited? && run(Tokenize(line)).status != 0))
    ensures RunCommand(line, run) == Raised(IndexError) <==> Tokenize(line) == []
    ensures RunCommand(line, run) == Raised(OSError) <==> Tokenize(line) != [] && run(Tokenize(line)) == StartFailed
  {
  }

  class CondaManager {
    const host: Host
    const installFolder: string
    const installerFile: string
    const minicondaFolder: string
    const commands: CondaCommands

    var envFile: Attr<string>
    var envName: Attr<string>
    var envVersion: Attr<string>
    var condaExec: Attr<string>
    var envPythonExec: Attr<string>
    var envFolder: Attr<string>

    /** The paths fixed by the installation, which the descriptor setters
        leave alone. */
    twostate predicate KeepsInstallation()
      reads this
    {
      condaExec == old(condaExec) && envPythonExec == old(envPythonExec) && envFolder == old(envFolder)
    }

    /** `__init__(cwd, env)` up to its final `self.env_file = env`, which is
        `SetEnvFile`. */
    constructor (host: Host, cwd: Option<string>, getcwd: string)
      ensures this.host == host
      ensures installFolder == InstallFolderOf(cwd, getcwd)
      ensures installerFile == Join(host.sep, installFolder, InstallerFileName(host.platform, host.bits, host.fileExtension))
      ensures minicondaFolder == Join(host.sep, installFolder, host.defaultMinicondaFolder)
      ensures commands == Dispatch(host.platform)
      ensures envFile == Unassigned && envName == Unassigned && envVersion == Unassigned
      ensures condaExec == Unassigned && envPythonExec == Unassigned && envFolder == Unassigned
    {
      this.host := host;
      var folder := InstallFolderOf(cwd, getcwd);
      installFolder := folder;
      installerFile := Join(host.sep, folder, InstallerFileName(host.platform, host.bits, host.fileExtension));
      minicondaFolder := Join(host.sep, folder, host.defaultMinicondaFolder);
      commands := Dispatch(host.platform);
      envFile, envName, envVersion := Unassigned, Unassigned, Unassigned;
      condaExec, envPythonExec, envFolder := Unassigned, Unassigned, Unassigned;
    }

    /** The `env_version` setter: `None` is stored as None, a text `int`
        accepts is stored unchanged, anything else aborts. */
    method SetEnvVersion(v: Option<string>) returns (outcome: Outcome)
      modifies this
      ensures outcome == Aborted <==> VersionGate(v) == VersionAbort
      ensures outcome != Aborted ==> outcome == Done
      ensures VersionGate(v) == VersionNone ==> envVersion == PyNone
      ensures VersionGate(v).VersionKept? ==> envVersion == Assigned(VersionGate(v).text)
      ensures outcome == Aborted ==> envVersion == old(envVersion)
      ensures envFile == old(envFile) && envName == old(envName) && KeepsInstallation()
    {
      match VersionGate(v)
      case VersionNone =>
        envVersion := PyNone;
        outcome := Done;
      case VersionKept(text) =>
        envVersion := Assigned(text);
        outcome := Done;
      case VersionAbort =>
        outcome := Aborted;
    }

    /** The `env_file` setter. `None` clears the file, the name and the
        version. Any other argument is validated, a refusal raising
        `ValueError` and changing nothing. An accepted file is stored and
        its `lines` are scanned in order: a `name:` line sets the name to
        its last token, a `# version:` line passes its last token to the
        version setter, which may abort. */
    method SetEnvFile(env: Option<EnvFileArg>, fs: FileSystem, lines: seq<string>) returns (outcome: Outcome)
      modifies this
      ensures env.None? ==> outcome == Done && envFile == PyNone && envName == PyNone && envVersion == PyNone
      ensures env.Some? && Validate(env.value, fs).Rejected? ==>
        outcome == Raised(ValueError(ErrorMessage(Validate(env.value, fs).error))) &&
        envFile == old(envFile) && envName == old(envName) && envVersion == old(envVersion)
      ensures env.Some? && Validate(env.value, fs).Accepted? ==>
        envFile == Assigned(Validate(env.value, fs).path) &&
        var st := ScanAll(Scanning(old(envName), old(envVersion)), lines);
        (outcome == Aborted <==> st.ScanAborted?) &&
        (st.Scanning? ==> outcome == Done && envName == st.name && envVersion == st.version)
      ensures KeepsInstallation()
    {
      if env.None? {
        envFile := PyNone;
        envName := PyNone;
        outcome := SetEnvVersion(None);
        return;
      }
      ValidateReportsFirstFailure(env.value, fs, NotAStringError);
      var validation := Validate(env.value, fs);
      if validation.Rejected? {
        return Raised(ValueError(ErrorMessage(validation.error)));
      }
      envFile := Assigned(validation.path);
      ghost var init := Scanning(envName, envVersion);
      var i := 0;
      while i < |lines|
        invariant 0 <= i <= |lines|
        invariant ScanAll(init, lines[..i]) == Scanning(envName, envVersion)
        invariant envFile == Assigned(validation.path) && KeepsInstallation()
      {
        var line := lines[i];
        assert lines[..i + 1][..i] == lines[..i];
        if StartsWith(line, "name:") {
          assert line[0] == line[..5][0];
          envName := Assigned(LastToken(line));
        } else if StartsWith(line, "# version:") {
          assert line[0] == line[..10][0];
          var gate := SetEnvVersion(Some(LastToken(line)));
          if gate == Aborted {
            BadLineAborts(init, lines, i);
            return Aborted;
          }
        }
        i := i + 1;
      }
      assert lines[..i] == lines;
      return Done;
    }

    /** `__init__`'s closing `self.env_file = env`. */
    method Init(env: Option<EnvFileArg>, fs: FileSystem, lines: seq<string>) returns (outcome: Outcome)
      requires envFile == Unassigned && envName == Unassigned && envVersion == Unassigned
      modifies this
      ensures env.None? ==> outcome == Done && envFile == PyNone && envName == PyNone && envVersion == PyNone
      ensures env.Some? && Validate(env.value, fs).Rejected? ==>
        outcome == Raised(ValueError(ErrorMessage(Validate(env.value, fs).error)))
      ensures env.Some? && Validate(env.value, fs).Accepted? ==>
        var st := ScanAll(Scanning(Unassigned, Unassigned), lines);
        (outcome == Aborted <==> st.ScanAborted?) &&
        (st.Scanning? ==> envName == st.name && envVersion == st.version)
    {
      outcome := SetEnvFile(env, fs, lines);
    }

    /** `install_miniconda`: runs the resolver's silent-install command, then
        sets `conda_exec` (whose setter aborts when the file is missing from
        `installed`, the file system after the installer ran) and
        `env_python_exec`. */
    method InstallMiniconda(run: seq<string> -> ProcessResult, installed: FileSystem) returns (outcome: Outcome)
      modifies this
      ensures var cmd := InstallCommand(commands, installerFile, minicondaFolder);
        outcome == Done <==> RunCommand(cmd, run) == Done && Exists(installed, CondaExec(commands, host.sep, minicondaFolder))
      ensures outcome == Done ==>
        condaExec == Assigned(CondaExec(commands, host.sep, minicondaFolder)) &&
        envPythonExec == Assigned(EnvPythonExec(commands, host.sep, minicondaFolder))
      ensures outcome != Done ==> condaExec == old(condaExec) && envPythonExec == old(envPythonExec)
      ensures envFile == old(envFile) && envName == old(envName) && envVersion == old(envVersion)
      ensures envFolder == old(envFolder)
    {
      var cmd := InstallCommand(commands, installerFile, minicondaFolder);
      var conda := CondaExec(commands, host.sep, minicondaFolder);
      var python := EnvPythonExec(commands, host.sep, minicondaFolder);
      outcome := RunCommand(cmd, run);
      if outcome != Done {
        return;
      }
      outcome := SetCondaExec(conda, installed);
      if outcome != Done {
        return;
      }
      envPythonExec := Assigned(python);
    }

    /** `install_env`: nothing to do without an environment name; otherwise
        runs `conda env create -f <env_file>`, sets `env_folder` to
        `<miniconda folder>/envs/<name>` (whose setter aborts when the folder
        is missing from `installed`) and the interpreter inside it. */
    method InstallEnv(run: seq<string> -> ProcessResult, installed: FileSystem) returns (outcome: Outcome)
      modifies this
      ensures envName == PyNone ==> outcome == Skipped
      ensures envName == Unassigned ==> outcome == Raised(AttributeError("_env_name"))
      ensures outcome == Done <==>
        envName.Assigned? && !condaExec.Unassigned? && !envFile.Unassigned? &&
        RunCommand(EnvCreateCommand(FormatAttr(condaExec), FormatAttr(envFile)), run) == Done &&
        Exists(installed, Join3(host.sep, minicondaFolder, "envs", envName.value))
      ensures outcome == Done ==>
        var folder := Join3(host.sep, minicondaFolder, "envs", envName.value);
        envFolder == Assigned(folder) && envPythonExec == Assigned(EnvPythonExec(commands, host.sep, folder))
      ensures outcome != Done ==> envFolder == old(envFolder) && envPythonExec == old(envPythonExec)
      ensures envFile == old(envFile) && envName == old(envName) && envVersion == old(envVersion)
      ensures condaExec == old(condaExec)
    {
      if envName.PyNone? {
        return Skipped;
      }
      if envName.Unassigned? {
        return Raised(AttributeError("_env_name"));
      }
      if condaExec.Unassigned? {
        return Raised(AttributeError("_conda_exec"));
      }
      if envFile.Unassigned? {
        return Raised(AttributeError("_env_file"));
      }
      var cmd := EnvCreateCommand(FormatAttr(condaExec), FormatAttr(envFile));
      outcome := RunCommand(cmd, run);
      if outcome != Done {
        return;
      }
      var folder := Join3(host.sep, minicondaFolder, "envs", envName.value);
      outcome := SetEnvFolder(folder, installed);
      if outcome != Done {
        return;
      }
      envPythonExec := Assigned(EnvPythonExec(commands, host.sep, folder));
    }

    /** The `conda_exec` setter: a path missing from `fs` aborts; any other
        is stored. */
    method SetCondaExec(path: string, fs: FileSystem) returns (outcome: Outcome)
      modifies this
      ensures outcome == Done || outcome == Aborted
      ensures outcome == Done <==> Exists(fs, path)
      ensures condaExec == if outcome == Done then Assigned(path) else old(condaExec)
      ensures envFile == old(envFile) && envName == old(envName) && envVersion == old(envVersion)
      ensures envPythonExec == old(envPythonExec) && envFolder == old(envFolder)
    {
      if !Exists(fs, path) {
        return Aborted;
      }
      condaExec := Assigned(path);
      outcome := Done;
    }

    /** The `env_folder` setter: a folder missing from `fs` aborts; any
        other is stored. */
    method SetEnvFolder(path: string, fs: FileSystem) returns (outcome: Outcome)
      modifies this
      ensures outcome == Done || outcome == Aborted
      ensures outcome == Done <==> Exists(fs, path)
      ensures envFolder == if outcome == Done then Assigned(path) else old(envFolder)
      ensures envFile == old(envFile) && envName == old(envName) && envVersion == old(envVersion)
      ensures condaExec == old(condaExec) && envPythonExec == old(envPythonExec)
    {
      if !Exists(fs, path) {
        return Aborted;
      }
      envFolder := Assigned(path);
      outcome := Done;
    }

    /** `logs_env_information`: nothing to do without an environment name;
        otherwise runs `conda list -n <name>`. */
    method LogsEnvInformation(run: seq<string> -> ProcessResult) returns (outcome: Outcome)
      ensures envName == PyNone <==> outcome == Skipped
      ensures envName == Unassigned ==> outcome == Raised(AttributeError("_env_name"))
      ensures envName.Assigned? && !condaExec.Unassigned? ==>
        outcome == RunCommand(ListEnvCommand(FormatAttr(condaExec), envName.value), run)
      ensures envName.Assigned? && condaExec.Unassigned? ==> outcome == Raised(AttributeError("_conda_exec"))
    {
      if envName.PyNone? {
        return Skipped;
      }
      if envName.Unassigned? {
        return Raised(AttributeError("_env_name"));
      }
      if condaExec.Unassigned? {
        return Raised(AttributeError("_conda_exec"));
      }
      outcome := RunCommand(ListEnvCommand(FormatAttr(condaExec), envName.value), run);
    }

    /** `remove_env`: nothing to do without an environment name; otherwise
        runs `conda remove -vy --name <name> --all`. */
    method RemoveEnv(run: seq<string> -> ProcessResult) returns (outcome: Outcome)
      ensures envName == PyNone <==> outcome == Skipped
      ensures envName == Unassigned ==> outcome == Raised(AttributeError("_env_name"))
      ensures envName.Assigned? && !condaExec.Unassigned? ==>
        outcome == RunCommand(RemoveEnvCommand(FormatAttr(condaExec), envName.value), run)
      ensures envName.Assigned? && condaExec.Unassigned? ==> outcome == Raised(AttributeError("_conda_exec"))
    {
      if envName.PyNone? {
        return Skipped;
      }
      if envName.Unassigned? {
        return Raised(AttributeError("_env_name"));
      }
      if condaExec.Unassigned? {
        return Raised(AttributeError("_conda_exec"));
      }
      outcome := RunCommand(RemoveEnvCommand(FormatAttr(condaExec), envName.value), run);
    }

    /** `logs_package_installation(package)`: runs `conda list <name>` for
        the package's name without its version. */
    method LogsPackageInstallation(package: string, run: seq<string> -> ProcessResult) returns (outcome: Outcome)
      ensures condaExec.Unassigned? ==> outcome == Raised(AttributeError("_conda_exec"))
      ensures !condaExec.Unassigned? ==> outcome == RunCommand(ListPackageCommand(FormatAttr(condaExec), package), run)
    {
      if condaExec.Unassigned? {
        return Raised(AttributeError("_conda_exec"));
      }
      outcome := RunCommand(ListPackageCommand(FormatAttr(condaExec), package), run);
    }

    /** `install_package(package)`: runs `conda install -y <package>`, then
        logs the installation; the second command runs only after the first
        succeeded. */
    method InstallPackage(package: string, run: seq<string> -> ProcessResult) returns (outcome: Outcome)
      ensures condaExec.Unassigned? ==> outcome == Raised(AttributeError("_conda_exec"))
      ensures !condaExec.Unassigned? ==>
        var first := RunCommand(InstallPackageCommand(FormatAttr(condaExec), package), run);
        outcome == if first == Done then RunCommand(ListPackageCommand(FormatAttr(condaExec), package), run) else first
    {
      if condaExec.Unassigned? {
        return Raised(AttributeError("_conda_exec"));
      }
      outcome := RunCommand(InstallPackageCommand(FormatAttr(condaExec), package), run);
      if outcome == Done {
        outcome := LogsPackageInstallation(package, run);
      }
    }

    /** `add_install_folder_to_site_packages`: runs `conda develop -p
        <env_folder> <install_folder>`. */
    method AddInstallFolderToSitePackages(run: seq<string> -> ProcessResult) returns (outcome: Outcome)
      ensures condaExec.Unassigned? ==> outcome == Raised(AttributeError("_conda_exec"))
      ensures !condaExec.Unassigned? && envFolder.Unassigned? ==> outcome == Raised(AttributeError("_env_folder"))
      ensures !condaExec.Unassigned? && !envFolder.Unassigned? && (condaExec.PyNone? || envFolder.PyNone?) ==>
        outcome == Raised(TypeError)
      ensures condaExec.Assigned? && envFolder.Assigned? ==>
        outcome == RunCommand(DevelopCommand(condaExec.value, envFolder.value, installFolder), run)
    {
      if condaExec.Unassigned? {
        return Raised(AttributeError("_conda_exec"));
      }
      if envFolder.Unassigned? {
        return Raised(AttributeError("_env_folder"));
      }
      if condaExec.PyNone? || envFolder.PyNone? {
        return Raised(TypeError);
      }
      outcome := RunCommand(DevelopCommand(condaExec.value, envFolder.value, installFolder), run);
    }
  }

  /** After a successful `install_miniconda` and `install_env`, the
      environment's interpreter lies inside the environment folder, which
      lies inside the Miniconda folder. */
  lemma EnvironmentLayout(c: CondaCommands, sep: Separator, minicondaFolder: string, name: string)
    requires IsRelative(sep, name)
    ensures var folder := Join3(sep, minicondaFolder, "envs", name);
      Under(sep, minicondaFolder, folder) &&
      Under(sep, folder, EnvPythonExec(c, sep, folder)) &&
      Under(sep, minicondaFolder, EnvPythonExec(c, sep, folder))
  {
    var folder := Join3(sep, minicondaFolder, "envs", name);
    Join3Under(sep, minicondaFolder, "envs", name);
    ExecutablesInsideFolder(c, sep, folder);
    UnderTransitive(sep, minicondaFolder, folder, EnvPythonExec(c, sep, folder));
  }
}
