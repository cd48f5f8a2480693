/** The platform resolver of ToL_install/condamanager.py: `CondaCommands`
    chooses between `CondaLinux` and `CondaWindows`, which give the silent
    install command line and the locations of `conda` and of the Python
    interpreter inside a Miniconda (or environment) folder. */
module Resolver {
  import opened Text
  import opened Paths

  datatype CondaCommands = CondaLinux | CondaWindows

  /** `CondaCommands()`: "Linux" and "MacOSX" get the UNIX conventions; a
      platform name that is a substring of "Windows" (the source tests
      `platform in ("Windows")`, which is a string, not a tuple) gets the
      Windows ones; any other name falls back to the UNIX ones. */
  function Dispatch(platform: string): CondaCommands {
    if platform == "Linux" || platform == "MacOSX" then CondaLinux
    else if IsSubstring(platform, "Windows") then CondaWindows
    else CondaLinux
  }

  /** The arguments the installer binary receives. */
  function InstallArgv(c: CondaCommands, installFile: string, installFolder: string): seq<string> {
    match c
    case CondaLinux => [installFile, "-b", "-p", installFolder]
    case CondaWindows =>
      [installFile, "/InstallationType=JustMe", "/RegisterPython=0", "/S", "/D=" + installFolder]
  }

  /** `get_install_command(install_file, install_folder)`. */
  function InstallCommand(c: CondaCommands, installFile: string, installFolder: string): (cmd: string)
    ensures StartsWith(cmd, installFile)
    ensures EndsWith(cmd, installFolder)
  {
    match c
    case CondaLinux => installFile + " " + "-b" + " " + "-p" + " " + installFolder
    case CondaWindows =>
      installFile + " " + "/InstallationType=JustMe" + " " + "/RegisterPython=0" + " " + "/S" + " " + "/D=" + installFolder
  }

  /** `get_conda_exec(install_folder)`. */
  function CondaExec(c: CondaCommands, sep: Separator, installFolder: string): string {
    match c
    case CondaLinux => Join3(sep, installFolder, "bin", "conda")
    case CondaWindows => Join3(sep, installFolder, "Scripts", "conda.exe")
  }

  /** `get_env_python_exec(install_folder)`. */
  function EnvPythonExec(c: CondaCommands, sep: Separator, installFolder: string): string {
    match c
    case CondaLinux => Join3(sep, installFolder, "bin", "python")
    case CondaWindows => Join(sep, installFolder, "python.exe")
  }

  /** The command line is the arguments joined by single spaces. */
  lemma InstallCommandIsJoin(c: CondaCommands, installFile: string, installFolder: string)
    ensures InstallCommand(c, installFile, installFolder) == JoinWith(" ", InstallArgv(c, installFile, installFolder))
  {
    var f, d := installFile, installFolder;
    match c
    case CondaLinux =>
      JoinSnoc(" ", [f], "-b");
      assert [f] + ["-b"] == [f, "-b"];
      JoinSnoc(" ", [f, "-b"], "-p");
      assert [f, "-b"] + ["-p"] == [f, "-b", "-p"];
      JoinSnoc(" ", [f, "-b", "-p"], d);
      assert [f, "-b", "-p"] + [d] == InstallArgv(c, f, d);
    case CondaWindows =>
      var justMe, noRegister, last := "/InstallationType=JustMe", "/RegisterPython=0", "/D=" + d;
      JoinSnoc(" ", [f], justMe);
      assert [f] + [justMe] == [f, justMe];
      JoinSnoc(" ", [f, justMe], noRegister);
      assert [f, justMe] + [noRegister] == [f, justMe, noRegister];
      JoinSnoc(" ", [f, justMe, noRegister], "/S");
      assert [f, justMe, noRegister] + ["/S"] == [f, justMe, noRegister, "/S"];
      JoinSnoc(" ", [f, justMe, noRegister, "/S"], last);
      assert [f, justMe, noRegister, "/S"] + [last] == InstallArgv(c, f, d);
      assert f + " " + justMe + " " + noRegister + " " + "/S" + " " + last == InstallCommand(c, f, d);
  }

  /** When neither path contains whitespace, `sub_call`'s splitting hands the
      installer exactly the intended arguments. */
  lemma InstallCommandArgv(c: CondaCommands, installFile: string, installFolder: string)
    requires IsWord(installFile) && IsWord(installFolder)
    ensures Split(InstallCommand(c, installFile, installFolder)) == InstallArgv(c, installFile, installFolder)
  {
    InstallCommandIsJoin(c, installFile, installFolder);
    InstallArgvWords(c, installFile, installFolder);
    SplitJoin(InstallArgv(c, installFile, installFolder));
  }

  /** Every installer argument is a whitespace-free token when the paths are. */
  lemma InstallArgvWords(c: CondaCommands, installFile: string, installFolder: string)
    requires IsWord(installFile) && IsWord(installFolder)
    ensures var argv := InstallArgv(c, installFile, installFolder);
      forall i :: 0 <= i < |argv| ==> IsWord(argv[i])
  {
    var argv := InstallArgv(c, installFile, installFolder);
    match c
    case CondaLinux =>
      assert IsWord("-b") && IsWord("-p");
    case CondaWindows =>
      var last := "/D=" + installFolder;
      assert IsWord(last) by {
        forall i | 0 <= i < |last| ensures !IsSpace(last[i]) {
          if i >= 3 {
            assert last[i] == installFolder[i - 3];
          }
        }
      }
      VisibleWord("/InstallationType=JustMe");
      VisibleWord("/RegisterPython=0");
      VisibleWord("/S");
      forall i | 0 <= i < |argv| ensures IsWord(argv[i]) {
        if i == 4 { assert argv[i] == last; }
      }
  }

  /** Both executables lie inside the folder they are resolved against, and
      the interpreter of the UNIX layout sits next to `conda` in `bin`. */
  lemma ExecutablesInsideFolder(c: CondaCommands, sep: Separator, folder: string)
    ensures Under(sep, folder, CondaExec(c, sep, folder))
    ensures Under(sep, folder, EnvPythonExec(c, sep, folder))
    ensures c == CondaLinux ==> Under(sep, Join(sep, folder, "bin"), CondaExec(c, sep, folder)) &&
                                Under(sep, Join(sep, folder, "bin"), EnvPythonExec(c, sep, folder))
    ensures c == CondaWindows ==> Under(sep, Join(sep, folder, "Scripts"), CondaExec(c, sep, folder))
  {
    match c
    case CondaLinux =>
      Join3Under(sep, folder, "bin", "conda");
      Join3Under(sep, folder, "bin", "python");
    case CondaWindows =>
      Join3Under(sep, folder, "Scripts", "conda.exe");
      JoinUnder(sep, folder, "python.exe");
  }

  /** For a folder that does not end with the separator, the executables are
      the folder extended by fixed components. */
  lemma ExecutableLayout(c: CondaCommands, sep: Separator, folder: string)
    requires folder != [] && folder[|folder| - 1] != sep
    ensures c == CondaLinux ==>
      CondaExec(c, sep, folder) == folder + [sep] + "bin" + [sep] + "conda" &&
      EnvPythonExec(c, sep, folder) == folder + [sep] + "bin" + [sep] + "python"
    ensures c == CondaWindows ==>
      CondaExec(c, sep, folder) == folder + [sep] + "Scripts" + [sep] + "conda.exe" &&
      EnvPythonExec(c, sep, folder) == folder + [sep] + "python.exe"
  {
  }

  /** The names of the three known platforms dispatch as intended. */
  lemma DispatchKnownPlatforms()
    ensures Dispatch("Linux") == CondaLinux
    ensures Dispatch("MacOSX") == CondaLinux
    ensures Dispatch("Windows") == CondaWindows
  {
    assert StartsWith("Windows", "Windows");
  }

  /** The Windows conventions are chosen exactly for the names that occur
      inside "Windows"; every other name gets the UNIX conventions. */
  lemma DispatchWindowsIff(platform: string)
    ensures Dispatch(platform) == CondaWindows <==> exists i :: OccursAt(platform, "Windows", i)
  {
    SubstringAt(platform, "Windows");
    if platform == "Linux" || platform == "MacOSX" {
      forall i | 0 <= i <= |"Windows"| - |platform| ensures !OccursAt(platform, "Windows", i) {
        assert platform[0] != "Windows"[i];
      }
    }
  }

  /** Consequences of the substring test: a truncated name such as "Win" or
      an empty name selects the Windows installer, while a name such as
      "FreeBSD" falls back to UNIX. */
  lemma DispatchSubstringCases()
    ensures Dispatch("Win") == CondaWindows
    ensures Dispatch("") == CondaWindows
    ensures Dispatch("FreeBSD") == CondaLinux
  {
    assert OccursAt("Win", "Windows", 0);
    assert OccursAt("", "Windows", 0);
    DispatchWindowsIff("Win");
    DispatchWindowsIff("");
    DispatchWindowsIff("FreeBSD");
    assert !OccursAt("FreeBSD", "Windows", 0) by {
      assert "Windows"[0..7][0] != "FreeBSD"[0];
    }
  }
}
