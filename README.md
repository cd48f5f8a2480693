# TreeOfLife installer core in Dafny

This project models the deterministic core of the TreeOfLife bootstrap
installer. The installer downloads Miniconda, installs it silently, creates
the project's conda environment from a `.yml` descriptor, writes launcher
scripts into `bin/`, and records the installation in a registry file. The
model covers these parts and proves properties about them:

- `CondaManager` of `ToL_install/condamanager.py` (module `Conda`, class
  `Conda.CondaManager`), whose setters the older install/condamanager.py
  repeats line for line apart from the defects listed under "## Left out":
  - the paths it derives at construction;
  - the `env_file`, `env_version`, `conda_exec` and `env_folder` setters,
    including the scan of the descriptor's lines for `name:` and
    `# version:`;
  - the search for a previous Miniconda folder;
  - the `conda` command lines run by `install_miniconda`, `install_env`,
    `install_package`, `logs_*`, `add_install_folder_to_site_packages` and
    `remove_env`.
- The platform resolver `CondaCommands` / `CondaLinux` / `CondaWindows`
  (module `Resolver`). The older revision's inline choices are proved to
  agree with it.
- The validation, line scan and integer gate behind the descriptor setters
  (module `EnvDescriptor`).
- The helpers of `install/commons.py` (module `Commons`):
  - the free-disk-space decision and the byte-to-GiB truncation;
  - how `sub_call` tokenises its line and what it returns;
  - the text of `installation_vars.py`;
  - `create_executables` and `change_permissions_777` over a file store
    (class `Commons.FileStore`).
- `DisplayMessage` and the fixed-width title helpers of
  `ToL_install/messages.py` (module `Messages`).
- Shared modules:
  - `Text` models the Python string operations the code uses: `split`,
    `strip`, `" ".join`, `split(c)`, `splitlines`, `upper` on ASCII, and
    `format` centring.
  - `Paths` models `os.path.join` and "inside a folder".
  - `Py` models Python attributes that were never assigned, set to `None`,
    or set to a value, and a file-system snapshot.

The model treats the operating system as parameters:
- `run` is the process runner: it maps an argument list to "executable not
  found", to "could not be started" (any other `OSError`), or to an exit
  status and an output.
- `fs` and `installed` are file-system snapshots.
- `parseFloat` is `float()` on text; `dedent` and `wrap` stand for `textwrap`.

`sys_exit` becomes the `Aborted` outcome. An exception that escapes becomes
`Raised(...)`.

## Model

| member | source | states |
|---|---|---|
| Resolver.DispatchWindowsIff | ToL_install/condamanager.py:48-54 | The Windows conventions are chosen exactly when the platform name occurs as a substring of "Windows" (the `in ("Windows")` test is on a string, not a tuple); every other name gets the UNIX ones |
| Resolver.DispatchKnownPlatforms | ToL_install/condamanager.py:48-54 | Linux and MacOSX dispatch to `CondaLinux`, Windows to `CondaWindows` |
| Resolver.DispatchSubstringCases | ToL_install/condamanager.py:48-54 | Consequences of the substring test: "Win" and "" pick the Windows installer, and "FreeBSD" falls back to UNIX |
| Resolver.InstallCommand | ToL_install/condamanager.py:61-62 | The silent-install command line starts with the installer path and ends with the target folder |
| Resolver.InstallCommandIsJoin | ToL_install/condamanager.py:61-80 | The command line is the installer's argument list joined by single spaces, for both platforms |
| Resolver.InstallCommandArgv | ToL_install/condamanager.py:61-80 | When neither path contains whitespace, splitting the command line gives back exactly the installer's arguments (`-b -p <folder>`, or `/InstallationType=JustMe /RegisterPython=0 /S /D=<folder>`) |
| Resolver.InstallArgvWords | ToL_install/condamanager.py:75-80 | Every installer argument is a non-empty, whitespace-free token when the paths are |
| Resolver.ExecutablesInsideFolder | ToL_install/condamanager.py:64-68 | `conda` and the interpreter lie strictly inside the folder they are resolved against: in `bin` on UNIX, `conda.exe` in `Scripts` on Windows |
| Resolver.ExecutableLayout | ToL_install/condamanager.py:64-90 | For a folder without a trailing separator the paths are `<folder>/bin/conda`, `<folder>/bin/python`, `<folder>\Scripts\conda.exe` and `<folder>\python.exe` |
| Conda.LegacyAgreesWithResolver | install/condamanager.py:395-465 | The older revision's inline command line and `conda`/interpreter paths equal the resolver's for every platform name |
| Conda.InstallerFileNameRoundTrip | install/condamanager.py:66-70 | `Miniconda3-latest-<platform>-<bits>.<ext>` determines its platform, word size and extension |
| Conda.ManagerLayout | install/condamanager.py:77-85 | The installer path and the Miniconda folder lie inside the installation folder, and the installer keeps its file name |
| Conda.CondaManager.constructor | ToL_install/condamanager.py:141-190 | The installation folder is `cwd` when given, else the current directory; it derives the installer path, the Miniconda folder and the platform commands; the environment attributes are left unassigned |
| Conda.CondaManager.Init | ToL_install/condamanager.py:185-186 | Construction ends with the `env_file` setter: None clears the file, name and version; a refused file raises `ValueError`; an accepted one is scanned from unassigned name and version |
| Conda.CondaManager.SetEnvFile | ToL_install/condamanager.py:247-306 | None clears file, name and version. A refused argument raises `ValueError` with the first failed test's message and changes nothing. An accepted file is stored and its lines are scanned: the result is the scan's name and version, or an abort exactly when the scan aborts |
| Conda.CondaManager.SetEnvVersion | ToL_install/condamanager.py:360-386 | None is stored as None; a text that `int` accepts is stored; any other text aborts and leaves the version unchanged; nothing else changes |
| Conda.CondaManager.SetCondaExec | ToL_install/condamanager.py:313-329 | Completes exactly when the path exists, storing it; otherwise aborts with `conda_exec` unchanged; the other attributes never change |
| Conda.CondaManager.SetEnvFolder | ToL_install/condamanager.py:393-408 | Completes exactly when the folder exists, storing it; otherwise aborts with `env_folder` unchanged; the other attributes never change |
| Conda.CondaManager.InstallMiniconda | ToL_install/condamanager.py:474-493 | Completes exactly when the install command succeeds and the resolved `conda` exists afterwards. Then `conda_exec` and `env_python_exec` are the resolver's paths inside the Miniconda folder. The descriptor attributes never change |
| Conda.CondaManager.InstallEnv | ToL_install/condamanager.py:543-576 | No name means nothing to do. An unassigned name raises `AttributeError`. Completes exactly when `conda env create -f <file>` succeeds and `<miniconda>/envs/<name>` exists; then it is `env_folder`, and its interpreter is `env_python_exec`. On failure both keep their old values |
| Conda.EnvironmentLayout | install/condamanager.py:536-558 | After installation the environment folder lies inside the Miniconda folder, and the environment's interpreter inside both |
| Conda.CondaManager.LogsEnvInformation | ToL_install/condamanager.py:578-600 | Skips exactly when the name is None; otherwise runs `conda list -n <name>`, or raises `AttributeError` for a missing attribute |
| Conda.CondaManager.RemoveEnv | ToL_install/condamanager.py:628-646 | Skips exactly when the name is None; otherwise runs `conda remove -vy --name <name> --all`, or raises `AttributeError` for a missing attribute |
| Conda.CondaManager.LogsPackageInstallation | ToL_install/condamanager.py:525-541 | Runs `conda list <package name>` with the version stripped, or raises `AttributeError` when `conda_exec` was never set |
| Conda.CondaManager.InstallPackage | ToL_install/condamanager.py:495-523 | Runs `conda install -y <package>` and logs the installation only after that command succeeded |
| Conda.CondaManager.AddInstallFolderToSitePackages | ToL_install/condamanager.py:602-626 | Runs `conda develop -p <env folder> <install folder>`. An unassigned attribute raises `AttributeError`, and a None in the joined list raises `TypeError` |
| Conda.RunCommandOutcomes | install/commons.py:273-311 | A manager command completes exactly when its tokens start a process that exits with 0. It aborts exactly when the executable is missing or the exit status is non-zero, raises `IndexError` exactly on a blank line, and raises `OSError` exactly when the process cannot be started for another reason |
| Conda.PreviousFolderDecision | ToL_install/condamanager.py:411-453 | No matching sub-folder gives False; exactly one gives its name; two or more abort |
| Conda.DefaultPatternExamples | ToL_install/condamanager.py:411 | `[M\|m]iniconda.*` matches at the start only, accepts `\|` as a first letter, and needs all of "iniconda" |
| Conda.Filter | ToL_install/condamanager.py:443-447 | The kept names are exactly the listed ones the test accepts, without repeats, and all of them when all pass |
| Conda.PackageName | ToL_install/condamanager.py:530 | The name has no `=` and is the package text up to its first `=` (or all of it) |
| Conda.PackageNameCases | ToL_install/condamanager.py:530 | `name` and `name=version` both give `name` |
| Conda.EnvCreateArguments | ToL_install/condamanager.py:555-558 | `conda env create -f <file>` reaches the process as those five arguments |
| Conda.RemoveEnvArguments | ToL_install/condamanager.py:639-642 | `conda remove -vy --name <name> --all` reaches the process as those six arguments |
| Conda.ListEnvArguments | ToL_install/condamanager.py:590-593 | `conda list -n <name>` reaches the process as those four arguments |
| Conda.InstallPackageArguments | ToL_install/condamanager.py:510-513 | `conda install -y <package>` reaches the process as those four arguments |
| Conda.ListPackageArguments | ToL_install/condamanager.py:530-535 | The package query reaches the process as `conda`, `list` and the version-free name |
| Conda.DevelopArguments | ToL_install/condamanager.py:611-619 | `conda develop -p <env folder> <install folder>` reaches the process as those five arguments |
| EnvDescriptor.ValidateAccepts | ToL_install/condamanager.py:264-275 | A descriptor is accepted exactly when it is a string naming an existing regular file ending in `.yml` |
| EnvDescriptor.ValidateReportsFirstFailure | ToL_install/condamanager.py:264-302 | Validation never crashes. A refusal names the first failed test, in the order string, `.yml`, exists, is a file |
| EnvDescriptor.ErrorMessage | ToL_install/condamanager.py:288-302 | Only the "not a string" refusal carries the message "Miniconda env file name not a string" |
| EnvDescriptor.AsWrittenNeverReportsNotAString | ToL_install/condamanager.py:264-289 | As written, the "not a string" refusal is unreachable and a non-string crashes. It agrees with the corrected validation on strings |
| EnvDescriptor.VersionGate | ToL_install/condamanager.py:365-384 | None gives None; a text is kept exactly when `int` parses it; otherwise the setter aborts |
| EnvDescriptor.ParsesAsIntExamples | ToL_install/condamanager.py:365-366 | `int` accepts "3", "-12" and "1_000" and refuses "", "1.0", "1__0", "_1" and "version:" |
| EnvDescriptor.LastToken | ToL_install/condamanager.py:281 | `line.strip().split()[-1]` is the last whitespace-free token of the line |
| EnvDescriptor.LineKindsExclusive | ToL_install/condamanager.py:277-286 | A line is never both a `name:` line and a `# version:` line |
| EnvDescriptor.AbortIsFinal | ToL_install/condamanager.py:277-286 | Once the version setter aborts, later lines change nothing |
| EnvDescriptor.NameLastWins | ToL_install/condamanager.py:277-286 | The name after the scan is the last token of the last `name:` line |
| EnvDescriptor.NameUntouched | ToL_install/condamanager.py:277-286 | Without a `name:` line the name keeps its earlier value |
| EnvDescriptor.VersionLastWins | ToL_install/condamanager.py:277-286 | The version after the scan is the last token of the last `# version:` line |
| EnvDescriptor.VersionUntouched | ToL_install/condamanager.py:277-286 | Without a `# version:` line the version keeps its earlier value |
| EnvDescriptor.StepAbortsIff | ToL_install/condamanager.py:277-286 | One line aborts a live scan exactly when it is a version line whose token `int` refuses |
| EnvDescriptor.BadLineAborts | ToL_install/condamanager.py:277-286 | A bad version line anywhere in the file aborts the scan |
| EnvDescriptor.AbortExtends | ToL_install/condamanager.py:277-286 | A scan whose prefix aborted has aborted |
| EnvDescriptor.BadLastLine | ToL_install/condamanager.py:277-286 | A bad version line after any prefix aborts |
| EnvDescriptor.AbortHasBadLine | ToL_install/condamanager.py:277-286 | Conversely, a scan that aborts has a bad version line, and every line before the first one is good |
| EnvDescriptor.ScanKeepsVersionParsable | ToL_install/condamanager.py:277-286 | A version stored by the scan always parses as an integer |
| EnvDescriptor.NameLineToken | ToL_install/condamanager.py:280-282 | `name: <env>` is a name line whose token is `<env>` |
| EnvDescriptor.VersionLineToken | ToL_install/condamanager.py:284-286 | `# version: <v>` is a version line whose token is `<v>` |
| EnvDescriptor.ScanExample | ToL_install/condamanager.py:277-286 | A descriptor with `name:`, another line and `# version:` gives that name and version |
| Commons.ToFloat | install/commons.py:82-87 | `float()` raises `TypeError` exactly on None, and `ValueError` only on text it cannot parse |
| Commons.DiskSpaceFinite | install/commons.py:102-107 | With a finite threshold the answer is "enough" exactly when free space is strictly greater; equal counts as not enough |
| Commons.DiskSpaceAborts | install/commons.py:79-113 | The check aborts exactly on an unparsable threshold or on NaN (the unexpected branch). It raises only when both argument and default are None |
| Commons.FalsyMeansDefault | install/commons.py:79 | A falsy `min_space` (None, 0, 0.0, "") is replaced by the default; a truthy one is used as it is |
| Commons.BytesToGiB | install/commons.py:127-138 | The result is the whole number of GiB in the byte count, truncated |
| Commons.FreeSpaceGB | install/commons.py:93-98 | On "Windows" the result is the Windows free bytes in GiB, elsewhere `f_frsize * f_bavail` in GiB, truncated |
| Commons.Tokenize | install/commons.py:287 | `strip().split()` gives whitespace-free tokens and equals `split()` alone |
| Commons.SubCall | install/commons.py:273-311 | Returns the output exactly when the process exits with 0. It aborts exactly when the executable is missing (`FileNotFoundError`) or the status is non-zero (`CalledProcessError`). It raises exactly on an empty argument list, or lets the `OSError` of a process that cannot start escape |
| Commons.TokenizeJoin | install/commons.py:273-311 | A line joined with single spaces from whitespace-free tokens is tokenised back into exactly those tokens |
| Commons.PathLiteralRoundTrip | install/commons.py:404-407 | Reading a `Path(r'...')` field back gives the path when one was given, and None for None or "" |
| Commons.RegistryFile | install/commons.py:376 | The registry is `installation_vars.py` inside the installation folder |
| Commons.RegistryLinesSingle | install/commons.py:381-410 | When no value spans lines, no registry line holds a line break |
| Commons.RegistryTextLines | install/commons.py:381-414 | Reading the file back line by line gives the header, then `<variable> = <value>` for the eight variables in their fixed order, then nothing |
| Commons.Mode777 | install/commons.py:223 | `S_IRWXU \| S_IRWXG \| S_IRWXO` is 0o777 (511) |
| Commons.LauncherContentLayout | install/commons.py:352 | A launcher is the shebang's opening, then the interpreter path in the template's field, then the launcher's code |
| Commons.ShebangInterpreter | install/commons.py:352 | When the template breaks the line after its field, the rest of the shebang line is exactly the interpreter path |
| Commons.WriteLaunchersStopIsFinal | install/commons.py:345-357 | Once a launcher cannot be opened, no later launcher is written |
| Commons.WriteLaunchersFrame | install/commons.py:345-357 | Paths that are not launcher targets keep their entry |
| Commons.WriteLaunchersContent | install/commons.py:345-357 | After a complete run every launcher holds its filled template and code, with mode 0o777 |
| Commons.WriteLaunchersCompletes | install/commons.py:345-357 | A run completes exactly when `bin` is a directory (or nothing is written) and no target is a directory |
| Commons.CreateExecutablesPlacesLaunchers | install/commons.py:314-359 | After `create_executables` each launcher lies at `<folder>/bin/<name>`, inside the installation folder, with its content and mode 0o777 |
| Commons.CreateExecutablesCompletes | install/commons.py:314-359 | `create_executables` completes exactly when `bin` exists or can be made in the folder, `bin` is a directory when written to, and no launcher path is a directory |
| Commons.FileStore.ChangePermissions777 | install/commons.py:216-234 | A missing path aborts and changes nothing; otherwise only that path's mode becomes 0o777 |
| Commons.FileStore.CreateExecutables | install/commons.py:314-359 | The store after the call and the success flag are those of the `create_executables` specification |
| Commons.FileStore.WriteLaunchersInto | install/commons.py:345-357 | The loop over the launchers leaves the store that writing them in order gives, and reports whether every one was written |
| Messages.StampOf | ToL_install/messages.py:63 | A missing or empty stamp gives ""; otherwise the stamp upper-cased, followed by one space |
| Messages.TitleLineShape | ToL_install/messages.py:93-101 | The title line is `width` long unless the padded title is longer; trimming the fill gives back ` TITLE ` |
| Messages.FooterLine | ToL_install/messages.py:118-120 | The footer is `width` fill characters when wanted, otherwise empty |
| Messages.BodyLinesStampSegments | ToL_install/messages.py:103-114 | The body lines are the stamp before every wrapped segment, in order; a source line that wraps to nothing adds no line |
| Messages.Joined | ToL_install/messages.py:77-86 | The message is the three parts and two line breaks |
| Messages.JoinedParts | ToL_install/messages.py:77-86 | Splitting the message at its line breaks gives the title, the body lines (one empty line when there are none) and the footer |
| Messages.DisplayMessage.constructor | ToL_install/messages.py:49-75 | Stores the options and builds the title, body and footer as `maketitle`, `makemsg` and `makefooter` define them |
| Messages.DisplayMessage.MakeTitle | ToL_install/messages.py:93-101 | The title line is the upper-cased title centred in the fill; no title gives "" |
| Messages.DisplayMessage.MakeMsg | ToL_install/messages.py:103-116 | The body is the stamped wrapped segments joined by line breaks; title and footer are untouched |
| Messages.DisplayMessage.MakeFooter | ToL_install/messages.py:118-120 | With a footer, `width` fill characters; without, the footer is left as it was |
| Messages.MainTitleShape | ToL_install/messages.py:134-138 | Three lines: 72 stars, the upper-cased title centred between `*** ` and ` ***` (72 wide for titles up to 64), 72 stars. Trimming the spaces gives back the title |
| Messages.ShortTitleShape | ToL_install/messages.py:141-146 | One line ending in a line break, 72 wide for titles up to 70; trimming the stars gives back ` TITLE ` |

## Left out

- Downloading the installer (`urljoin`, the retrying download, `reporthook`) and `MinicondaWebLinks` are not modelled: they are network I/O.
- `remove_folders`, logging, `user_input` and the module entry points are not modelled; they do no computation the core relies on.
- `sys_exit` is the `Aborted` outcome; its message and exit code are not modelled.
- The operating system is represented by parameters: `run` for processes, `fs`/`installed` snapshots for `os.path`, a map of nodes for files written by `create_executables`.
- `Commons.Float`: `float` values are exact reals plus infinities and NaN. Rounding, and integer-to-float conversion of very large byte counts, are not modelled.
- `EnvDescriptor.ParsesAsInt`: `int()` is modelled on ASCII digits with an optional sign and single underscores. Leading and trailing whitespace never reaches it (it receives `split()` tokens). Non-ASCII digits are not modelled.
- `Text.Upper` upper-cases ASCII letters only.
- `textwrap.dedent` and `textwrap.wrap` are parameters; `_formats_message_body` (built on `textwrap.fill`) is not modelled for the same reason.
- `Conda.CondaManager.SetEnvFile`: the descriptor's lines are a parameter, standing for what `for line in f` yields, and are not tied to `fs`. Errors from `open` or from reading and decoding the file (`PermissionError`, `UnicodeDecodeError`) are not modelled: the source would raise them with `_env_file` already stored and any name or version from earlier lines kept, while the model completes every accepted file that scans without an abort. The same holds for `Conda.CondaManager.Init`.
- `Conda.CondaManager.SetEnvVersion`: the value is kept as the text that `int` accepted, not converted to an integer, as the code does.
- The ToL `CondaCommands` and `CondaManager` read the names `system` and `platform`, which that module does not define. The model reads both as the host's platform name, which is what the older revision does.
- The older revision's `install_miniconda` calls `self.set_conda_exec` on UNIX hosts (install/condamanager.py:453), a method the class does not define. The model uses the `conda_exec` setter, which is the evident intent.
- The older revision's `env_file` setter calls `all()` with four arguments instead of one tuple (install/condamanager.py:189-194), which raises `TypeError` for every argument other than None. `Conda.CondaManager.SetEnvFile` models the newer revision's setter, which passes a tuple; the older setter's `TypeError` is not reproduced.
- `ToL_install/condamanager.py` uses the names `commons` (for `sub_call` and `sys_exit`, e.g. lines 324, 487, 515, 562, 644) and `messages` (e.g. lines 321-323, 402-404), which it never imports; it imports `ToLCOMM` and `ToLMSG` instead. As written, every abort path and every command there raises `NameError`. The model gives those calls the behaviour of `install/commons.py`: `Aborted` for `sys_exit` and `Conda.RunCommand` for `sub_call`.
- `ToL_install/condamanager.py:169-176` reads `self.miniconda_base_web_link` and `self.miniconda_web_file`, which the newer class never defines. `Conda.CondaManager.constructor` takes the installer's name from the older revision (install/condamanager.py:66-70), `Miniconda3-latest-<platform>-<bits>.<ext>`.
- The newer revision's `install_package` calls `logs_package_installation` without `self.`, a name the module does not define. The model calls the method, which is the evident intent.
- The assignment `self.env_nane = 'treeoflife'` (install/condamanager.py:87, ToL_install/condamanager.py:184) sets a misspelt attribute that nothing reads, so the model leaves it out; `env_name` comes only from the `env_file` setter.
- `Conda.Subfolders`: `os.listdir` names are tested with `os.path.isdir` as they are, relative to the process's current directory, as the code does.
- `Conda.Host`: the word size is the text `str.format` gives it; the platform is any string.
- `Paths.Join`: `os.path.join` is modelled with POSIX rules over the host's separator. Drive letters and `ntpath` rules are not modelled.
- `Commons.FileStore`: the store is a flat map from path to node. Parent directories of files are not checked except for `bin`, and permission bits other than those written are not modelled.
- `Messages.DisplayMessage.constructor`: `msgchar` is one character other than a brace, which the only caller's default `'*'` is. Empty or multi-character fills, and a brace fill with no title (which the source accepts because it then never calls `format`), are not modelled.
- `Conda.RunCommand`: the command's captured output is only logged by the code, so the outcome does not carry it. The `.decode("utf-8")` applied to it (ToL_install/condamanager.py:515, 537, 596, 621) is not modelled: an output that is not valid UTF-8 would raise `UnicodeDecodeError` there, which the model does not produce.

## Findings

| source | as written | input that shows it | evidently intended | confidence | as-written member | corrected member |
|---|---|---|---|---|---|---|
| ToL_install/condamanager.py:264-271 | The tuple given to `all()` is built before `all` runs, so `env_file.endswith('.yml')` is called even when `env_file` is not a string | `env_file = 3` raises `AttributeError` instead of `ValueError("Miniconda env file name not a string")` | The tests short-circuit, so a non-string reaches the "not a string" refusal | not executed | EnvDescriptor.AsWrittenNeverReportsNotAString | EnvDescriptor.ValidateReportsFirstFailure |
