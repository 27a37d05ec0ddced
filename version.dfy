/** The `version` binary (src/bin/version.rs): resolve the data directory,
    validate and read `<dir>/var/version`, and print a report or an error. */
module Version {
  import opened Wrappers
  import opened Paths
  import opened Constants
  import opened Whitespace
  import opened FileUtils
  import opened DirectoryUtils

  const CLI_VERSION_FILE: string := "version"
  const HEADER: string := "SDKRAN!"
  const NOT_FOUND_MESSAGE: string := "CLI version file not found."
  const READ_FAILURE_PREFIX: string := "Failed to read file content: "
  const RESOLUTION_FAILURE_PREFIX: string := "Failed to infer SDKMAN directory: "
  const CHECK_FAILURE_PREFIX: string := "Failed to check file existence: "

  /** Build-time and platform constants: `CARGO_PKG_VERSION`,
      `std::env::consts::OS` and `std::env::consts::ARCH`. */
  datatype Build = Build(nativeVersion: string, os: string, arch: string)

  /** Everything the program observes. */
  datatype Inputs = Inputs(vars: Environment, home: Option<Path>, fs: FileSystem, build: Build)

  /** How a run ends: `process::exit(code)` or falling off the end of `main`
      (code 0) after writing `lines`, or a panic before anything is written. */
  datatype RunOutcome = Exit(code: int, lines: seq<string>) | Panic {
    function Lines(): seq<string> {
      if Exit? then lines else []
    }
  }

  /** The line `print_error` writes. */
  function ErrorLine(message: string): string {
    "Error: " + message
  }

  /** An error line is `Error: ` followed by the message intact. */
  lemma ErrorLineLayout(message: string)
    ensures |ErrorLine(message)| == 7 + |message|
    ensures ErrorLine(message)[..7] == "Error: " && ErrorLine(message)[7..] == message
  {
  }

  /** The text `println!` writes after the header, before its own newline. */
  function ReportText(version: string, build: Build): string {
    "script: " + version + "\nnative: " + build.nativeVersion + " (" + build.os + " " + build.arch + ")\n"
  }

  /** A report is the version right after `script: `, then `\nnative: `, and
      the platform in parentheses closing the last line. */
  lemma ReportTextLayout(version: string, build: Build)
    ensures var r := ReportText(version, build);
      |r| == 17 + |version| + |build.nativeVersion| + |build.os| + |build.arch| + 5
      && r[..8] == "script: "
      && r[8..8 + |version|] == version
      && r[8 + |version|..17 + |version|] == "\nnative: "
      && r[|r| - 2..] == ")\n"
  {
  }

  /** The report names the version it was given: two reports on the same
      build are equal only for the same version. */
  lemma ReportDeterminesVersion(version: string, version': string, build: Build)
    requires ReportText(version, build) == ReportText(version', build)
    ensures version == version'
  {
    var r := ReportText(version, build);
    ReportTextLayout(version, build);
    ReportTextLayout(version', build);
    assert |version| == |version'|;
    assert version == r[8..8 + |version|] == version';
  }

  /** The characters on standard output for a sequence of written lines, each
      ended by the newline `writeln!`/`println!` adds. */
  function StdoutText(lines: seq<string>): string {
    if lines == [] then "" else lines[0] + "\n" + StdoutText(lines[1..])
  }

  /** `sdkman_dir.join(VAR_DIR).join(CLI_VERSION_FILE)`. */
  function VersionFilePath(dir: Path): (p: Path)
    ensures p.segments == dir.segments + [VAR_DIR, CLI_VERSION_FILE]
  {
    Join(Join(dir, VAR_DIR), CLI_VERSION_FILE)
  }

  /** Reference description of the data directory: the `SDKMAN_DIR` text when
      it is set and valid Unicode, else the home directory followed by
      `.sdkman`, and none when neither exists. */
  function BaseDir(inputs: Inputs): Option<Path> {
    var v := EnvVar(inputs.vars, SDKMAN_DIR_ENV_VAR);
    if v.Ok? then Some(FromString(v.value))
    else if inputs.home.Some? then Some(Path(inputs.home.value.segments + [DEFAULT_SDKMAN_HOME]))
    else None
  }

  /** Resolution agrees with the reference description: it panics exactly
      when there is no data directory and otherwise returns it. */
  lemma ResolvedDirectory(inputs: Inputs)
    ensures InferSdkmanDir(inputs.vars, inputs.home).Panicked? <==> BaseDir(inputs).None?
    ensures BaseDir(inputs).Some? ==>
      InferSdkmanDir(inputs.vars, inputs.home) == Returned(Ok(BaseDir(inputs).value))
  {
  }

  /** `main`, with the intended two-outcome existence check: a validated path
      is read, a refused one ends with the not-found message. */
  function Run(inputs: Inputs): (r: RunOutcome)
    ensures r.Panic? <==> BaseDir(inputs).None?
    ensures BaseDir(inputs).Some? ==>
      var path := Path(BaseDir(inputs).value.segments + [VAR_DIR, CLI_VERSION_FILE]);
      var read := ReadToString(inputs.fs, path);
      if !IsRegularFile(inputs.fs, path) then
        r == Exit(1, [ErrorLine(NOT_FOUND_MESSAGE)])
      else if read.Err? then
        r == Exit(1, [ErrorLine(READ_FAILURE_PREFIX + read.error.message)])
      else if AllWhitespace(read.value) then
        r == Exit(1, [ErrorLine(READ_FAILURE_PREFIX + "File is empty")])
      else
        r == Exit(0, [HEADER, ReportText(Trim(read.value), inputs.build)])
  {
    match InferSdkmanDir(inputs.vars, inputs.home)
    case Panicked => Panic
    case Returned(Err(e)) => Exit(1, [ErrorLine(RESOLUTION_FAILURE_PREFIX + VarErrorText(e))])
    case Returned(Ok(dir)) =>
      var file := VersionFilePath(dir);
      match CheckFileExists(inputs.fs, file)
      case Err(_) => Exit(1, [ErrorLine(NOT_FOUND_MESSAGE)])
      case Ok(_) =>
        match ReadFileContent(inputs.fs, file)
        case Err(e) => Exit(1, [ErrorLine(READ_FAILURE_PREFIX + e.message)])
        case Ok(version) =>
          Exit(0, [HEADER, ReportText(version, inputs.build)])
  }

  /** Every run ends in a panic, a success with code 0, or a failure with
      code 1 that writes one `Error: ` line and none of the success output. */
  lemma RunOutcomeShape(inputs: Inputs)
    ensures Run(inputs).Exit? ==> Run(inputs).code == 0 || Run(inputs).code == 1
    ensures Run(inputs).Exit? && Run(inputs).code == 1 ==>
      |Run(inputs).lines| == 1
      && exists message :: Run(inputs).lines[0] == ErrorLine(message)
    ensures Run(inputs).Exit? && Run(inputs).code == 1 ==> HEADER !in Run(inputs).lines
    ensures Run(inputs).Exit? && Run(inputs).code == 0 ==>
      |Run(inputs).lines| == 2 && Run(inputs).lines[0] == HEADER
  {
    var r := Run(inputs);
    if r.Exit? && r.code == 1 {
      var message :| r.lines[0] == ErrorLine(message);
      assert ErrorLine(message)[0] == 'E' && HEADER[0] == 'S';
    }
  }

  /** On success the text of standard output, colour escapes aside, is
      exactly the header line, then `script: <version>`, then
      `native: <N> (<os> <arch>)`, then a blank line, where the version is the
      trimmed, non-empty file content. */
  lemma SuccessOutput(inputs: Inputs)
    requires Run(inputs).Exit? && Run(inputs).code == 0
    ensures exists version ::
      version != [] && IsTrimmed(version)
      && StdoutText(Run(inputs).lines) ==
         HEADER + "\n" + "script: " + version + "\nnative: " + inputs.build.nativeVersion
         + " (" + inputs.build.os + " " + inputs.build.arch + ")\n" + "\n"
  {
    var path := Path(BaseDir(inputs).value.segments + [VAR_DIR, CLI_VERSION_FILE]);
    var content := ReadToString(inputs.fs, path).value;
    var version := Trim(content);
    TrimIsTrimmed(content);
    assert Run(inputs).lines == [HEADER, ReportText(version, inputs.build)];
    SuccessText(version, inputs.build);
  }

  /** The two success lines as the characters written. */
  lemma SuccessText(version: string, b: Build)
    ensures StdoutText([HEADER, ReportText(version, b)]) ==
      HEADER + "\n" + "script: " + version + "\nnative: " + b.nativeVersion
      + " (" + b.os + " " + b.arch + ")\n" + "\n"
  {
    var lines := [HEADER, ReportText(version, b)];
    assert lines[1..] == [ReportText(version, b)] && lines[1..][1..] == [];
    assert StdoutText(lines[1..]) == ReportText(version, b) + "\n" + StdoutText([]);
    assert StdoutText(lines) == HEADER + "\n" + StdoutText(lines[1..]);
  }

  /** The branch reporting that the data directory could not be inferred is
      never taken: resolution either returns a directory or panics. */
  lemma ResolutionErrorUnreachable(inputs: Inputs, e: VarError)
    ensures Run(inputs).Lines() != [ErrorLine(RESOLUTION_FAILURE_PREFIX + VarErrorText(e))]
  {
    var r := Run(inputs);
    var bad := ErrorLine(RESOLUTION_FAILURE_PREFIX + VarErrorText(e));
    assert bad[7] == 'F' && bad[17] == 'i';
    if r.Exit? && |r.lines| == 1 {
      var line := r.lines[0];
      if line == ErrorLine(NOT_FOUND_MESSAGE) {
        assert line[7] == 'C';
      } else if line != HEADER {
        var path := Path(BaseDir(inputs).value.segments + [VAR_DIR, CLI_VERSION_FILE]);
        assert exists m :: line == ErrorLine(READ_FAILURE_PREFIX + m);
        assert line[17] == 'r';
      }
    }
  }

  /** The file is read only once it has been validated: whatever a
      non-regular entry at the version path would give when read, the run is
      the same. */
  lemma ReadOnlyAfterValidation(inputs: Inputs, dir: Path, kind: FileKind, read: Result<string, IoError>)
    requires BaseDir(inputs) == Some(dir)
    requires !IsRegularFile(inputs.fs, VersionFilePath(dir)) && kind != RegularFile
    ensures Run(inputs) == Run(inputs.(fs := inputs.fs[VersionFilePath(dir) := Entry(kind, read)]))
    ensures Run(inputs) == Exit(1, [ErrorLine(NOT_FOUND_MESSAGE)])
  {
  }

  /** The not-found message does not depend on where the data directory is. */
  lemma NotFoundIgnoresPath(inputs: Inputs, inputs': Inputs)
    requires BaseDir(inputs).Some? && BaseDir(inputs').Some?
    requires !IsRegularFile(inputs.fs, VersionFilePath(BaseDir(inputs).value))
    requires !IsRegularFile(inputs'.fs, VersionFilePath(BaseDir(inputs').value))
    ensures Run(inputs) == Run(inputs')
  {
  }

  /** `SDKMAN_DIR` set to `/tmp/sdk`, as in the end-to-end runs below. */
  function ScenarioInputs(home: Option<Path>, fs: FileSystem, build: Build): Inputs {
    Inputs(map[SDKMAN_DIR_ENV_VAR := Unicode("/tmp/sdk")], home, fs, build)
  }

  /** The version file the end-to-end runs use. */
  lemma ScenarioFile(home: Option<Path>, fs: FileSystem, build: Build)
    ensures BaseDir(ScenarioInputs(home, fs, build)) == Some(Path(["/tmp/sdk"]))
    ensures VersionFilePath(Path(["/tmp/sdk"])) == Path(["/tmp/sdk", "var", "version"])
  {
    assert ["/tmp/sdk"] + [VAR_DIR, CLI_VERSION_FILE] == ["/tmp/sdk", "var", "version"];
  }

  /** A version file holding `5.9.0`: exit 0 with `script: 5.9.0`. */
  lemma EndToEndFound(home: Option<Path>, build: Build)
    ensures
      var file := Path(["/tmp/sdk", "var", "version"]);
      Run(ScenarioInputs(home, map[file := Entry(RegularFile, Ok("5.9.0"))], build))
      == Exit(0, [HEADER, ReportText("5.9.0", build)])
  {
    var file := Path(["/tmp/sdk", "var", "version"]);
    ScenarioFile(home, map[file := Entry(RegularFile, Ok("5.9.0"))], build);
    assert IsTrimmed("5.9.0");
    TrimOfTrimmed("5.9.0");
  }

  /** No version file: exit 1 with the not-found message. */
  lemma EndToEndMissing(home: Option<Path>, build: Build)
    ensures Run(ScenarioInputs(home, map[], build)) == Exit(1, ["Error: " + "CLI version file not found."])
  {
    ScenarioFile(home, map[], build);
  }

  /** An empty version file: exit 1 with a read failure. */
  lemma EndToEndEmpty(home: Option<Path>, build: Build)
    ensures
      var file := Path(["/tmp/sdk", "var", "version"]);
      Run(ScenarioInputs(home, map[file := Entry(RegularFile, Ok(""))], build))
      == Exit(1, ["Error: " + "Failed to read file content: " + "File is empty"])
  {
    var file := Path(["/tmp/sdk", "var", "version"]);
    var fs := map[file := Entry(RegularFile, Ok(""))];
    ScenarioFile(home, fs, build);
    assert ReadToString(fs, file) == Ok("") && AllWhitespace("");
    assert Run(ScenarioInputs(home, fs, build)) == Exit(1, [ErrorLine(READ_FAILURE_PREFIX + "File is empty")]);
    assert ErrorLine(READ_FAILURE_PREFIX + "File is empty") == "Error: " + READ_FAILURE_PREFIX + "File is empty";
  }

  /* ---------------------------------------------------------------------- */
  /* The existence check as version.rs writes it                            */
  /* ---------------------------------------------------------------------- */

  /** `version.rs` matches the validator's answer against `Ok(true)`,
      `Ok(false)` and `Err(e)`, the shape of a validator returning a boolean.
      The current validator returns the path: its `Ok` plays `Ok(true)`. */
  function ExistenceAnswerAsWritten(checked: Result<Path, IoError>): (r: Result<bool, IoError>)
    ensures r != Ok(false)
    ensures checked.Err? ==> r == Err(checked.error)
  {
    match checked
    case Ok(_) => Ok(true)
    case Err(e) => Err(e)
  }

  /** `main` with the three-armed match as written: it differs from the
      intended run only when the version path is not a regular file, and then
      reports the validator's error, path included. */
  function RunAsWritten(inputs: Inputs): (r: RunOutcome)
    ensures r.Panic? <==> BaseDir(inputs).None?
    ensures BaseDir(inputs).Some? ==>
      var path := Path(BaseDir(inputs).value.segments + [VAR_DIR, CLI_VERSION_FILE]);
      if !IsRegularFile(inputs.fs, path) then
        r == Exit(1, [ErrorLine(CHECK_FAILURE_PREFIX + ("Not a valid file path: " + Display(path)))])
      else
        r == Run(inputs)
  {
    match InferSdkmanDir(inputs.vars, inputs.home)
    case Panicked => Panic
    case Returned(Err(e)) => Exit(1, [ErrorLine(RESOLUTION_FAILURE_PREFIX + VarErrorText(e))])
    case Returned(Ok(dir)) =>
      var file := VersionFilePath(dir);
      match ExistenceAnswerAsWritten(CheckFileExists(inputs.fs, file))
      case Ok(found) =>
        if !found then Exit(1, [ErrorLine(NOT_FOUND_MESSAGE)])
        else
          (match ReadFileContent(inputs.fs, file)
           case Err(e) => Exit(1, [ErrorLine(READ_FAILURE_PREFIX + e.message)])
           case Ok(version) => Exit(0, [HEADER, ReportText(version, inputs.build)]))
      case Err(e) => Exit(1, [ErrorLine(CHECK_FAILURE_PREFIX + e.message)])
  }

  /** The validator's error for the missing scenario file names its path. */
  lemma MissingFileError()
    ensures CheckFileExists(map[], VersionFilePath(Path(["/tmp/sdk"])))
      == Err(IoError(NotFound, "Not a valid file path: " + ("/tmp/sdk" + "/" + "var" + "/" + "version")))
  {
    var base := Path(["/tmp/sdk"]);
    DisplayJoin(base, VAR_DIR);
    DisplayJoin(Join(base, VAR_DIR), CLI_VERSION_FILE);
    assert Display(VersionFilePath(base)) == "/tmp/sdk" + "/" + "var" + "/" + "version";
  }

  /** As written, a missing version file reports the validator's error,
      which echoes the path (the intended run prints the fixed not-found
      message: EndToEndMissing). */
  lemma MissingFileAsWritten(home: Option<Path>, build: Build)
    ensures RunAsWritten(ScenarioInputs(home, map[], build))
      == Exit(1, [ErrorLine(CHECK_FAILURE_PREFIX + ("Not a valid file path: " + ("/tmp/sdk" + "/" + "var" + "/" + "version")))])
  {
    ScenarioFile(home, map[], build);
    MissingFileError();
  }

  /** As written, the fixed not-found message can never be printed: the
      `Ok(false)` arm is dead. */
  lemma NotFoundUnreachableAsWritten(inputs: Inputs)
    ensures RunAsWritten(inputs).Lines() != [ErrorLine(NOT_FOUND_MESSAGE)]
  {
    var r := RunAsWritten(inputs);
    if r.Exit? && |r.lines| == 1 {
      assert ErrorLine(NOT_FOUND_MESSAGE)[7] == 'C';
      assert r.lines[0][7] == 'F';
    }
  }

  /* ---------------------------------------------------------------------- */
  /* The output stream                                                      */
  /* ---------------------------------------------------------------------- */

  /** The terminal `main` writes to: the lines written so far, colours left
      out. */
  class Terminal {
    var lines: seq<string>

    constructor ()
      ensures lines == []
    {
      lines := [];
    }

    /** `print_info`: the message on a line of its own. */
    method PrintInfo(message: string)
      modifies this
      ensures lines == old(lines) + [message]
    {
      lines := lines + [message];
    }

    /** `print_error`: the message after `Error: `. */
    method PrintError(message: string)
      modifies this
      ensures lines == old(lines) + [ErrorLine(message)]
    {
      lines := lines + ["Error: " + message];
    }

    /** `println!`: the text and a newline. */
    method Println(text: string)
      modifies this
      ensures lines == old(lines) + [text]
    {
      lines := lines + [text];
    }
  }

  /** `main` step by step on a terminal: its writes and its exit are those
      `Run` describes. */
  method VersionMain(inputs: Inputs, out: Terminal) returns (exit: Completion<int>)
    modifies out
    ensures out.lines == old(out.lines) + Run(inputs).Lines()
    ensures exit == if Run(inputs).Panic? then Panicked else Returned(Run(inputs).code)
  {
    var resolved := InferSdkmanDir(inputs.vars, inputs.home);
    if resolved.Panicked? {
      return Panicked;
    }
    // The source prints a resolution failure on `Err`; resolution never
    // returns one (see ResolutionErrorUnreachable), so the directory is taken.
    var file := VersionFilePath(resolved.value.value);
    var checked := CheckFileExists(inputs.fs, file);
    if checked.Err? {
      out.PrintError(NOT_FOUND_MESSAGE);
      return Returned(1);
    }
    var content := ReadFileContent(inputs.fs, file);
    if content.Err? {
      out.PrintError(READ_FAILURE_PREFIX + content.error.message);
      return Returned(1);
    }
    out.PrintInfo(HEADER);
    out.Println(ReportText(content.value, inputs.build));
    return Returned(0);
  }
}
