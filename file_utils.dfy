/** Validation of the version file and the trimmed read of its content
    (src/utils/file_utils.rs). The filesystem is an explicit input. */
module FileUtils {
  import opened Wrappers
  import opened Paths
  import opened Whitespace

  /** The `io::ErrorKind`s the model tells apart; every other kind an
      operating-system error can carry is `OtherKind`. */
  datatype ErrorKind = NotFound | IsADirectory | InvalidData | OtherKind

  /** An `io::Error`: its kind and the text its `Display` prints. */
  datatype IoError = IoError(kind: ErrorKind, message: string)

  /** What a path resolves to once symbolic links are followed. */
  datatype FileKind = RegularFile | Directory | Special

  /** A filesystem entry: its kind and what `fs::read_to_string` gives on it
      when it is not a directory (the text, or the error the operating system
      reports, including invalid UTF-8); reading a directory always fails, so
      a directory's `read` is never consulted. */
  datatype Entry = Entry(kind: FileKind, read: Result<string, IoError>)

  /** The filesystem as seen through symbolic links: a path that is absent
      (or a dangling link) does not exist. */
  type FileSystem = map<Path, Entry>

  /** The error the operating system reports when reading a missing path. */
  const MISSING_PATH_ERROR: IoError := IoError(NotFound, "No such file or directory (os error 2)")

  /** The error the operating system reports when reading a directory. */
  const DIRECTORY_READ_ERROR: IoError := IoError(IsADirectory, "Is a directory (os error 21)")

  /** The error `read_file_content` reports for blank content. */
  const EMPTY_FILE_ERROR: IoError := IoError(InvalidData, "File is empty")

  /** `path.exists() && path.is_file()`. */
  predicate IsRegularFile(fs: FileSystem, path: Path) {
    path in fs && fs[path].kind == RegularFile
  }

  /** `fs::read_to_string(path)`: only an existing entry that is not a
      directory can be read; a missing path fails with `NotFound` and a
      directory with `IsADirectory`. */
  function ReadToString(fs: FileSystem, path: Path): (r: Result<string, IoError>)
    ensures r.Ok? ==> path in fs && fs[path].kind != Directory
    ensures path !in fs ==> r.Err? && r.error.kind == NotFound
    ensures path in fs && fs[path].kind == Directory ==> r.Err? && r.error.kind == IsADirectory
  {
    if path !in fs then Err(MISSING_PATH_ERROR)
    else if fs[path].kind == Directory then Err(DIRECTORY_READ_ERROR)
    else fs[path].read
  }

  /** `check_file_exists`: the path itself when it names a regular file, a
      `NotFound` error naming the path otherwise. */
  function CheckFileExists(fs: FileSystem, path: Path): (r: Result<Path, IoError>)
    ensures r.Ok? <==> IsRegularFile(fs, path)
    ensures r.Ok? ==> r.value == path
    ensures r.Err? ==> r.error.kind == NotFound
    ensures r.Err? ==> r.error.message == "Not a valid file path: " + Display(path)
  {
    if path in fs && fs[path].kind == RegularFile then Ok(path)
    else Err(IoError(NotFound, "Not a valid file path: " + Display(path)))
  }

  /** `read_file_content`: read, trim, and refuse a blank result. */
  function ReadFileContent(fs: FileSystem, path: Path): (r: Result<string, IoError>)
    ensures ReadToString(fs, path).Err? ==> r == ReadToString(fs, path)
    ensures ReadToString(fs, path).Ok? ==>
      (r.Err? <==> AllWhitespace(ReadToString(fs, path).value))
    ensures ReadToString(fs, path).Ok? && r.Err? ==> r.error == EMPTY_FILE_ERROR
    ensures r.Ok? ==> r.value != [] && IsTrimmed(r.value)
    ensures r.Ok? ==>
      var content := ReadToString(fs, path).value;
      exists i, j :: IsTrimWindow(content, i, j) && r.value == content[i..j]
  {
    match ReadToString(fs, path)
    case Err(e) => Err(e)
    case Ok(content) =>
      var trimmed := Trim(content);
      TrimIsTrimmed(content);
      if trimmed == [] then Err(EMPTY_FILE_ERROR) else Ok(trimmed)
  }

  /** A directory is refused with the same error kind as a missing path. */
  lemma DirectoryRejectedLikeMissing(fs: FileSystem, dir: Path, missing: Path)
    requires dir in fs && fs[dir].kind == Directory
    requires missing !in fs
    ensures CheckFileExists(fs, dir).Err? && CheckFileExists(fs, missing).Err?
    ensures CheckFileExists(fs, dir).error.kind == CheckFileExists(fs, missing).error.kind == NotFound
  {
  }

  /** Writing a version with white space around it and reading it back gives
      the version exactly. */
  lemma ReadRoundTrip(fs: FileSystem, path: Path, before: string, version: string, after: string)
    requires version != [] && IsTrimmed(version)
    requires AllWhitespace(before) && AllWhitespace(after)
    requires ReadToString(fs, path) == Ok(before + version + after)
    ensures ReadFileContent(fs, path) == Ok(version)
  {
    TrimPadded(before, version, after);
  }

  /** Reading back what a successful read returned gives the same value. */
  lemma ReadIdempotent(fs: FileSystem, path: Path, fs': FileSystem, path': Path)
    requires ReadFileContent(fs, path).Ok?
    requires ReadToString(fs', path') == Ok(ReadFileContent(fs, path).value)
    ensures ReadFileContent(fs', path') == ReadFileContent(fs, path)
  {
    TrimOfTrimmed(ReadFileContent(fs, path).value);
  }

  /** The documented example: `"5.9.0"` written with `writeln!` (so
      `"5.9.0\n"`) reads back as `"5.9.0"`. */
  lemma ReadWrittenLine(p: Path)
    ensures ReadFileContent(map[p := Entry(RegularFile, Ok("5.9.0\n"))], p) == Ok("5.9.0")
  {
    assert IsTrimmed("5.9.0");
    assert "" + "5.9.0" + "\n" == "5.9.0\n";
    ReadRoundTrip(map[p := Entry(RegularFile, Ok("5.9.0\n"))], p, "", "5.9.0", "\n");
  }

  /** Content `"5.9.0"` with no newline reads back unchanged. */
  lemma ReadBareVersion(p: Path)
    ensures ReadFileContent(map[p := Entry(RegularFile, Ok("5.9.0"))], p) == Ok("5.9.0")
  {
    assert IsTrimmed("5.9.0");
    TrimOfTrimmed("5.9.0");
  }

  /** Content `"  5.9.0\n"` reads back as `"5.9.0"`. */
  lemma ReadPaddedVersion(p: Path)
    ensures ReadFileContent(map[p := Entry(RegularFile, Ok("  5.9.0\n"))], p) == Ok("5.9.0")
  {
    assert IsTrimmed("5.9.0");
    assert "  " + "5.9.0" + "\n" == "  5.9.0\n";
    ReadRoundTrip(map[p := Entry(RegularFile, Ok("  5.9.0\n"))], p, "  ", "5.9.0", "\n");
  }

  /** Empty or white-space-only content is refused with `InvalidData`,
      never read as an empty version. */
  lemma ReadBlankExamples(p: Path)
    ensures ReadFileContent(map[p := Entry(RegularFile, Ok(""))], p) == Err(EMPTY_FILE_ERROR)
    ensures ReadFileContent(map[p := Entry(RegularFile, Ok("   \n\t"))], p) == Err(EMPTY_FILE_ERROR)
  {
    assert AllWhitespace("   \n\t");
  }
}
