# sdkran version reporter, modelled in Dafny

`sdkran`'s `version` binary reports two versions. One is the version of the script side of an SDKMAN installation, stored in `<data dir>/var/version`. The other is the binary's own compiled-in version. The program works in four steps:

1. It finds the data directory. This is the `SDKMAN_DIR` variable when it is set, and otherwise `<home>/.sdkman`.
2. It checks that `<data dir>/var/version` is a regular file.
3. It reads the file and trims it, refusing blank content.
4. It prints either a header and a two-line report, or a single `Error: ...` line with exit code 1.

This project models that behaviour. The process environment, the home directory, the filesystem and the build constants are explicit inputs.

Modules, one per source file or component:

- `Wrappers`: `Option` and `Result`, plus `Completion`, which says whether a Rust call returned or panicked.
- `Constants`: the literals `.sdkman`, `SDKMAN_DIR` and `var` (src/utils/constants.rs).
- `Paths`: `PathBuf` as a sequence of segments. `join` appends a segment, `from` keeps a string verbatim, and `display` puts `/` between segments.
- `Whitespace`: Rust's `str::trim` over `char::is_whitespace` (the Unicode White_Space property). It comes with a reference description, `IsTrimWindow`, and with proofs that `Trim` is unique, idempotent and round-trips.
- `FileUtils`: `check_file_exists` and `read_file_content` (src/utils/file_utils.rs), over a filesystem given as a map from path to entry. Symbolic links are resolved, and each entry records its kind and what reading it gives.
- `DirectoryUtils`: `infer_sdkman_dir` and `fallback_sdkman_dir` (src/utils/directory_utils.rs). The environment is a map from variable name to value, and the home directory is an `Option<Path>`.
- `Version`: `main` (src/bin/version.rs), in two forms.
  - A pure function `Run` from the inputs to the exit code and the lines written. Its contract is a decision table stated against the reference `BaseDir` and `Trim`.
  - A `Terminal` class whose `PrintInfo` and `PrintError` append to the written lines, driven by `VersionMain` and proved to write exactly what `Run` describes.

Three points of the documented behaviour differ from what the code does; the model follows the code:

- Errors are described as going to standard error. The code writes them, through `print_error`, to the same standard-output stream as the report (src/bin/version.rs:14, 70-76).
- The `SDKMAN_DIR` override is described as applying when it is set to a non-empty value. The code takes any set value verbatim, the empty string included (src/utils/directory_utils.rs:41-42).
- A missing home directory is described as a resolution error that ends the run with exit code 1. The code panics in `fallback_sdkman_dir`'s `unwrap` instead, so `infer_sdkman_dir` never returns `Err` (src/utils/directory_utils.rs:43, 65).

The existence check in `version.rs` does not type-check as shown. It matches `Ok(true)`, `Ok(false)` and `Err(e)`, but `check_file_exists` returns `Result<PathBuf, Error>`. The model follows the intended two-outcome reading: `Ok` means the file is read, and `Err` means `"CLI version file not found."`. The reading as written is kept separately as `RunAsWritten`; see Findings.

## Model

| member | source | states |
|---|---|---|
| `Whitespace.IsWhitespace` | src/utils/file_utils.rs:72 | on ASCII, `char::is_whitespace` holds exactly for space, tab, line feed, vertical tab, form feed and carriage return |
| `Whitespace.LeadingWhitespace` | src/utils/file_utils.rs:72 | the count of leading characters is within the string, all of them are white space, and the next one is not |
| `Whitespace.TrailingWhitespace` | src/utils/file_utils.rs:72 | the count of trailing characters is within the string, all of them are white space, and the one before them is not |
| `Whitespace.Trim` | src/utils/file_utils.rs:72 | `content.trim()` is a contiguous window of the content with only white space around it and none at its ends; it is empty iff the content is all white space |
| `Whitespace.TrimIsWindow` | src/utils/file_utils.rs:72 | every trimmed window of a string holds exactly what `Trim` returns, so the trim is the unique such substring |
| `Whitespace.EmptyWindow` | src/utils/file_utils.rs:72-73 | a trimmed window is empty exactly when the whole content is white space |
| `Whitespace.WindowIsCanonical` | src/utils/file_utils.rs:72 | a non-empty trimmed window starts at the first non-white-space character and ends after the last |
| `Whitespace.TrimIsTrimmed` | src/utils/file_utils.rs:72 | the trim has no white space at either end |
| `Whitespace.TrimOfTrimmed` | src/utils/file_utils.rs:72 | a string with no white space at either end is its own trim |
| `Whitespace.TrimIdempotent` | src/utils/file_utils.rs:72 | trimming twice gives the same as trimming once |
| `Whitespace.TrimPadded` | src/utils/file_utils.rs:56-61 | a trimmed text with any white space before and after trims back to exactly that text |
| `FileUtils.ReadToString` | src/utils/file_utils.rs:71 | `fs::read_to_string` succeeds only on an existing non-directory; a missing path fails with kind `NotFound` and a directory with kind `IsADirectory` |
| `FileUtils.CheckFileExists` | src/utils/file_utils.rs:32-42 | `Ok` iff the path exists and is a regular file; on `Ok` the path is returned unchanged; otherwise a `NotFound` error whose text names the path |
| `FileUtils.ReadFileContent` | src/utils/file_utils.rs:70-78 | a read error is propagated unchanged; read content is `InvalidData` "File is empty" iff it is all white space; success is non-empty, has no white space at its ends and is a trimmed window of the content |
| `FileUtils.DirectoryRejectedLikeMissing` | src/utils/file_utils.rs:98-110 | a directory and a missing path are refused with the same `NotFound` kind |
| `FileUtils.ReadRoundTrip` | src/utils/file_utils.rs:56-61 | a file holding a non-empty trimmed version with white space around it reads back as exactly that version |
| `FileUtils.ReadIdempotent` | src/utils/file_utils.rs:70-78 | reading a file that holds a previous successful result gives that result again |
| `FileUtils.ReadWrittenLine` | src/utils/file_utils.rs:56-61 | `"5.9.0\n"` reads back as `"5.9.0"` |
| `FileUtils.ReadBareVersion` | src/utils/file_utils.rs:125-133 | `"5.9.0"` reads back as `"5.9.0"` |
| `FileUtils.ReadPaddedVersion` | src/utils/file_utils.rs:70-78 | `"  5.9.0\n"` reads back as `"5.9.0"` |
| `FileUtils.ReadBlankExamples` | src/utils/file_utils.rs:135-144 | empty and `"   \n\t"` content give the `InvalidData` "File is empty" error, never an empty `Ok` |
| `DirectoryUtils.EnvVar` | src/utils/directory_utils.rs:41 | `env::var` is `Ok` with the text iff the variable is set to valid Unicode, and `NotPresent` iff it is unset |
| `DirectoryUtils.VarErrorText` | src/bin/version.rs:22 | the text `{}` prints for a `VarError` is "environment variable not found" exactly for `NotPresent`, and for `NotUnicode` it ends with the offending value |
| `DirectoryUtils.FallbackSdkmanDir` | src/utils/directory_utils.rs:62-66 | returns iff a home directory exists, and then gives exactly the home's segments followed by `.sdkman`; panics otherwise |
| `DirectoryUtils.InferSdkmanDir` | src/utils/directory_utils.rs:40-44 | a set override is the result, verbatim; otherwise the result is the fallback's; it never returns `Err`; it panics iff the override is unusable and there is no home |
| `DirectoryUtils.OverrideVerbatim` | src/utils/directory_utils.rs:115-128 | whatever text `SDKMAN_DIR` holds, the empty string included, the resolved directory displays as exactly that text |
| `DirectoryUtils.OverrideIgnoresHome` | src/utils/directory_utils.rs:43 | with the override set, the result does not depend on the home directory, so a missing home cannot fail it |
| `DirectoryUtils.FallbackFollowsHome` | src/utils/directory_utils.rs:89-112 | the fallback is the given home joined with `.sdkman`, and different homes give different directories |
| `Paths.FromString` | src/utils/directory_utils.rs:42 | `PathBuf::from` keeps the text as at most one segment, and the path displays as exactly that text |
| `Paths.Join` | src/utils/directory_utils.rs:64 | `join` adds exactly one segment, the given one, after the base's segments, which are kept unchanged |
| `Paths.Display` | src/utils/file_utils.rs:39 | the empty path displays as nothing, a one-segment path as its segment, and every other path ends with its last segment |
| `Paths.DisplayJoin` | src/bin/version.rs:28 | displaying a join puts `/` between the base and the new segment |
| `Paths.JoinInjective` | src/utils/directory_utils.rs:64 | equal joins have equal bases and equal segments |
| `Version.ErrorLineLayout` | src/bin/version.rs:74 | an error line is `Error: ` followed by the message intact |
| `Version.ReportTextLayout` | src/bin/version.rs:51-57 | the report puts the version right after `script: `, then `\nnative: `, and ends with `)` and a newline before `println!`'s own |
| `Version.ReportDeterminesVersion` | src/bin/version.rs:51-57 | two reports on the same build are equal only for the same version, so the report names the version it was given |
| `Version.VersionFilePath` | src/bin/version.rs:28 | the version file is the data directory followed by `var` and then `version` |
| `Version.ResolvedDirectory` | src/bin/version.rs:17-26 | resolution panics iff there is no data directory, and otherwise returns the reference data directory |
| `Version.Run` | src/bin/version.rs:12-58 | the whole run as a decision table: panic without a data directory; otherwise, if the version path is not a regular file, exit 1 with the fixed not-found line; on a read error, exit 1 with the read-failure line carrying the error's text; on blank content, exit 1 with "File is empty"; otherwise exit 0 with the header and the report of the trimmed content |
| `Version.RunOutcomeShape` | src/bin/version.rs:19-24 | exit codes are 0 or 1; a failure writes exactly one `Error: ` line and not the header; a success writes the header first |
| `Version.SuccessOutput` | src/bin/version.rs:50-57 | on success the text of standard output, colour escapes aside, is exactly `SDKRAN!\nscript: <v>\nnative: <N> (<os> <arch>)\n\n`, with `v` non-empty and trimmed |
| `Version.ResolutionErrorUnreachable` | src/bin/version.rs:17-26 | the "Failed to infer SDKMAN directory" line is never written |
| `Version.ReadOnlyAfterValidation` | src/bin/version.rs:30-31 | when the version path is not a regular file, what reading it would give makes no difference, and the run ends with the not-found line |
| `Version.NotFoundIgnoresPath` | src/bin/version.rs:38-40 | the not-found output is the same whatever the data directory, so the path is not echoed |
| `Version.EndToEndFound` | src/bin/version.rs:50-57 | `SDKMAN_DIR=/tmp/sdk` with `var/version` holding `5.9.0`: exit 0, header, then `script: 5.9.0` |
| `Version.EndToEndMissing` | src/bin/version.rs:38-40 | `SDKMAN_DIR=/tmp/sdk` with no version file: exit 1 and `Error: CLI version file not found.` |
| `Version.EndToEndEmpty` | src/bin/version.rs:31-36 | `SDKMAN_DIR=/tmp/sdk` with an empty version file: exit 1 and `Error: Failed to read file content: File is empty` |
| `Version.ExistenceAnswerAsWritten` | src/bin/version.rs:30-48 | the current validator's outcome, read as the three-armed answer, is never `Ok(false)`, and an error passes through unchanged |
| `Version.RunAsWritten` | src/bin/version.rs:12-58 | the run as written, with the validator's `Ok(path)` taken as `Ok(true)`: it panics iff there is no data directory; a version path that is not a regular file gives exit 1 with the check-failure line echoing the path; otherwise it is the same as `Run` |
| `Version.MissingFileError` | src/utils/file_utils.rs:37-40 | with no version file under `/tmp/sdk`, the validator fails with kind `NotFound` and the text `Not a valid file path: /tmp/sdk/var/version` |
| `Version.MissingFileAsWritten` | src/bin/version.rs:42-47 | as written, a missing version file reports `Failed to check file existence: Not a valid file path: /tmp/sdk/var/version` |
| `Version.NotFoundUnreachableAsWritten` | src/bin/version.rs:38-40 | as written, the fixed not-found line can never be printed |
| `Version.Terminal.PrintInfo` | src/bin/version.rs:61-67 | appends the message as one line to what has been written |
| `Version.Terminal.PrintError` | src/bin/version.rs:70-76 | appends `Error: ` followed by the message as one line |
| `Version.Terminal.Println` | src/bin/version.rs:51-57 | appends the report text as one `println!` line |
| `Version.VersionMain` | src/bin/version.rs:12-58 | run step by step on a terminal, it writes exactly the lines of `Run` after what was already there, returns `Run`'s exit code, or panics when `Run` does |

## Left out

- Real environment and filesystem access (`env::var`, `UserDirs::new`, `exists`, `is_file`, `fs::read_to_string`). These become inputs: an environment map, an optional home path, and a filesystem map from path to kind and read outcome.
- UTF-8 decoding inside `read_to_string`. Invalid UTF-8, permission errors and I/O faults are each one `Err` read outcome, with the error's display text as data.
- The operating system's own texts. Reading a missing path and reading a directory give the Linux texts "No such file or directory (os error 2)" and "Is a directory (os error 21)"; every other read failure's text is data in the filesystem input.
- A directory entry's stored read outcome. `ReadToString` always fails on a directory, so an `Entry(Directory, Ok(...))` in the input is allowed but its text is never read.
- Terminal colouring (`ColorSpec`, `set_color`, `reset`) and the `unwrap`s on those calls. Only the text of each written line is modelled.
- `process::exit` and the panic's own report. A run ends as `Exit(code, lines)` or `Panic`. The panic's message on standard error and the runtime's exit status for a panic are not modelled.
- `CARGO_PKG_VERSION`, `std::env::consts::OS` and `ARCH`. These are the three fields of a `Build` input.
- The unused constants of src/utils/constants.rs (`CANDIDATES_DIR`, `CURRENT_DIR`, `TMP_DIR`, and the rest). They take no part in the version report.
- The tests' process-wide `set_var`/`remove_var` scaffolding. The tests' scenarios are stated as lemmas over explicit inputs instead.
- Path normalisation. Only relative segments are ever joined, and `Display` puts one `/` between segments. A base directory given with a trailing `/` would therefore display with a doubled separator.
- Path equality is equality of segment sequences, not `PathBuf`'s component-wise comparison.

## Findings

| source | as written | input that shows it | evidently intended | confidence | as-written member | corrected member |
|---|---|---|---|---|---|---|
| src/bin/version.rs:30-48 | the match expects a boolean validator (`Ok(true)`, `Ok(false)`, `Err(e)`), but `check_file_exists` returns the path or a `NotFound` error, so the file as shown does not compile; reading `Ok(path)` as `Ok(true)`, a missing file takes the `Err` arm, "Failed to check file existence: Not a valid file path: <path>", and the fixed not-found arm is dead | `SDKMAN_DIR=/tmp/sdk` with no `/tmp/sdk/var/version` | `Error: CLI version file not found.` with exit code 1 | not executed; follows from the types in file_utils.rs:32 and version.rs:30-48 | `Version.MissingFileAsWritten` | `Version.EndToEndMissing` |
