/** Where the data directory lives (src/utils/directory_utils.rs). The
    process environment and the user's home directory are explicit inputs. */
module DirectoryUtils {
  import opened Wrappers
  import opened Paths
  import opened Constants

  /** The value of an environment variable as the operating system holds it. */
  datatype EnvValue = Unicode(text: string) | NonUnicode(debug: string)

  /** `env::VarError`; `NotUnicode` keeps the `Debug` rendering of the raw value. */
  datatype VarError = NotPresent | NotUnicode(debug: string)

  /** The process environment. */
  type Environment = map<string, EnvValue>

  /** `env::var(name)`. */
  function EnvVar(vars: Environment, name: string): (r: Result<string, VarError>)
    ensures r.Ok? <==> name in vars && vars[name].Unicode?
    ensures r.Ok? ==> r.value == vars[name].text
    ensures name !in vars <==> r == Err(NotPresent)
  {
    if name !in vars then Err(NotPresent)
    else match vars[name]
      case Unicode(text) => Ok(text)
      case NonUnicode(debug) => Err(NotUnicode(debug))
  }

  /** The text `VarError`'s `Display` prints. */
  function VarErrorText(e: VarError): (r: string)
    ensures r == "environment variable not found" <==> e.NotPresent?
    ensures e.NotUnicode? ==> |e.debug| <= |r| && r[|r| - |e.debug|..] == e.debug
  {
    match e
    case NotPresent => "environment variable not found"
    case NotUnicode(debug) => "environment variable was not valid unicode: " + debug
  }

  /** `fallback_sdkman_dir`: the home directory (`UserDirs::new()`, `None`
      when no user profile can be found) joined with `.sdkman`; `unwrap`
      panics without one. */
  function FallbackSdkmanDir(home: Option<Path>): (r: Completion<Path>)
    ensures r.Returned? <==> home.Some?
    ensures r.Returned? ==>
      var n := |home.value.segments|;
      |r.value.segments| == n + 1
      && r.value.segments[..n] == home.value.segments
      && r.value.segments[n] == DEFAULT_SDKMAN_HOME
  {
    match home
    case Some(dir) => Returned(Join(dir, DEFAULT_SDKMAN_HOME))
    case None => Panicked
  }

  /** `infer_sdkman_dir`: the `SDKMAN_DIR` value as a path when it is set and
      valid Unicode, otherwise (lazily) the fallback. */
  function InferSdkmanDir(vars: Environment, home: Option<Path>): (r: Completion<Result<Path, VarError>>)
    ensures EnvVar(vars, SDKMAN_DIR_ENV_VAR).Ok? ==>
      r == Returned(Ok(FromString(EnvVar(vars, SDKMAN_DIR_ENV_VAR).value)))
    ensures EnvVar(vars, SDKMAN_DIR_ENV_VAR).Err? ==>
      (r.Returned? <==> FallbackSdkmanDir(home).Returned?)
      && (r.Returned? ==> r.value == Ok(FallbackSdkmanDir(home).value))
    ensures r.Returned? ==> r.value.Ok?
    ensures r.Panicked? <==> EnvVar(vars, SDKMAN_DIR_ENV_VAR).Err? && home.None?
  {
    match EnvVar(vars, SDKMAN_DIR_ENV_VAR)
    case Ok(v) => Returned(Ok(FromString(v)))
    case Err(_) =>
      match FallbackSdkmanDir(home)
      case Returned(dir) => Returned(Ok(dir))
      case Panicked => Panicked
  }

  /** A set override is taken verbatim, whatever its text (the empty string
      included) and whatever the home directory. */
  lemma OverrideVerbatim(vars: Environment, home: Option<Path>, v: string)
    requires SDKMAN_DIR_ENV_VAR in vars && vars[SDKMAN_DIR_ENV_VAR] == Unicode(v)
    ensures InferSdkmanDir(vars, home).Returned?
    ensures InferSdkmanDir(vars, home).value.Ok?
    ensures Display(InferSdkmanDir(vars, home).value.value) == v
  {
  }

  /** With the override set, the home directory is never consulted: a missing
      home cannot make that path fail. */
  lemma OverrideIgnoresHome(vars: Environment, home: Option<Path>, home': Option<Path>)
    requires EnvVar(vars, SDKMAN_DIR_ENV_VAR).Ok?
    ensures InferSdkmanDir(vars, home) == InferSdkmanDir(vars, home')
  {
  }

  /** The fallback follows the home directory: different homes give
      different data directories, each the home joined with `.sdkman`. */
  lemma FallbackFollowsHome(home: Path, home': Path)
    requires home != home'
    ensures FallbackSdkmanDir(Some(home)) == Returned(Join(home, DEFAULT_SDKMAN_HOME))
    ensures FallbackSdkmanDir(Some(home)) != FallbackSdkmanDir(Some(home'))
  {
    if Join(home, DEFAULT_SDKMAN_HOME) == Join(home', DEFAULT_SDKMAN_HOME) {
      JoinInjective(home, DEFAULT_SDKMAN_HOME, home', DEFAULT_SDKMAN_HOME);
    }
  }
}
