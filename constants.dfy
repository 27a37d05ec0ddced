/** The path and variable names the version reporter relies on
    (src/utils/constants.rs). */
module Constants {

  /** Name of the hidden data directory under the user's home. */
  const DEFAULT_SDKMAN_HOME: string := ".sdkman"

  /** Environment variable that overrides the data directory. */
  const SDKMAN_DIR_ENV_VAR: string := "SDKMAN_DIR"

  /** Sub-directory of the data directory that holds variable state. */
  const VAR_DIR: string := "var"
}
