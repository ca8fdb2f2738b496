/** What both configuration loaders consume from outside: a cosmiconfig-style
    explorer, `path.resolve`, and the schema validator, each as a function the
    caller supplies; and the error kinds the loaders raise. */
module ConfigSource {
  import opened Js

  /** What one `loadSync` or `searchSync` call does: throw an error (whose `path`
      property may be missing), return `null`, or return `{ config, filepath }`
      (whose `filepath` may be missing, and is then `undefined`). */
  datatype ExplorerOutcome =
    | Threw(errorPath: Value)
    | ReturnedNull
    | Returned(config: Value, filepath: Value)

  /** The explorer and the other collaborators a loader calls. `validate` gives the
      formatted schema errors of a configuration object; an empty list means valid.
      `resolve` and `validate` are taken never to throw. */
  datatype Collaborators = Collaborators(
    loadSync: Value -> ExplorerOutcome,
    searchSync: Value -> ExplorerOutcome,
    resolve: Value -> string,
    validate: Value -> seq<string>)

  /** The exceptions the loaders raise. */
  datatype ConfigError =
    | ConfigFilePathNotFound(path: Value)
    | ConfigFileNotFound(givenMessage: Value, directory: Value)
    | ConfigFileValidation(message: string, filePath: Value, errors: seq<string>)
    | RuleNotFound(message: string)
    | StatFailed(path: Value)
    | TypeError

  /** The directory named in a not-found error: the explorer error's `path` when it
      is truthy, otherwise the resolved path the caller asked for. */
  function TargetDirectory(errorPath: Value, requested: Value, c: Collaborators): Value {
    if Truthy(errorPath) then errorPath else Str(c.resolve(requested))
  }
}
