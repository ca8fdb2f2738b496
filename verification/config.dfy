/** The configuration loader of src/core/config/config.js: a `Config` object whose
    `_config` field starts as `null` and is set by `load` or `search`, each with its
    own not-found error, followed by schema validation. */
module ConfigLoader {
  import opened Js
  import opened ConfigSource

  /** The object the explorer returns: the parsed configuration and its file. */
  datatype LoadedFile = LoadedFile(config: Value, filepath: Value)

  /** What `fs.statSync(filePath)` does: throw, or describe a directory or another entry. */
  datatype StatOutcome = StatThrew | Directory | NotDirectory

  const INVALID_CONFIG_MESSAGE: string := "Invalid Adviser Configuration file"

  /** `_validateSchema`: a configuration with no schema errors is returned unchanged;
      otherwise the validation error carries the file path and every schema error. */
  function ValidateSchema(c: Collaborators, config: Value, configFilePath: Value): (r: Result<Value, ConfigError>)
    ensures r.Ok? <==> c.validate(config) == []
    ensures r.Ok? ==> r.value == config
    ensures r.Err? ==> r.error.ConfigFileValidation? && r.error.filePath == configFilePath &&
                       r.error.errors == c.validate(config) && |r.error.errors| > 0
  {
    var schemaErrors := c.validate(config);
    if schemaErrors != [] then Err(ConfigFileValidation(INVALID_CONFIG_MESSAGE, configFilePath, schemaErrors))
    else Ok(config)
  }

  /** The error a failed schema check raises, or none. */
  function SchemaError(c: Collaborators, config: Value, configFilePath: Value): Option<ConfigError> {
    var r := ValidateSchema(c, config, configFilePath);
    if r.Err? then Some(r.error) else None
  }

  /** The error an explorer failure raises: `search` (when `searching`) raises the
      not-found error with a `null` message, `load` the path-not-found error; both
      name the error's path or else the resolved requested path. */
  function NotFound(c: Collaborators, searching: bool, errorPath: Value, requested: Value): ConfigError {
    var target := TargetDirectory(errorPath, requested, c);
    if searching then ConfigFileNotFound(Null, target) else ConfigFilePathNotFound(target)
  }

  /** What a `search` (when `searching`) or `load` of `requested`, whose explorer
      call ended with `outcome`, leaves in `_config` (which held `before`) and what
      escapes from it. */
  predicate Explored(c: Collaborators, searching: bool, requested: Value, outcome: ExplorerOutcome,
                     before: Option<LoadedFile>, after: Option<LoadedFile>, err: Option<ConfigError>)
  {
    match outcome
    case Threw(errorPath) => after == before && err == Some(NotFound(c, searching, errorPath, requested))
    case ReturnedNull => after == None && err == Some(TypeError)
    case Returned(config, filepath) =>
      after == Some(LoadedFile(config, filepath)) && err == SchemaError(c, config, filepath)
  }

  /** The constructor's dispatch on `filePath`, from `_config` holding `before`: no
      truthy path changes nothing; a path `statSync` rejects raises its error; a
      directory is searched, with `search`'s not-found error naming the error's
      path or the resolved directory; any other path is loaded, with `load`'s
      path-not-found error. `after` is `_config` afterwards and `err` what escapes. */
  predicate Opened(c: Collaborators, filePath: Value, stat: Value -> StatOutcome,
                   before: Option<LoadedFile>, after: Option<LoadedFile>, err: Option<ConfigError>)
  {
    if !Truthy(filePath) then after == before && err == None
    else match stat(filePath)
      case StatThrew => after == before && err == Some(StatFailed(filePath))
      case Directory => Explored(c, true, filePath, c.searchSync(filePath), before, after, err)
      case NotDirectory => Explored(c, false, filePath, c.loadSync(filePath), before, after, err)
  }

  /** The explorer outcome the constructor acts on for a truthy path `statSync` accepts. */
  function Consulted(c: Collaborators, filePath: Value, stat: Value -> StatOutcome): ExplorerOutcome {
    if stat(filePath).Directory? then c.searchSync(filePath) else c.loadSync(filePath)
  }

  /** The dispatch determines its outcome: two results from the same start agree. */
  lemma OpenedDeterministic(c: Collaborators, filePath: Value, stat: Value -> StatOutcome, before: Option<LoadedFile>,
                            after1: Option<LoadedFile>, err1: Option<ConfigError>,
                            after2: Option<LoadedFile>, err2: Option<ConfigError>)
    requires Opened(c, filePath, stat, before, after1, err1)
    requires Opened(c, filePath, stat, before, after2, err2)
    ensures after1 == after2 && err1 == err2
  {
  }

  /** The constructor succeeds exactly without a truthy path, or when the consulted
      explorer call returned a configuration without schema errors, which is then
      the one loaded. */
  lemma OpenedSucceedsIff(c: Collaborators, filePath: Value, stat: Value -> StatOutcome,
                          before: Option<LoadedFile>, after: Option<LoadedFile>, err: Option<ConfigError>)
    requires Opened(c, filePath, stat, before, after, err)
    ensures err == None <==>
      !Truthy(filePath) ||
      (!stat(filePath).StatThrew? && Consulted(c, filePath, stat).Returned? && c.validate(Consulted(c, filePath, stat).config) == [])
    ensures err == None && Truthy(filePath) ==>
      after == Some(LoadedFile(Consulted(c, filePath, stat).config, Consulted(c, filePath, stat).filepath))
  {
  }

  /** An explorer failure escaping the constructor leaves `_config` as it was; a
      directory raises the not-found error and any other path the path-not-found
      error, naming the explorer error's path when truthy and the resolved path
      otherwise. */
  lemma OpenedNotFound(c: Collaborators, filePath: Value, stat: Value -> StatOutcome,
                       before: Option<LoadedFile>, after: Option<LoadedFile>, err: Option<ConfigError>)
    requires Opened(c, filePath, stat, before, after, err)
    requires Truthy(filePath) && !stat(filePath).StatThrew? && Consulted(c, filePath, stat).Threw?
    ensures after == before
    ensures var errorPath := Consulted(c, filePath, stat).errorPath;
      var target := if Truthy(errorPath) then errorPath else Str(c.resolve(filePath));
      err == Some(if stat(filePath).Directory? then ConfigFileNotFound(Null, target) else ConfigFilePathNotFound(target))
  {
  }

  /** A schema failure escaping the constructor carries the loaded file's `filepath`
      and every schema error of the loaded configuration, which stays loaded. */
  lemma OpenedValidationError(c: Collaborators, filePath: Value, stat: Value -> StatOutcome,
                              before: Option<LoadedFile>, after: Option<LoadedFile>, err: Option<ConfigError>)
    requires Opened(c, filePath, stat, before, after, err)
    requires err.Some? && err.value.ConfigFileValidation?
    ensures after.Some? && after.value.config == Consulted(c, filePath, stat).config
    ensures err.value.filePath == after.value.filepath && err.value.errors == c.validate(after.value.config)
    ensures err.value.message == INVALID_CONFIG_MESSAGE
  {
  }

  class Config {
    /** `_config`: `null` until a load or search returns a result. */
    var current: Option<LoadedFile>
    /** `_configFileExplorer`, with the path resolver and schema validator beside it. */
    const explorer: Collaborators

    /** The start of the constructor: `_config` is `null`, so both getters give their defaults. */
    constructor (explorer: Collaborators)
      ensures current == None && this.explorer == explorer
      ensures GetPlugins() == Arr([]) && GetRules() == Obj([])
    {
      current := None;
      this.explorer := explorer;
    }

    /** `getPlugins`: the loaded configuration's `plugins` property (which may be
        `undefined`), or `[]` when nothing truthy has been loaded. */
    function GetPlugins(): (r: Value)
      reads this
      ensures current.None? ==> r == Arr([])
      ensures current.Some? && Truthy(current.value.config) ==> r == Get(current.value.config, "plugins")
      ensures current.Some? && !Truthy(current.value.config) ==> r == Arr([])
    {
      if current.Some? && Truthy(current.value.config) then Get(current.value.config, "plugins") else Arr([])
    }

    /** `getRules`: the loaded configuration's `rules` property, or `{}`. */
    function GetRules(): (r: Value)
      reads this
      ensures current.None? ==> r == Obj([])
      ensures current.Some? && Truthy(current.value.config) ==> r == Get(current.value.config, "rules")
      ensures current.Some? && !Truthy(current.value.config) ==> r == Obj([])
    {
      if current.Some? && Truthy(current.value.config) then Get(current.value.config, "rules") else Obj([])
    }

    /** `load`: an explorer failure is a path-not-found error naming the error's path
        or the resolved requested path, and leaves `_config` as it was; a `null`
        result is stored and then read, which fails; a found file is stored before
        it is validated, so it stays stored when validation fails. */
    method Load(exactPath: Value) returns (r: Result<Value, ConfigError>)
      modifies this
      ensures explorer.loadSync(exactPath).Threw? ==>
        current == old(current) &&
        r == Err(ConfigFilePathNotFound(TargetDirectory(explorer.loadSync(exactPath).errorPath, exactPath, explorer)))
      ensures explorer.loadSync(exactPath).ReturnedNull? ==> current == None && r == Err(TypeError)
      ensures explorer.loadSync(exactPath).Returned? ==>
        current == Some(LoadedFile(explorer.loadSync(exactPath).config, explorer.loadSync(exactPath).filepath)) &&
        r == ValidateSchema(explorer, current.value.config, current.value.filepath)
    {
      match explorer.loadSync(exactPath)
      case Threw(errorPath) =>
        r := Err(ConfigFilePathNotFound(TargetDirectory(errorPath, exactPath, explorer)));
      case ReturnedNull =>
        current := None;
        r := Err(TypeError);
      case Returned(config, filepath) =>
        current := Some(LoadedFile(config, filepath));
        r := ValidateSchema(explorer, current.value.config, current.value.filepath);
    }

    /** `search`: like `load`, but an explorer failure is the distinct not-found error
        (with a `null` message) naming the error's path or the resolved directory. */
    method Search(directory: Value) returns (r: Result<Value, ConfigError>)
      modifies this
      ensures explorer.searchSync(directory).Threw? ==>
        current == old(current) &&
        r == Err(ConfigFileNotFound(Null, TargetDirectory(explorer.searchSync(directory).errorPath, directory, explorer)))
      ensures explorer.searchSync(directory).ReturnedNull? ==> current == None && r == Err(TypeError)
      ensures explorer.searchSync(directory).Returned? ==>
        current == Some(LoadedFile(explorer.searchSync(directory).config, explorer.searchSync(directory).filepath)) &&
        r == ValidateSchema(explorer, current.value.config, current.value.filepath)
    {
      match explorer.searchSync(directory)
      case Threw(errorPath) =>
        r := Err(ConfigFileNotFound(Null, TargetDirectory(errorPath, directory, explorer)));
      case ReturnedNull =>
        current := None;
        r := Err(TypeError);
      case Returned(config, filepath) =>
        current := Some(LoadedFile(config, filepath));
        r := ValidateSchema(explorer, current.value.config, current.value.filepath);
    }

    /** The rest of the constructor: the dispatch `Opened` describes, from the
        `_config` held before. */
    method Open(filePath: Value, stat: Value -> StatOutcome) returns (err: Option<ConfigError>)
      modifies this
      ensures Opened(explorer, filePath, stat, old(current), current, err)
    {
      err := None;
      if Truthy(filePath) {
        match stat(filePath)
        case StatThrew =>
          err := Some(StatFailed(filePath));
        case Directory =>
          var r := Search(filePath);
          if r.Err? { err := Some(r.error); }
        case NotDirectory =>
          var r := Load(filePath);
          if r.Err? { err := Some(r.error); }
      }
    }
  }

  /** `new Config(filePath, fileExplorer)`: the constructor with its dispatch. */
  method NewConfig(filePath: Value, explorer: Collaborators, stat: Value -> StatOutcome)
    returns (config: Config, err: Option<ConfigError>)
    ensures fresh(config) && config.explorer == explorer
    ensures Opened(explorer, filePath, stat, None, config.current, err)
  {
    config := new Config(explorer);
    err := config.Open(filePath, stat);
  }
}
