/** The configuration file (src/config.ts): the snake_case record on disk,
    the camelCase record in memory, and the read-modify-write of the current
    user. The file system is reduced to the state of the one config file. */
module Configuration {
  import opened Wrappers
  import opened Js
  import opened Errors

  /** The in-memory config. `currentUserName` is passed through from the file
      without validation, so it is whatever JSON value was stored there
      (`Undefined` when the key is absent). */
  datatype Config = Config(dbUrl: string, currentUserName: JsValue)

  /** The config file: absent or unreadable, present but not JSON, or
      holding the value JSON.parse gives for its text. */
  datatype ConfigFile = Missing | Unparsable(detail: string) | Holds(json: JsValue)

  /** validateConfig: `db_url` must be a string; `current_user_name` is copied as is. */
  function ValidateConfig(raw: JsValue): Result<Config, Error>
  {
    var dbUrl := Get(raw, "db_url");
    if !dbUrl.Str? then Failure(MissingDbUrl)
    else Success(Config(dbUrl.s, Get(raw, "current_user_name")))
  }

  /** The snake_case record writeConfig stores. JSON.stringify leaves out a
      key whose value is undefined. */
  function ToRaw(c: Config): JsValue
  {
    if c.currentUserName.Undefined? then Obj(map["db_url" := Str(c.dbUrl)])
    else Obj(map["db_url" := Str(c.dbUrl), "current_user_name" := c.currentUserName])
  }

  /** readConfig, given the path it reports and the state of the file. */
  function ReadResult(path: string, file: ConfigFile): Result<Config, Error>
  {
    match file
    case Missing => Failure(ConfigNotFound(path))
    case Unparsable(detail) => Failure(ConfigSyntax(detail))
    case Holds(json) => ValidateConfig(json)
  }

  /** What setUser returns: the error of readConfig, if any. */
  function SetUserResult(path: string, file: ConfigFile, name: string): Result<(), Error>
  {
    match ReadResult(path, file)
    case Failure(e) => Failure(e)
    case Success(_) => Success(())
  }

  /** The file setUser leaves behind: unchanged when reading failed, otherwise
      the config read with its user replaced. */
  function SetUserFile(path: string, file: ConfigFile, name: string): ConfigFile
  {
    match ReadResult(path, file)
    case Failure(_) => file
    case Success(c) => Holds(ToRaw(c.(currentUserName := Str(name))))
  }

  class ConfigStore {
    /** The path readConfig names in its error (the home directory joined with
        the config file name). */
    const path: string
    var file: ConfigFile

    constructor (path: string, file: ConfigFile)
      ensures this.path == path && this.file == file
    {
      this.path := path;
      this.file := file;
    }

    method ReadConfig() returns (r: Result<Config, Error>)
      ensures file == Missing ==> r == Failure(ConfigNotFound(path))
      ensures file.Unparsable? ==> r == Failure(ConfigSyntax(file.detail))
      ensures file.Holds? ==> (r.Success? <==> Get(file.json, "db_url").Str?)
      ensures file.Holds? && r.Failure? ==> r.error == MissingDbUrl
      ensures file.Holds? && r.Success? ==>
        Str(r.value.dbUrl) == Get(file.json, "db_url") && r.value.currentUserName == Get(file.json, "current_user_name")
    {
      match file
      case Missing => r := Failure(ConfigNotFound(path));
      case Unparsable(detail) => r := Failure(ConfigSyntax(detail));
      case Holds(json) => r := ValidateConfig(json);
    }

    method WriteConfig(c: Config)
      modifies this
      ensures file == Holds(ToRaw(c))
      ensures ReadResult(path, file) == Success(c)
    {
      file := Holds(ToRaw(c));
      WriteThenValidate(c);
    }

    method SetUser(name: string) returns (r: Result<(), Error>)
      modifies this
      ensures r == SetUserResult(path, old(file), name)
      ensures file == SetUserFile(path, old(file), name)
    {
      var config := ReadConfig();
      if config.Failure? {
        return Failure(config.error);
      }
      var updated := config.value.(currentUserName := Str(name));
      WriteConfig(updated);
      return Success(());
    }
  }

  // ---------------------------------------------------------------------
  // Properties of the mapping

  /** validateConfig fails exactly when `db_url` is not a string, and
      otherwise copies both fields. */
  lemma ValidateSpec(raw: JsValue)
    ensures ValidateConfig(raw).Failure? <==> !Get(raw, "db_url").Str?
    ensures ValidateConfig(raw).Failure? ==> ValidateConfig(raw).error == MissingDbUrl
    ensures ValidateConfig(raw).Success? ==>
      Str(ValidateConfig(raw).value.dbUrl) == Get(raw, "db_url")
      && ValidateConfig(raw).value.currentUserName == Get(raw, "current_user_name")
  {
  }

  /** Validating what writeConfig stores gives back the config. */
  lemma WriteThenValidate(c: Config)
    ensures ValidateConfig(ToRaw(c)) == Success(c)
  {
  }

  /** Writing a validated config keeps both of its keys as they were read. */
  lemma ValidateThenWrite(raw: JsValue)
    requires ValidateConfig(raw).Success?
    ensures Get(ToRaw(ValidateConfig(raw).value), "db_url") == Get(raw, "db_url")
    ensures Get(ToRaw(ValidateConfig(raw).value), "current_user_name") == Get(raw, "current_user_name")
  {
  }

  /** A missing file is the not-found error naming the path. */
  lemma ReadMissing(path: string)
    ensures ReadResult(path, Missing) == Failure(ConfigNotFound(path))
    ensures Message(ReadResult(path, Missing).error) == "Config file not found at: " + path
  {
  }

  /** After a successful setUser the file reads back with the new user and the
      old database URL; after a failed one it is unchanged. */
  lemma SetUserEffect(path: string, file: ConfigFile, name: string)
    ensures ReadResult(path, file).Success? ==>
      SetUserResult(path, file, name) == Success(())
      && ReadResult(path, SetUserFile(path, file, name))
         == Success(Config(ReadResult(path, file).value.dbUrl, Str(name)))
    ensures ReadResult(path, file).Failure? ==>
      SetUserResult(path, file, name) == Failure(ReadResult(path, file).error)
      && SetUserFile(path, file, name) == file
  {
    if ReadResult(path, file).Success? {
      WriteThenValidate(ReadResult(path, file).value.(currentUserName := Str(name)));
    }
  }

  /** setUser twice leaves the same file as setUser once. */
  lemma SetUserIdempotent(path: string, file: ConfigFile, name: string)
    ensures SetUserFile(path, SetUserFile(path, file, name), name) == SetUserFile(path, file, name)
    ensures SetUserResult(path, SetUserFile(path, file, name), name) == SetUserResult(path, file, name)
  {
    SetUserEffect(path, file, name);
  }
}
