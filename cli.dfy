/** The command-line front end (src/index.ts): a registry of named command
    handlers, the split of argv into a command and its arguments, the
    handlers' argument checks and effects, and the exit status. Database
    queries and the network are abstract answers supplied in an `Env`. */
module Cli {
  import opened Wrappers
  import opened Js
  import opened Errors
  import opened Rss
  import opened Configuration

  /** The five handler functions the program registers. */
  datatype Handler = Login | Register | Reset | ListUsers | Agg

  /** The answers of the outside world to the calls the handlers make. */
  datatype Env = Env(
    findUser: string -> Result<bool, DbError>,    // getUserByName: whether a row was found
    createUser: string -> Result<(), DbError>,    // createUser
    deleteAllUsers: Result<(), DbError>,          // deleteAllUsers
    allUsers: Result<seq<string>, DbError>,       // getAllUsers: the names, in table order
    fetch: string -> FetchOutcome)                // the request fetchFeed makes for a URL

  /** The feed URL the `agg` command fetches. */
  const AggFeedUrl := "https://www.wagslane.dev/index.xml"

  /** What a command produced: its result (the lines of the `users` listing
      on success) and the config file afterwards. */
  datatype Outcome = Outcome(result: Result<seq<string>, Error>, file: ConfigFile)

  class Registry {
    var commands: map<string, Handler>

    constructor ()
      ensures commands == map[]
    {
      commands := map[];
    }

    /** registerCommand: binds the name, overwriting an earlier binding. */
    method RegisterCommand(name: string, handler: Handler)
      modifies this
      ensures commands == old(commands)[name := handler]
      ensures name in commands && commands[name] == handler
      ensures forall n :: n in old(commands) && n != name ==> n in commands && commands[n] == old(commands)[n]
      ensures commands.Keys == old(commands).Keys + {name}
    {
      commands := commands[name := handler];
    }
  }

  // ---------------------------------------------------------------------
  // Argument checks

  /** The check of `login` and `register`: exactly one argument, the user name. */
  function OneArgument(command: string, args: seq<string>): Result<string, Error>
  {
    if |args| == 0 then Failure(MissingUsername(command))
    else if |args| > 1 then Failure(TooManyArguments(command))
    else Success(args[0])
  }

  /** The check of `reset`, `users` and `agg`: no arguments. */
  function NoArguments(command: string, args: seq<string>): Option<Error>
  {
    if |args| > 0 then Some(TakesNoArguments(command)) else None
  }

  /** main's split of argv (after the runtime and script paths). */
  function SplitArgv(argv: seq<string>): Result<(string, seq<string>), Error>
  {
    if |argv| == 0 then Failure(NoCommand) else Success((argv[0], argv[1..]))
  }

  // ---------------------------------------------------------------------
  // What each handler does

  /** The result and file of a setUser call made by a handler. */
  function SetUserOutcome(path: string, file: ConfigFile, name: string): Outcome
  {
    Outcome(
      match SetUserResult(path, file, name)
      case Failure(e) => Failure(e)
      case Success(_) => Success([]),
      SetUserFile(path, file, name))
  }

  function LoginOutcome(args: seq<string>, path: string, file: ConfigFile, env: Env): Outcome
  {
    match OneArgument("login", args)
    case Failure(e) => Outcome(Failure(e), file)
    case Success(name) =>
      match env.findUser(name)
      case Failure(e) => Outcome(Failure(Database(e)), file)
      case Success(found) =>
        if !found then Outcome(Failure(UserNotFound(name)), file)
        else SetUserOutcome(path, file, name)
  }

  /** handlerRegister's catch: a unique violation means the user exists;
      any other database error is rethrown as it is. */
  function RegisterError(name: string, e: DbError): Error
  {
    if e.PostgresError? && e.code == UniqueViolation then UserAlreadyExists(name) else Database(e)
  }

  function RegisterOutcome(args: seq<string>, path: string, file: ConfigFile, env: Env): Outcome
  {
    match OneArgument("register", args)
    case Failure(e) => Outcome(Failure(e), file)
    case Success(name) =>
      match env.createUser(name)
      case Failure(e) => Outcome(Failure(RegisterError(name, e)), file)
      case Success(_) => SetUserOutcome(path, file, name)
  }

  function ResetOutcome(args: seq<string>, env: Env): Result<seq<string>, Error>
  {
    match NoArguments("reset", args)
    case Some(e) => Failure(e)
    case None =>
      match env.deleteAllUsers
      case Failure(e) => Failure(Database(e))
      case Success(_) => Success([])
  }

  /** The line printed for one user. */
  function UserLine(name: string, current: JsValue): string
  {
    if current == Str(name) then "* " + name + " (current)" else "* " + name
  }

  function UserLines(names: seq<string>, current: JsValue): seq<string>
  {
    if names == [] then []
    else UserLines(names[..|names| - 1], current) + [UserLine(names[|names| - 1], current)]
  }

  /** The lines the `users` command prints. */
  function Listing(names: seq<string>, current: JsValue): seq<string>
  {
    if names == [] then ["No users found."] else ["Users:"] + UserLines(names, current)
  }

  function UsersOutcome(args: seq<string>, path: string, file: ConfigFile, env: Env): Result<seq<string>, Error>
  {
    match NoArguments("users", args)
    case Some(e) => Failure(e)
    case None =>
      match ReadResult(path, file)
      case Failure(e) => Failure(e)
      case Success(config) =>
        match env.allUsers
        case Failure(e) => Failure(Database(e))
        case Success(names) => Success(Listing(names, config.currentUserName))
  }

  function AggOutcome(args: seq<string>, env: Env): Result<seq<string>, Error>
  {
    match NoArguments("agg", args)
    case Some(e) => Failure(e)
    case None =>
      match FeedOf(env.fetch(AggFeedUrl))
      case Failure(e) => Failure(e)
      case Success(_) => Success([])
  }

  /** Calling a handler. The handlers ignore the command name they are given. */
  function HandlerOutcome(h: Handler, cmdName: string, args: seq<string>, path: string, file: ConfigFile, env: Env): Outcome
  {
    match h
    case Login => LoginOutcome(args, path, file, env)
    case Register => RegisterOutcome(args, path, file, env)
    case Reset => Outcome(ResetOutcome(args, env), file)
    case ListUsers => Outcome(UsersOutcome(args, path, file, env), file)
    case Agg => Outcome(AggOutcome(args, env), file)
  }

  /** runCommand over a registry. */
  function CommandOutcome(commands: map<string, Handler>, cmdName: string, args: seq<string>,
                          path: string, file: ConfigFile, env: Env): Outcome
  {
    if cmdName !in commands then Outcome(Failure(UnknownCommand(cmdName)), file)
    else HandlerOutcome(commands[cmdName], cmdName, args, path, file, env)
  }

  /** The registry main builds. */
  function DefaultCommands(): map<string, Handler>
  {
    map["login" := Login, "register" := Register, "reset" := Reset, "users" := ListUsers, "agg" := Agg]
  }

  /** Loading the database module, before main runs: it reads the config and
      throws when the database URL is empty. */
  function StartupError(path: string, file: ConfigFile): Option<Error>
  {
    match ReadResult(path, file)
    case Failure(e) => Some(e)
    case Success(config) => if config.dbUrl == "" then Some(DbUrlNotSet) else None
  }

  /** The program: the load-time config check, then main. An error thrown at
      load is uncaught and also ends the process with status 1. */
  function MainOutcome(argv: seq<string>, path: string, file: ConfigFile, env: Env): Outcome
  {
    match StartupError(path, file)
    case Some(e) => Outcome(Failure(e), file)
    case None =>
      match SplitArgv(argv)
      case Failure(e) => Outcome(Failure(e), file)
      case Success(split) => CommandOutcome(DefaultCommands(), split.0, split.1, path, file, env)
  }

  /** The status main exits with. */
  function ExitCode<T>(r: Result<T, Error>): int
  {
    if r.Success? then 0 else 1
  }

  // ---------------------------------------------------------------------
  // The handlers, runCommand and main

  method HandlerLogin(cmdName: string, args: seq<string>, store: ConfigStore, env: Env) returns (r: Result<seq<string>, Error>)
    modifies store
    ensures Outcome(r, store.file) == LoginOutcome(args, store.path, old(store.file), env)
  {
    if |args| == 0 {
      return Failure(MissingUsername("login"));
    }
    if |args| > 1 {
      return Failure(TooManyArguments("login"));
    }
    var username := args[0];
    var user := env.findUser(username);
    if user.Failure? {
      return Failure(Database(user.error));
    }
    if !user.value {
      return Failure(UserNotFound(username));
    }
    var saved := store.SetUser(username);
    if saved.Failure? {
      return Failure(saved.error);
    }
    return Success([]);
  }

  method HandlerRegister(cmdName: string, args: seq<string>, store: ConfigStore, env: Env) returns (r: Result<seq<string>, Error>)
    modifies store
    ensures Outcome(r, store.file) == RegisterOutcome(args, store.path, old(store.file), env)
  {
    if |args| == 0 {
      return Failure(MissingUsername("register"));
    }
    if |args| > 1 {
      return Failure(TooManyArguments("register"));
    }
    var username := args[0];
    var created := env.createUser(username);
    if created.Failure? {
      var err := created.error;
      if err.PostgresError? && err.code == UniqueViolation {
        return Failure(UserAlreadyExists(username));
      }
      return Failure(Database(err));
    }
    var saved := store.SetUser(username);
    if saved.Failure? {
      return Failure(saved.error);
    }
    return Success([]);
  }

  method HandlerReset(cmdName: string, args: seq<string>, env: Env) returns (r: Result<seq<string>, Error>)
    ensures |args| > 0 ==> r == Failure(TakesNoArguments("reset"))
    ensures args == [] ==> (r.Success? <==> env.deleteAllUsers.Success?)
    ensures args == [] && r.Failure? ==> r.error == Database(env.deleteAllUsers.error)
    ensures r.Success? ==> r.value == []
  {
    if |args| > 0 {
      return Failure(TakesNoArguments("reset"));
    }
    if env.deleteAllUsers.Failure? {
      return Failure(Database(env.deleteAllUsers.error));
    }
    return Success([]);
  }

  method HandlerListUsers(cmdName: string, args: seq<string>, store: ConfigStore, env: Env) returns (r: Result<seq<string>, Error>)
    ensures r == UsersOutcome(args, store.path, store.file, env)
  {
    if |args| > 0 {
      return Failure(TakesNoArguments("users"));
    }
    var config := store.ReadConfig();
    if config.Failure? {
      return Failure(config.error);
    }
    var currentUserName := config.value.currentUserName;
    if env.allUsers.Failure? {
      return Failure(Database(env.allUsers.error));
    }
    var allUsers := env.allUsers.value;
    if |allUsers| == 0 {
      return Success(["No users found."]);
    }
    var lines := ["Users:"];
    var i := 0;
    while i < |allUsers|
      invariant 0 <= i <= |allUsers|
      invariant lines == ["Users:"] + UserLines(allUsers[..i], currentUserName)
    {
      var name := allUsers[i];
      if Str(name) == currentUserName {
        lines := lines + ["* " + name + " (current)"];
      } else {
        lines := lines + ["* " + name];
      }
      assert allUsers[..i + 1][..i] == allUsers[..i];
      i := i + 1;
    }
    assert allUsers[..i] == allUsers;
    return Success(lines);
  }

  method HandlerAgg(cmdName: string, args: seq<string>, env: Env) returns (r: Result<seq<string>, Error>)
    ensures |args| > 0 ==> r == Failure(TakesNoArguments("agg"))
    ensures args == [] ==> (r.Success? <==> FeedOf(env.fetch(AggFeedUrl)).Success?)
    ensures args == [] && r.Failure? ==> r.error == FeedOf(env.fetch(AggFeedUrl)).error
    ensures r.Success? ==> r.value == []
  {
    if |args| > 0 {
      return Failure(TakesNoArguments("agg"));
    }
    var feed := FetchFeed(env.fetch(AggFeedUrl));
    if feed.Failure? {
      return Failure(feed.error);
    }
    return Success([]);
  }

  /** runCommand: looks the name up and calls its handler with the same
      name and arguments. */
  method RunCommand(registry: Registry, cmdName: string, args: seq<string>, store: ConfigStore, env: Env)
    returns (r: Result<seq<string>, Error>)
    modifies store
    ensures Outcome(r, store.file) == CommandOutcome(registry.commands, cmdName, args, store.path, old(store.file), env)
  {
    if cmdName !in registry.commands {
      return Failure(UnknownCommand(cmdName));
    }
    var handler := registry.commands[cmdName];
    match handler
    case Login => r := HandlerLogin(cmdName, args, store, env);
    case Register => r := HandlerRegister(cmdName, args, store, env);
    case Reset => r := HandlerReset(cmdName, args, env);
    case ListUsers => r := HandlerListUsers(cmdName, args, store, env);
    case Agg => r := HandlerAgg(cmdName, args, env);
  }

  /** The program run: the database module's load-time config check, then
      main, which builds the registry, splits argv, runs the command and
      chooses the exit status. `argv` is process.argv without its first two
      entries. */
  method RunMain(argv: seq<string>, store: ConfigStore, env: Env) returns (exitCode: int, r: Result<seq<string>, Error>)
    modifies store
    ensures Outcome(r, store.file) == MainOutcome(argv, store.path, old(store.file), env)
    ensures exitCode == ExitCode(r)
  {
    var config := store.ReadConfig();
    if config.Failure? {
      return 1, Failure(config.error);
    }
    if config.value.dbUrl == "" {
      return 1, Failure(DbUrlNotSet);
    }
    var registry := new Registry();
    registry.RegisterCommand("login", Login);
    registry.RegisterCommand("register", Register);
    registry.RegisterCommand("reset", Reset);
    registry.RegisterCommand("users", ListUsers);
    registry.RegisterCommand("agg", Agg);
    assert registry.commands == DefaultCommands();
    if |argv| == 0 {
      r := Failure(NoCommand);
    } else {
      var cmdName := argv[0];
      var cmdArgs := argv[1..];
      r := RunCommand(registry, cmdName, cmdArgs, store, env);
    }
    exitCode := if r.Success? then 0 else 1;
  }

  // ---------------------------------------------------------------------
  // Properties

  /** runCommand on an unregistered name fails with the unknown-command error
      and leaves the config file alone; on a registered one it is that
      handler's outcome for the same name and arguments. */
  lemma RunCommandSpec(commands: map<string, Handler>, cmdName: string, args: seq<string>,
                       path: string, file: ConfigFile, env: Env)
    ensures cmdName !in commands ==>
      CommandOutcome(commands, cmdName, args, path, file, env) == Outcome(Failure(UnknownCommand(cmdName)), file)
      && Message(UnknownCommand(cmdName)) == "Unknown command: " + cmdName
    ensures cmdName in commands ==>
      CommandOutcome(commands, cmdName, args, path, file, env) == HandlerOutcome(commands[cmdName], cmdName, args, path, file, env)
  {
  }

  /** Splitting fails only on an empty argv; otherwise the name and the rest
      put back together are argv. */
  lemma SplitArgvSpec(argv: seq<string>)
    ensures SplitArgv(argv).Failure? <==> argv == []
    ensures SplitArgv(argv).Failure? ==> SplitArgv(argv).error == NoCommand
    ensures SplitArgv(argv).Success? ==>
      var (name, rest) := SplitArgv(argv).value;
      name == argv[0] && rest == argv[1..] && [name] + rest == argv
  {
  }

  /** `login` and `register` accept exactly one argument; zero or several give
      their usage errors and leave the config file alone. */
  lemma OneArgumentHandlers(h: Handler, cmdName: string, args: seq<string>, path: string, file: ConfigFile, env: Env)
    requires h == Login || h == Register
    ensures var command := if h == Login then "login" else "register";
            var o := HandlerOutcome(h, cmdName, args, path, file, env);
            (|args| == 0 ==> o == Outcome(Failure(MissingUsername(command)), file))
            && (|args| > 1 ==> o == Outcome(Failure(TooManyArguments(command)), file))
            && (|args| == 1 ==> o.result != Failure(MissingUsername(command)) && o.result != Failure(TooManyArguments(command)))
  {
    if |args| == 1 {
      var name := args[0];
      if h == Login {
        match env.findUser(name)
        case Failure(e) =>
        case Success(found) =>
          if found { SetUserEffect(path, file, name); }
      } else {
        match env.createUser(name)
        case Failure(e) =>
        case Success(_) => SetUserEffect(path, file, name);
      }
    }
  }

  /** `reset`, `users` and `agg` accept only zero arguments: any argument
      gives their usage error and leaves the config file alone, and no
      argument passes the check. */
  lemma NoArgumentHandlers(h: Handler, cmdName: string, args: seq<string>, path: string, file: ConfigFile, env: Env)
    requires h == Reset || h == ListUsers || h == Agg
    ensures var command := if h == Reset then "reset" else if h == ListUsers then "users" else "agg";
            var o := HandlerOutcome(h, cmdName, args, path, file, env);
            (args != [] ==> o == Outcome(Failure(TakesNoArguments(command)), file))
            && (args == [] ==> o.result != Failure(TakesNoArguments(command)))
  {
  }

  /** Only `login` and `register` can change the config file. */
  lemma OnlyLoginAndRegisterWrite(h: Handler, cmdName: string, args: seq<string>, path: string, file: ConfigFile, env: Env)
    requires h != Login && h != Register
    ensures HandlerOutcome(h, cmdName, args, path, file, env).file == file
  {
  }

  /** In `register`, a unique violation becomes the already-exists error and
      every other database error is passed on unchanged. */
  lemma RegisterErrorSpec(name: string, e: DbError)
    ensures RegisterError(name, e) == UserAlreadyExists(name) <==> e.PostgresError? && e.code == UniqueViolation
    ensures !(e.PostgresError? && e.code == UniqueViolation) ==> RegisterError(name, e) == Database(e)
  {
  }

  /** `register` sets the current user only after the user was created. */
  lemma RegisterSetsUserOnlyOnSuccess(name: string, path: string, file: ConfigFile, env: Env)
    ensures env.createUser(name).Failure? ==>
      RegisterOutcome([name], path, file, env) == Outcome(Failure(RegisterError(name, env.createUser(name).error)), file)
    ensures env.createUser(name).Success? && ReadResult(path, file).Success? ==>
      RegisterOutcome([name], path, file, env).result == Success([])
      && ReadResult(path, RegisterOutcome([name], path, file, env).file)
         == Success(Config(ReadResult(path, file).value.dbUrl, Str(name)))
  {
    SetUserEffect(path, file, name);
  }

  /** `login` changes the config file only for a user the database found,
      and for such a user with a readable config it records the user. */
  lemma LoginSetsUserOnlyIfFound(name: string, path: string, file: ConfigFile, env: Env)
    ensures LoginOutcome([name], path, file, env).file != file ==> env.findUser(name) == Success(true)
    ensures env.findUser(name) == Success(false) ==>
      LoginOutcome([name], path, file, env) == Outcome(Failure(UserNotFound(name)), file)
    ensures env.findUser(name) == Success(true) && ReadResult(path, file).Success? ==>
      LoginOutcome([name], path, file, env).result == Success([])
      && ReadResult(path, LoginOutcome([name], path, file, env).file)
         == Success(Config(ReadResult(path, file).value.dbUrl, Str(name)))
  {
    SetUserEffect(path, file, name);
  }

  lemma {:induction false} UserLinesAt(names: seq<string>, current: JsValue)
    ensures |UserLines(names, current)| == |names|
    ensures forall i :: 0 <= i < |names| ==> UserLines(names, current)[i] == UserLine(names[i], current)
  {
    if names != [] {
      var n := |names| - 1;
      UserLinesAt(names[..n], current);
      assert forall i :: 0 <= i < n ==> names[..n][i] == names[i];
    }
  }

  /** A user's line carries the "(current)" mark exactly when the config's
      current user is that name. */
  lemma UserLineMarksCurrent(name: string, current: JsValue)
    ensures UserLine(name, current) == "* " + name + " (current)" <==> current == Str(name)
    ensures current != Str(name) ==> UserLine(name, current) == "* " + name
  {
  }

  /** The `users` listing: a fixed line for no users, otherwise a header and
      one line per user in order. */
  lemma ListingSpec(names: seq<string>, current: JsValue)
    ensures names == [] ==> Listing(names, current) == ["No users found."]
    ensures names != [] ==>
      |Listing(names, current)| == |names| + 1
      && Listing(names, current)[0] == "Users:"
      && forall i :: 0 <= i < |names| ==> Listing(names, current)[i + 1] == UserLine(names[i], current)
  {
    UserLinesAt(names, current);
  }

  /** The load-time check fails exactly when the config cannot be read or its
      database URL is empty; then nothing of main runs and the status is 1. */
  lemma StartupCheck(argv: seq<string>, path: string, file: ConfigFile, env: Env)
    ensures StartupError(path, file).None? <==> ReadResult(path, file).Success? && ReadResult(path, file).value.dbUrl != ""
    ensures ReadResult(path, file).Failure? ==> StartupError(path, file) == Some(ReadResult(path, file).error)
    ensures StartupError(path, file).Some? ==>
      MainOutcome(argv, path, file, env) == Outcome(Failure(StartupError(path, file).value), file)
      && ExitCode(MainOutcome(argv, path, file, env).result) == 1
  {
  }

  /** The program exits with 0 exactly when the command completed; after a
      successful load, an empty argv is the no-command error with status 1. */
  lemma ExitStatus(argv: seq<string>, path: string, file: ConfigFile, env: Env)
    ensures ExitCode(MainOutcome(argv, path, file, env).result) == 0 <==> MainOutcome(argv, path, file, env).result.Success?
    ensures argv == [] && StartupError(path, file).None? ==>
      MainOutcome(argv, path, file, env) == Outcome(Failure(NoCommand), file)
      && ExitCode(MainOutcome(argv, path, file, env).result) == 1
  {
  }

  /** After a successful load, main knows exactly the five commands. */
  lemma MainCommands(argv: seq<string>, path: string, file: ConfigFile, env: Env)
    requires argv != [] && argv[0] !in {"login", "register", "reset", "users", "agg"}
    ensures StartupError(path, file).None? ==>
      MainOutcome(argv, path, file, env) == Outcome(Failure(UnknownCommand(argv[0])), file)
    ensures StartupError(path, file).Some? ==>
      MainOutcome(argv, path, file, env) == Outcome(Failure(StartupError(path, file).value), file)
  {
  }
}
