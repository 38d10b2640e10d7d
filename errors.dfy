/** Every error the program throws, with the message it carries. */
module Errors {
  import opened Js

  /** The Postgres error code for a unique-constraint violation. */
  const UniqueViolation := "23505"

  /** A failure reported by the database driver. */
  datatype DbError =
    | PostgresError(code: string, message: string)
    | OtherDbError(message: string)

  datatype Error =
    // src/rss.ts
    | FetchFailed(reason: string)
    | BadStatus(status: nat)
    | MissingChannel
    | MissingChannelMetadata
    | NullishRead(isNull: bool, property: string)
    // src/config.ts
    | ConfigNotFound(path: string)
    | ConfigSyntax(detail: string)
    | MissingDbUrl
    // src/db/index.ts
    | DbUrlNotSet
    // src/index.ts
    | NoCommand
    | UnknownCommand(name: string)
    | MissingUsername(command: string)
    | TooManyArguments(command: string)
    | TakesNoArguments(command: string)
    | UserNotFound(name: string)
    | UserAlreadyExists(name: string)
    | Database(cause: DbError)

  /** The `message` of the thrown error (what `main` prints after "Error: "). */
  function Message(e: Error): string
  {
    match e
    case FetchFailed(reason) => "Failed to fetch: " + reason
    case BadStatus(status) => "Fetch failed with status " + NumberToString(status)
    case MissingChannel => "Invalid RSS feed: Missing channel"
    case MissingChannelMetadata => "Invalid RSS feed: Missing channel metadata"
    case NullishRead(isNull, property) =>
      "Cannot read properties of " + (if isNull then "null" else "undefined") + " (reading '" + property + "')"
    case ConfigNotFound(path) => "Config file not found at: " + path
    case ConfigSyntax(detail) => detail
    case MissingDbUrl => "Config is missing \"db_url\""
    case DbUrlNotSet => "Database URL is not set in config"
    case NoCommand => "No command provided. Usage: <command> [...args]"
    case UnknownCommand(name) => "Unknown command: " + name
    case MissingUsername(command) => "Usage: " + command + " <username>"
    case TooManyArguments(command) => "Usage: " + command + " <username> (too many arguments)"
    case TakesNoArguments(command) => "Usage: " + command + " (takes no arguments)"
    case UserNotFound(name) => "User \"" + name + "\" not found. Please register first."
    case UserAlreadyExists(name) => "User \"" + name + "\" already exists. Try logging in."
    case Database(cause) => cause.message
  }

  /** The message of a bad-status error ends with the status code in decimal,
      and that suffix reads back as the status. */
  lemma StatusInMessage(status: nat)
    ensures var m := Message(BadStatus(status));
            var d := NumberToString(status);
            |d| < |m| && m[|m| - |d|..] == d && DecimalValue(m[|m| - |d|..]) == status
  {
    DecimalRoundTrip(status);
  }
}
