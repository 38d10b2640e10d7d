# blog_aggregator: RSS validation, config mapping and command dispatch in Dafny

This project models the logic of the blog_aggregator command-line tool that involves no I/O:

- `src/rss.ts`: `fetchFeed` checks the HTTP status. It then checks that the parsed XML tree has an `rss.channel` whose title, link and description are strings. Last, it turns `channel.item` into a list of items and keeps only the items whose four fields are all strings.
- `src/config.ts`: the mapping between the snake_case JSON record on disk and the camelCase in-memory config, `readConfig`, and the read-modify-write `setUser`.
- `src/index.ts`: the string-keyed command registry, `runCommand`, the split of argv in `main`, each handler's argument check and effects, the `users` listing, and the exit status.

Modules:

- `Wrappers`: `Option` and `Result`.
- `Js`: the value a parser produces (`JsValue`), property reads, truthiness, and the decimal text of a number.
- `Errors`: every thrown error, with its message.
- `Rss`, `Configuration`, `Cli`: one module per source file.

The network, the XML and JSON libraries, the file system and the database are outside the model. Their answers are inputs:

- `Rss.FetchOutcome` stands for what `fetch` and the XML parser delivered.
- `Configuration.ConfigFile` stands for the config file. It is either missing or unreadable, present but not JSON, or holding a parsed JSON value.
- `Cli.Env` holds the answers of the database queries and of the network.

Code that changes state step by step is written as imperative Dafny, as the source is:

- The item loop is `Rss.CollectItems`. It is proved equal to the pure filter `Rss.NormalizeItems`.
- The registry is a class whose map field `RegisterCommand` updates.
- The config file is the field of `Configuration.ConfigStore`, which `SetUser` reads, changes and writes back.
- The `users` listing is a loop in `Cli.HandlerListUsers`.

Each of these methods is proved equal to a pure function: `Rss.FeedOf`, `Configuration.SetUserFile`, `Cli.LoginOutcome`, `Cli.MainOutcome` and so on. The lemmas state the source's promises about those functions.

A note on the code as written:

- An element of `channel.item` that is `null` or `undefined` makes the read of `item.title` (src/rss.ts:72) throw a TypeError. `Rss.NormalizeItems` models this as `NullishRead`.
- src/index.ts imports the user queries, and through them src/db/index.ts. Loading that module reads the config and throws when the database URL is empty (src/db/index.ts:10-15), before `main` runs. `Cli.StartupError` models this check, and `Cli.MainOutcome` applies it first.
- src/db/queries/posts.ts imports `posts` and `feedFollows` tables, which src/schema.ts does not define. No feed polling, post storage or fetch timestamps are modelled.

## Model

| member | source | states |
|---|---|---|
| Rss.FetchFeed | src/rss.ts:24-98 | fetchFeed's early returns and item loop compute exactly `FeedOf` of what the request produced |
| Rss.CollectItems | src/rss.ts:65-85 | the imperative item loop (skip, push, throw on a null/undefined item) equals the pure `NormalizeItems` |
| Rss.BadStatusIgnoresBody | src/rss.ts:39-41 | a response that is not ok fails with `BadStatus(status)`, and the document is never looked at |
| Errors.StatusInMessage | src/rss.ts:40 | the bad-status message ends with the status code in decimal, and that suffix reads back as the status |
| Rss.MissingChannelFails | src/rss.ts:50-52 | an ok response whose `rss` or `rss.channel` is missing or falsy fails with "Invalid RSS feed: Missing channel" |
| Rss.MetadataRequired | src/rss.ts:56-62 | a channel whose title, link or description is not a string fails with the metadata error, whatever its items are |
| Rss.FeedSuccess | src/rss.ts:39-98 | fetchFeed succeeds iff the status is ok, the channel is present, its metadata are strings and no item is null/undefined; the feed's title, link and description are the channel's own, and its items are `Keep` of the raw items |
| Rss.SingleItemIsList | src/rss.ts:66-67 | a truthy `channel.item` that is not an array gives the same feed as a one-element array holding it |
| Rss.NoItemsIsEmpty | src/rss.ts:65-66 | a missing or falsy `channel.item` gives an empty item list and no error |
| Rss.NormalizeItemsSpec | src/rss.ts:69-85 | the item loop succeeds iff no raw item is null/undefined, and the result is then the filter; otherwise the error comes from the first such item |
| Rss.Keep | src/rss.ts:69-85 | the filter never yields more items than it was given |
| Rss.KeptIndices | src/rss.ts:71-76 | the kept positions are strictly increasing, each is a raw item with four string fields, and every such raw item's position is among them |
| Rss.KeepSelects | src/rss.ts:69-85 | output item k is the conversion of the raw item at the k-th kept position, so the output is exactly the valid raw items in their original order |
| Rss.KeepAppend | src/rss.ts:69-85 | filtering a concatenation is the concatenation of the filtered parts |
| Rss.ToItem | src/rss.ts:77-82 | each pushed item's four fields are the raw item's four string fields |
| Rss.ItemIgnoresOtherFields | src/rss.ts:77-82 | a raw item's other fields do not reach the output item |
| Rss.FirstNullish | src/rss.ts:69-72 | finds the first null/undefined raw item (or none): every earlier item is readable |
| Rss.FirstNullishInsert | src/rss.ts:69-72 | inserting a readable item does not change whether, or on which item, the loop throws |
| Rss.SkippedItemChangesNothing | src/rss.ts:71-84 | adding an invalid (but readable) item anywhere in the raw list leaves the loop's result unchanged |
| Rss.SkippedItemKeepsFeed | src/rss.ts:65-98 | the same addition made to `channel.item` leaves the whole feed result unchanged |
| Configuration.ValidateSpec | src/config.ts:27-36 | validateConfig fails, with the missing-db_url error, exactly when `db_url` is not a string; otherwise it copies `db_url`, and passes `current_user_name` through unvalidated |
| Configuration.WriteThenValidate | src/config.ts:43-46 | validating the raw record that writeConfig builds from a config gives back that config |
| Configuration.ValidateThenWrite | src/config.ts:32-35 | writing a validated config keeps `db_url` and `current_user_name` as they were read |
| Configuration.ReadMissing | src/config.ts:60-64 | reading a missing file fails with "Config file not found at: " and the path |
| Configuration.ConfigStore.ReadConfig | src/config.ts:56-68 | a missing file gives the not-found error naming the path, and a file that is not JSON gives the parse error; a JSON file reads successfully exactly when its `db_url` is a string, and then both fields are copied; otherwise it gives the missing-db_url error; nothing changes |
| Configuration.ConfigStore.WriteConfig | src/config.ts:39-53 | the file then holds the raw record of the config, which reads back as that config |
| Configuration.ConfigStore.SetUser | src/config.ts:71-80 | the file and result after setUser are `SetUserFile` and `SetUserResult` of the old file |
| Configuration.SetUserEffect | src/config.ts:71-80 | after a successful setUser the file reads back with the new user and the old db URL; a failed read leaves the file unchanged and returns its error |
| Configuration.SetUserIdempotent | src/config.ts:73-79 | setUser twice with the same name leaves the same file, and the same result, as once |
| Cli.Registry.RegisterCommand | src/index.ts:18-24 | the name maps to the handler, replacing an earlier binding, and every other name keeps its handler |
| Cli.RunCommand | src/index.ts:29-41 | runCommand's result and the file afterwards are `CommandOutcome` of the registry |
| Cli.RunCommandSpec | src/index.ts:34-40 | an unregistered name fails with "Unknown command: name" and changes nothing; a registered one runs its handler with the same name and arguments |
| Cli.SplitArgvSpec | src/index.ts:211-216 | splitting fails with the no-command error exactly on an empty argv; otherwise the name and the rest put together are argv |
| Cli.OneArgumentHandlers | src/index.ts:50-55 | `login` (and `register`, lines 74-79): no argument gives the plain usage error, several give the too-many error, the file is unchanged, and one argument passes the check |
| Cli.NoArgumentHandlers | src/index.ts:108-110 | `reset` (and `users` at 132-134, `agg` at 170-172) accept only zero arguments: any argument gives that command's usage error and changes nothing, and no argument passes the check |
| Cli.OnlyLoginAndRegisterWrite | src/index.ts:106-191 | `reset`, `users` and `agg` never change the config file |
| Cli.HandlerLogin | src/index.ts:48-67 | the login handler's result and file are `LoginOutcome` |
| Cli.LoginSetsUserOnlyIfFound | src/index.ts:59-65 | login changes the file only when the database found the user; for an unknown user it fails with the not-found error; for a found user with a readable config it succeeds and the file reads back with that user and the old db URL |
| Cli.HandlerRegister | src/index.ts:72-101 | the register handler's result and file are `RegisterOutcome` |
| Cli.RegisterErrorSpec | src/index.ts:92-99 | a Postgres error with code 23505 becomes the already-exists error; every other error is rethrown unchanged |
| Cli.RegisterSetsUserOnlyOnSuccess | src/index.ts:82-99 | when createUser fails the file is unchanged and the mapped error is thrown; when it succeeds and the config file is readable, the command succeeds and the file reads back with the new user and the old db URL |
| Cli.HandlerReset | src/index.ts:106-124 | any argument gives the reset usage error; with none, the handler succeeds exactly when deleteAllUsers does, and otherwise rethrows the database error |
| Cli.HandlerListUsers | src/index.ts:130-163 | the users handler's loop produces `UsersOutcome`: the config's current user, then the listing or the error |
| Cli.ListingSpec | src/index.ts:144-157 | no users gives "No users found."; otherwise a "Users:" header and one line per user, in order |
| Cli.UserLinesAt | src/index.ts:151-157 | the i-th user line is the line for the i-th user |
| Cli.UserLineMarksCurrent | src/index.ts:152-156 | a user's line carries " (current)" exactly when the config's current user name is that name |
| Cli.HandlerAgg | src/index.ts:168-191 | any argument gives the agg usage error; with none, the handler succeeds exactly when fetchFeed of the fixed feed URL does, and otherwise rethrows fetchFeed's error |
| Cli.RunMain | src/index.ts:198-233 | after the load-time config check, main builds the five-command registry, splits argv and runs the command; its result and file are `MainOutcome`, and its exit status is `ExitCode` of the result |
| Cli.StartupCheck | src/db/index.ts:10-15 | the check at src/db/index.ts:10-15 fails exactly when the config cannot be read (with readConfig's error) or its database URL is empty; then no command runs and the status is 1 |
| Cli.ExitStatus | src/index.ts:211-231 | the exit status is 0 exactly when the command completed and 1 otherwise; after a successful load, an empty argv is the no-command error |
| Cli.MainCommands | src/index.ts:199-206 | after a successful load, a first argument other than the five registered names is the unknown-command error; a failed load gives its own error instead |
| Rss.FeedOf | src/rss.ts:35-98 | fetchFeed as a function of what the request produced: transport error, bad status, missing channel, missing metadata, then the item loop; its meaning is stated by FeedSuccess and the failure lemmas |
| Rss.FeedFromChannel | src/rss.ts:53-98 | the metadata check, the item loop and the assembled feed for a given channel element (MetadataRequired, SingleItemIsList, NoItemsIsEmpty, SkippedItemKeepsFeed) |
| Rss.RawItems | src/rss.ts:66-67 | `channel.item` as a list: empty when falsy, the array itself, or a one-element list |
| Rss.NormalizeItems | src/rss.ts:69-85 | the item loop as a function: the TypeError of the first null/undefined item, otherwise the filter (NormalizeItemsSpec) |
| Configuration.ValidateConfig | src/config.ts:27-36 | fails with MissingDbUrl unless db_url is a string; otherwise copies db_url and current_user_name (ValidateSpec) |
| Configuration.ToRaw | src/config.ts:43-46 | the snake_case record writeConfig stores, leaving out an undefined current_user_name as JSON.stringify does (WriteThenValidate, ValidateThenWrite) |
| Configuration.ReadResult | src/config.ts:56-68 | readConfig for a file state: not-found error naming the path, JSON parse error, or validateConfig of the parsed value (ReadMissing) |
| Configuration.SetUserResult | src/config.ts:71-80 | setUser's result: readConfig's error, if any (SetUserEffect) |
| Configuration.SetUserFile | src/config.ts:71-80 | the file setUser leaves: unchanged after a failed read, otherwise the config read with its user replaced (SetUserEffect, SetUserIdempotent) |
| Cli.OneArgument | src/index.ts:50-55 | the one-argument check of login and register (lines 74-79): plain usage error for none, too-many error for several (OneArgumentHandlers) |
| Cli.NoArguments | src/index.ts:108-110 | the no-argument check of reset, users (132-134) and agg (170-172) (NoArgumentHandlers) |
| Cli.SplitArgv | src/index.ts:211-216 | main's split of argv into the command name and its arguments, or the no-command error (SplitArgvSpec) |
| Cli.RegisterError | src/index.ts:92-99 | register's catch: code 23505 becomes the already-exists error, every other error is rethrown (RegisterErrorSpec) |
| Cli.UserLine | src/index.ts:152-156 | the line printed for one user, marked " (current)" for the config's current user (UserLineMarksCurrent) |
| Cli.Listing | src/index.ts:144-157 | the lines of the users command: "No users found." or a header and one line per user (ListingSpec) |
| Cli.StartupError | src/db/index.ts:10-15 | the load-time check: readConfig's error, or the not-set error for an empty database URL (StartupCheck) |
| Cli.MainOutcome | src/index.ts:198-233 | the program run: load-time check, argv split, then runCommand over the five-command registry (ExitStatus, MainCommands) |
| Errors.Message | src/rss.ts:36-61 | the message text of every thrown error, as written at the throw sites of src/rss.ts, src/config.ts, src/index.ts and src/db/index.ts |
| Js.NumberToString | src/rss.ts:40 | the decimal text of the status in the template literal: non-empty and all digits (DecimalRoundTrip gives its inverse) |
| Rss.OkStatus | src/rss.ts:39 | `response.ok`: the status lies in 200-299; any other status is rejected before the body is looked at (BadStatusIgnoresBody) |
| Rss.IsItem | src/rss.ts:71-76 | an item is kept when its title, link, description and pubDate are all strings (KeptIndices, KeepSelects) |
| Rss.HasMetadata | src/rss.ts:60 | the channel's title, link and description are all strings, else the metadata error (MetadataRequired, FeedSuccess) |
| Cli.SetUserOutcome | src/index.ts:65 | a handler's setUser call: readConfig's error with the file untouched, or success with the user recorded (SetUserEffect, LoginSetsUserOnlyIfFound) |
| Cli.LoginOutcome | src/index.ts:48-67 | login as a function of the arguments, findUser's answer and the file: usage errors, the database error, not-found, or setUser (OneArgumentHandlers, LoginSetsUserOnlyIfFound) |
| Cli.RegisterOutcome | src/index.ts:72-101 | register: usage errors, createUser's error mapped by the catch, or setUser of the new name (OneArgumentHandlers, RegisterErrorSpec, RegisterSetsUserOnlyOnSuccess) |
| Cli.ResetOutcome | src/index.ts:106-124 | reset: the usage error for any argument, deleteAllUsers' error, or success (NoArgumentHandlers, HandlerReset) |
| Cli.UserLines | src/index.ts:151-157 | the for...of over the users: one line per user, in order (UserLinesAt) |
| Cli.UsersOutcome | src/index.ts:130-163 | users: the usage error, readConfig's error, getAllUsers' error, or the listing marked with the config's current user (HandlerListUsers, ListingSpec) |
| Cli.AggOutcome | src/index.ts:168-191 | agg: the usage error, fetchFeed's error for the fixed feed URL, or success (HandlerAgg) |
| Cli.HandlerOutcome | src/index.ts:39 | calling the registered handler with its arguments; only login and register touch the config file (OnlyLoginAndRegisterWrite) |
| Cli.CommandOutcome | src/index.ts:28-40 | runCommand: an unregistered name gives the unknown-command error, otherwise its handler runs (RunCommandSpec) |
| Cli.DefaultCommands | src/index.ts:199-206 | main's five registrations of login, register, reset, users and agg (MainCommands) |
| Cli.ExitCode | src/index.ts:222-231 | `process.exit(0)` after a command that returns, `process.exit(1)` after one that throws (ExitStatus) |
| Js.DecimalRoundTrip | src/rss.ts:40 | the decimal text of a status reads back as that status |
| Js.NumberToStringInjective | src/rss.ts:40 | different statuses have different decimal texts |

## Left out

- The `fetch` call itself, its User-Agent header and `response.text()` (src/rss.ts:28-34, 43) are network I/O. `FetchOutcome` is their result. A transport failure becomes `FetchFailed(reason)`, with the reason as the text of the rejection.
- Reading the body with `response.text()` (src/rss.ts:43) is outside the try block, so its rejection would propagate unwrapped. The model assumes the body read succeeds.
- The connection set-up when src/db/index.ts loads (lines 18-21, the postgres driver and drizzle) is driver code. The model assumes it does not throw, so only the check at lines 10-15 can fail loading.
- `response.ok` is taken to be true exactly for statuses 200 to 299, as the Fetch standard defines it.
- The XML library (src/rss.ts:46-47) is foreign code. The document is the tree it would build, with its own typing rules (numeric text becoming numbers, and so on) not modelled. Numbers are reals, so NaN does not occur, and the parser is assumed not to throw.
- The file system, `os.homedir`/`path.join` (getConfigFilePath) and JSON.stringify/JSON.parse in src/config.ts are library I/O. The path is a given string, and the file state holds the parsed JSON value. A file that is not JSON is the `Unparsable` state, whose error text comes from the JSON library. Write failures of `writeFileSync` are not modelled.
- The database queries (src/db/queries/users.ts) are answers in `Cli.Env`, and any query may fail with a `DbError`. There is no link between createUser's unique violation and the users already stored.
- Console output other than the `users` listing is left out. That covers the success messages, the `console.error` lines, the pretty-printed feed of `agg` and main's "Error: " line. Main's result still carries the error, and `Errors.Message` gives its text.
- The load-time error is uncaught, so Node prints it with a stack trace instead of main's "Error: " line. The model gives only the error and the status 1.
- Main's branch for a thrown value that is not an `Error` is left out: every error in the model is an `Error`.
- Async sequencing and `process.exit` are left out. The exit status is returned instead.
- The registry is a plain map, so the prototype keys of a JavaScript `{}` (such as `toString`) are not registered names.
- Configuration.ToRaw: assumes `current_user_name` holds a JSON value, that is one with no `undefined` nested inside it. For such a value JSON.stringify followed by JSON.parse gives the value back.
