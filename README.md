# mcp-mysql-server: a Dafny model of its own logic

mcp-mysql-server is a Model Context Protocol server over standard input and
output. It offers one tool, `execute_sql`, which runs SQL against MySQL. The
protocol machinery comes from an SDK: message parsing, the JSON-RPC
dispatcher, the stdio transport and the built-in handlers. That SDK is not
part of this model. The repository adds four small components, and this
project models and verifies each of them:

- **`JsonConsoleLogger`** (`logging.dfy`, module `Logging`). A PSR-3 logger.
  It merges the caller's level-to-verbosity table over a built-in one and
  rejects unknown levels. It writes at most one JSON line per record, and only
  when the console's verbosity reaches the level's. It fills `{key}`
  placeholders from the context with one `strtr` pass. PHP's `strtr` and its
  integer-to-string conversion are modelled in `php_string.dfy` (module
  `PhpString`).
- **`InitializeHandler`** (`initialize_handler.dfy`, module `RequestHandler`).
  A pure function from an `initialize` request to its response. The response
  echoes the request id, has fixed capability flags, and reports the
  configured protocol version and server identity.
- **`ToolChain`** (`tool_chain.dfy`, module `Capability`). A class whose
  constructor loop hands the logger to every logger-aware item. It then passes
  the unchanged list of items on to the SDK's chain.
- **`ExecuteSQLExecutor`** (`execute_sql.dfy`, module `ExecuteSQL`). It reads
  `arguments['sql']`, logs, runs the query and logs the row count. Any
  throwable becomes an `isError` result. When encoding the rows fails, the
  content becomes `'[]'`. `CallSpec` states this decision as a function, and
  the class method `Call` does it step by step against a logger object.

`wrappers.dfy` holds the `Option` and `Result` types.

Environment that the model passes in as parameters:
- the JSON encoder, as a partial function (`None` where `json_encode` returns false);
- the logger's clock, as an RFC 3339 string;
- the database connection, as a function from the SQL argument to rows or a fault message;
- a logger's failure to accept a message, as a function from the message to the thrown message.

The verbosity constants are Symfony's: NORMAL 32, VERBOSE 64, VERY_VERBOSE
128, DEBUG 256.

Three points of the executor's behaviour, as its code has it:
- On success the executor builds its result with only the content, so the
  other fields are the SDK's defaults. The model keeps them unknown
  (`WithDefaults`) and does not assume `isError` is false.
- The executor, not the SDK's call handler, turns throwables into error
  results.
- If no logger was ever bound, the first `info` call raises PHP's error on
  null. The same `catch` turns that into an error result as well.

## Model

| member | source | states |
|---|---|---|
| `Logging.DefaultLevelMap` | src/Logger/JsonConsoleLogger.php:26-35 | the built-in table defines exactly the eight PSR-3 levels |
| `Logging.DefaultLevelMapValues` | src/Logger/JsonConsoleLogger.php:26-35 | emergency, alert, critical, error and warning map to NORMAL; notice maps to VERBOSE, info to VERY_VERBOSE, debug to DEBUG |
| `Logging.MergeLevelMap` | src/Logger/JsonConsoleLogger.php:44 | PHP array union: the levels are the union of both tables; caller values win; defaults fill only the absent levels |
| `Logging.MergeKeepsEveryLevel` | src/Logger/JsonConsoleLogger.php:44 | whatever table the caller passes, all eight PSR-3 levels stay defined after construction |
| `Logging.JsonConsoleLogger.constructor` | src/Logger/JsonConsoleLogger.php:40-45 | the logger keeps its output and the merged table, caller's table over the defaults |
| `Logging.DefaultTableRespectsSeverity` | src/Logger/JsonConsoleLogger.php:26-35 | under the default table, if a level is written at some output verbosity then every more severe level is written too |
| `Logging.LogLines` | src/Logger/JsonConsoleLogger.php:51-78 | an unknown level gives InvalidArgumentException with the source's message; otherwise at most one line is written, and one is written exactly when the output verbosity is at least the level's; the line carries the level's verbosity and is the encoding of (level, interpolated message, context, timestamp) or `{"error":"Failed to encode log message"}` |
| `Logging.JsonConsoleLogger.Log` | src/Logger/JsonConsoleLogger.php:51-78 | the output's lines grow by exactly the lines `LogLines` allows; an unknown level throws and writes nothing |
| `Logging.RenderValue` | src/Logger/JsonConsoleLogger.php:93-101 | the text `strtr` inserts for a replacement: null gives the empty string; a boolean gives a non-empty string exactly when true (the exact texts are in `RenderValueFallbacks`); an integer's rendering reads back as that integer; a string is itself; a Stringable object gives its string before its RFC 3339 form is considered |
| `Logging.RenderValueFallbacks` | src/Logger/JsonConsoleLogger.php:93-100 | `true` renders as `1` and `false` as the empty string; an integer renders as PHP's decimal text (`IntToString`); a float renders as PHP's own text for it; an object that is neither Stringable nor a date renders as `[object Class]`; any other value renders as `[type]` |
| `Logging.PlaceholderInjective` | src/Logger/JsonConsoleLogger.php:94 | distinct context keys give distinct `{key}` placeholders |
| `Logging.ReplacementTable` | src/Logger/JsonConsoleLogger.php:91-102 | one entry per context key, under `{key}`, and no other entries; the value is the scalar, Stringable text, RFC 3339 text, `[object Class]` or `[type]`, in the source's branch order |
| `Logging.TableOfAdd` | src/Logger/JsonConsoleLogger.php:92-101 | one loop step adds the current key's entry and keeps the table exact for the keys done so far |
| `Logging.TableOfUnique` | src/Logger/JsonConsoleLogger.php:91-102 | a replacement table is determined by its context, so the loop's table is the table |
| `Logging.JsonConsoleLogger.Interpolate` | src/Logger/JsonConsoleLogger.php:85-105 | the loop-built table with one `strtr` pass gives `Interpolated`: the message itself when it has no `{`, else `strtr` with the replacement table |
| `Logging.Interpolated` | src/Logger/JsonConsoleLogger.php:85-105 | for every message, the early return for a message without `{` agrees with the one `strtr` pass, so `interpolate` is that pass with the replacement table |
| `Logging.InterpolateEmptyContext` | src/Logger/JsonConsoleLogger.php:91-104 | with an empty context the message comes back unchanged |
| `Logging.OnlyOwnPlaceholderMatches` | src/Logger/JsonConsoleLogger.php:104 | at a brace-free placeholder, the only table key that can match is that placeholder itself |
| `Logging.NoKeyAtUnknownHole` | src/Logger/JsonConsoleLogger.php:104 | a placeholder of a key that is not in the context matches no table key |
| `Logging.StrtrAtKnownHole` | src/Logger/JsonConsoleLogger.php:104 | a placeholder of a context key is replaced by that key's value, and the scan resumes after it |
| `Logging.StrtrAtUnknownHole` | src/Logger/JsonConsoleLogger.php:104 | a placeholder of any other key is copied verbatim |
| `Logging.StrtrFillsTemplate` | src/Logger/JsonConsoleLogger.php:104 | the `strtr` pass over a message made of literal text and placeholders equals the message with each known placeholder replaced once and all other text kept |
| `Logging.InterpolateFillsTemplate` | src/Logger/JsonConsoleLogger.php:87-104 | `interpolate` does the same: single pass; text outside placeholders is preserved; inserted text is not rescanned |
| `Logging.ReplacementIsNotRescanned` | src/Logger/JsonConsoleLogger.php:104 | `{a}` with a = `{b}` and b = `X` becomes `{b}`: a placeholder brought in by a replacement is not expanded |
| `PhpString.LongestKeyAt` | src/Logger/JsonConsoleLogger.php:104 | finds the longest non-empty table key that is a prefix of the text: it is in the table, and no longer prefix is |
| `PhpString.StrtrCopiesChar` | src/Logger/JsonConsoleLogger.php:104 | where no key starts, `strtr` copies one character and moves on |
| `PhpString.StrtrEmptyTable` | src/Logger/JsonConsoleLogger.php:104 | `strtr` with no pairs returns its subject |
| `PhpString.StrtrCopiesText` | src/Logger/JsonConsoleLogger.php:104 | text in which no key can start is copied verbatim, and the scan continues after it |
| `PhpString.StrtrNoKeyStart` | src/Logger/JsonConsoleLogger.php:87-88 | a subject in which no key can start is returned unchanged |
| `PhpString.StrtrReplacesKey` | src/Logger/JsonConsoleLogger.php:104 | where a key is the longest match, its value is emitted and the scan resumes after the key |
| `PhpString.NatToString` | src/Tool/ExecuteSQL/ExecuteSQLExecutor.php:36 | the decimal rendering of a count is a non-empty string of digits, with no leading zero unless the count is 0 |
| `PhpString.IntToString` | src/Logger/JsonConsoleLogger.php:93-94 | PHP's integer-to-string rendering is non-empty and starts with `-` exactly for negatives |
| `PhpString.IntToStringCanonical` | src/Logger/JsonConsoleLogger.php:93-94 | the rendering is canonical: an optional `-`, then only digits, the first of which is `0` only for zero |
| `PhpString.NatToStringRoundTrip` | src/Tool/ExecuteSQL/ExecuteSQLExecutor.php:36 | reading the digits back gives the count |
| `PhpString.IntToStringRoundTrip` | src/Logger/JsonConsoleLogger.php:93-94 | reading the rendering back gives the integer, so no information is lost |
| `RequestHandler.DefaultInitializeHandler` | src/Server/RequestHandler/InitializeHandler.php:11-15 | the constructor's defaults are name `app`, version `dev` and protocol version `2025-03-26` |
| `RequestHandler.SupportedMethod` | src/Server/RequestHandler/InitializeHandler.php:31-34 | the handler answers exactly the method `initialize` |
| `RequestHandler.MemberAt` | src/Server/RequestHandler/InitializeHandler.php:20-28 | looking up a key in a JSON object gives the value of its first occurrence |
| `RequestHandler.AtStep` | src/Server/RequestHandler/InitializeHandler.php:20-28 | following a path through nested objects is done one key at a time |
| `RequestHandler.InitializeResult` | src/Server/RequestHandler/InitializeHandler.php:20-28 | the result object's members are `protocolVersion`, `capabilities` and `serverInfo`, in that order, and `protocolVersion` is the configured one |
| `RequestHandler.ServerInfoFacts` | src/Server/RequestHandler/InitializeHandler.php:20-27 | the result holds, in order, `protocolVersion`, `capabilities` and `serverInfo`; `serverInfo` holds exactly `name` and `version`; the configured version, name and server version read back |
| `RequestHandler.FlagPath` | src/Server/RequestHandler/InitializeHandler.php:22-26 | a false flag inside a capability kind can be reached along its path |
| `RequestHandler.KindPath` | src/Server/RequestHandler/InitializeHandler.php:22-26 | a capability kind can be reached along its two-key path |
| `RequestHandler.CapabilityFacts` | src/Server/RequestHandler/InitializeHandler.php:22-26 | `capabilities` holds prompts, tools and resources, in that order; prompts and tools hold only `listChanged`, resources only `listChanged` and `subscribe`; every flag is false |
| `RequestHandler.CreateResponse` | src/Server/RequestHandler/InitializeHandler.php:18-29 | the response id is the request id; the result's keys, protocol version, server name and version, and the four constant false flags, each read back along its JSON path; `serverInfo` has exactly the members `name` and `version`, prompts and tools exactly `listChanged`, resources exactly `listChanged` and `subscribe` |
| `RequestHandler.CreateResponseIsStateless` | src/Server/RequestHandler/InitializeHandler.php:18-29 | the result depends on nothing in the request but its id: any two requests get equal results, and equal ids get equal responses |
| `Capability.Item.SetLogger` | src/Capability/ToolChain.php:22 | a logger-aware item keeps the logger it is given, and the call is recorded once on that logger |
| `Capability.LoggerAware` | src/Capability/ToolChain.php:20-21 | the logger-aware items (their order is stated by `LoggerAwareAppend`): at most as many as the items; each is an item and logger-aware; every logger-aware item is included |
| `Capability.LoggerAwareAppend` | src/Capability/ToolChain.php:20-21 | the filter of a list with one more item adds that item exactly when it is logger-aware |
| `Capability.ToolChain.constructor` | src/Capability/ToolChain.php:13-27 | every logger-aware item ends up with the given logger; other items keep theirs; the `setLogger` calls the logger receives are exactly one per logger-aware item, in the items' order; the SDK chain receives the same list, with nothing added, removed or reordered |
| `ExecuteSQL.SqlArgument` | src/Tool/ExecuteSQL/ExecuteSQLExecutor.php:31 | the SQL text is `arguments['sql']` when that key is present, and null exactly when it is absent |
| `ExecuteSQL.ErrorResult` | src/Tool/ExecuteSQL/ExecuteSQLExecutor.php:38 | a caught throwable becomes its message as `text`, mime type `text/plain`, with the error flag set |
| `ExecuteSQL.MetadataName` | src/Tool/ExecuteSQL/ExecuteSQLMetadata.php:14-24 | the metadata name is `execute_sql` |
| `ExecuteSQL.ExecuteSQLExecutor.GetName` | src/Tool/ExecuteSQL/ExecuteSQLExecutor.php:24-27 | the executor's name is the metadata's name, so both share one identifier |
| `ExecuteSQL.CallSpec` | src/Tool/ExecuteSQL/ExecuteSQLExecutor.php:29-47 | an error result always has type `text`, mime type `text/plain` and the error flag set; at most two info messages are logged, the first carrying the SQL text; a result built with only its content comes exactly when both messages were logged; in that case the query returned rows, the second message carries their count, and the content is their encoding or `[]`; conversely, when neither `info` throws and the query returns rows, the result is that content and both messages are logged |
| `ExecuteSQL.CallFaults` | src/Tool/ExecuteSQL/ExecuteSQLExecutor.php:33-38 | a throwing first `info` gives an error result with that message and logs nothing; a faulting query logs only the first message and gives an error result with the fault's message; a throwing second `info` logs only the first message and gives an error result with its message |
| `ExecuteSQL.CallReadsOnlySql` | src/Tool/ExecuteSQL/ExecuteSQLExecutor.php:31 | two tool calls that agree on `arguments['sql']` get the same outcome |
| `ExecuteSQL.ExecuteSQLExecutor.constructor` | src/Tool/ExecuteSQL/ExecuteSQLExecutor.php:19-22 | the executor keeps its connection and starts with no logger bound |
| `ExecuteSQL.ExecuteSQLExecutor.SetLogger` | src/Tool/ExecuteSQL/ExecuteSQLExecutor.php:17 | the executor keeps the logger bound to it |
| `ExecuteSQL.ExecuteSQLExecutor.Call` | src/Tool/ExecuteSQL/ExecuteSQLExecutor.php:29-47 | the result is `CallSpec`'s, and the bound logger's messages grow by exactly `CallSpec`'s logged messages |

## Left out

- The SDK's protocol core is not part of this model. That covers the message factory, the JSON-RPC dispatcher, the serve loop, the stdio transport and the built-in handlers (ping, prompts, resources, tool list and call, `initialized`). Their code is not in the repository.
- The base handler's `supports` test (`BaseRequestHandler`) belongs to the SDK. Only the method name the handler declares is modelled.
- The SDK chain's `find` and `list` are not modelled, for the same reason. The model only records the list of items the SDK chain receives.
- `src/Command/QueryServerCommand.php` is left out. It is CLI wiring and transport start-up.
- `src/Builder/QueryServerBuilder.php` and `src/Tool/ExecuteSQL/ExecuteSQLBuilder.php` are left out. They compose SDK objects. The handler arguments `('mysql-server', 'dev', '2024-11-05')` that the second one passes are not modelled.
- `src/Utils/VersionResolver.php` is left out. It does file I/O and parses composer.json.
- Only the name of `ExecuteSQLMetadata` is modelled. Its descriptor constants are left out.
- `ExecuteSQLTool::call` is left out. It duplicates the executor and the builder does not wire it in.
- `json_encode` is a parameter, and so are the clock, the database connection and the logger's failures.
- PHP's rendering of floats, the names `gettype` returns, class names and RFC 3339 formatting are kept as opaque strings in `Value`.
- Choosing stderr from a console output is left out (src/Logger/JsonConsoleLogger.php:58-60). The modelled output is the error stream itself.
- Symfony's own handling inside `writeln` is left out. That covers its verbosity check and its formatting. The model records each written line with its verbosity.
- A `Stringable` message cast with `(string)` is left out. The message arrives as a string.
- Integer context keys are not modelled. PHP would render them in decimal inside the placeholder; the model's context keys are strings.
- Context order is not modelled. The context is a map, and the order of `foreach` does not affect the replacement table.
- Logging.InterpolateFillsTemplate: its hypothesis is narrower than all inputs. Context keys must not contain `}`, placeholders in the message must not contain braces, and literal text must not contain `{`. `Interpolated` and `Strtr` themselves model every input, including overlapping keys, where the longest key wins.
- ExecuteSQL.CallSpec: a row maps column names to an optional string. Other cell types are not modelled, and the encoder is opaque anyway.
- PHP's warning for a missing `sql` key is left out. The model passes `None` to the connection, which stands for the null argument. The TypeError that PHP raises for that null under strict types is not modelled separately; it is the connection function's outcome.
- A tool-call argument that is not a string is not modelled.
- Strings are sequences of characters, while PHP's `strtr` and `str_contains` work on bytes. The two agree on valid UTF-8 text, because the byte of `{` never occurs inside a multibyte sequence. Invalid UTF-8 is not modelled.
- A JSON number in a request's params is kept as its literal text. The handler never reads the params, so `CreateResponseIsStateless` still covers every request.
- A logger that throws is modelled as recording nothing for that message.
- The chain's `iterable` items are modelled as a list, which is what the builder passes. A PHP Generator as the items would not fit this model: it would already be consumed when it reaches the SDK's chain.
