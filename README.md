# lune-mcp, modelled in Dafny

lune-mcp is a Model Context Protocol server with one tool,
`lookup_context_for_<lune name>`. Given a user query, the tool asks the Lune
API for context chunks on a bound lune, formats them into one text block and
returns that block, or a failure message, as a single text item. The server
is configured from command-line flags and environment variables. It serves
the tool over stdio or over SSE. The SSE transport keeps the current
connection in a single slot.

This project models the deterministic logic of `src/index.ts`:

- `wrappers.dfy`: `Option` (for `undefined`/`null`) and `Result` (for a thrown error).
- `text.dfy`: the JavaScript string operations the code relies on.
  - `join`, `split("=")` and `startsWith`.
  - Printing an integer in a template literal.
  - `parseInt(s, 10)`.
  - Round-trip lemmas connecting them.
- `lune_client.dfy`: `makeLuneRequest` after `fetch`. An abstract HTTP outcome is
  normalised into `{content, statusCode?}` or `null`. This covers the chunk
  template, the blank-line separator, the `Unknown` source and the
  `No relevant context found` substitution.
- `tool.dfy`: the tool's name, the descriptor it is registered with and the
  handler's decision chain from the normalised result to one reply text.
- `cli.dfy`: `parseArgs`. It is a loop method that updates the options record
  field by field. The method is proved equal to a fold specification. Lemmas
  cover skipped non-flags, last-wins, first-error-wins, the environment
  fallbacks and the defaults.
- `server.dfy`: `main`'s choice of transport after parsing and registering the tool.
- `sse.dfy`: the SSE binding. The class `SseServer` has the nullable
  `sseTransport` slot, `GetSse` overwrites it and `PostMessages` forwards to it
  or answers 400. A ghost history of requests and the `Inbox` function
  specify what each transport ever created has received.

The SSE binding is modelled as the code has it. It has one slot. Every
`GET /sse` overwrites it. The slot is never cleared when a connection closes,
and the `/messages` route ignores any session identity a post carries. So a transport that has been replaced
receives nothing more, and every post after the first `GET /sse` goes to the
newest transport. The model has no keyed registry and no removal on close.

## Model

| member | source | states |
|---|---|---|
| Text.SplitOn | src/index.ts:81 | `split("=")` yields at least one piece and no piece contains "=" |
| Text.JoinSplit | src/index.ts:81 | joining the pieces of a split with the separator gives back the split string |
| Text.SplitJoin | src/index.ts:81 | splitting a join of separator-free pieces gives back exactly those pieces, so key and value are recovered |
| Text.JoinAppend | src/index.ts:55 | `join` of two non-empty lists is the two joins with one separator between: nothing is reordered or dropped |
| Text.NatToString | src/index.ts:187 | the printed numeral is non-empty, made of decimal digits only, and starts with 0 only for 0 (no leading zeros) |
| Text.NatToStringValue | src/index.ts:187 | the printed numeral of n denotes n |
| Text.LeadingDigitsStop | src/index.ts:94 | `parseInt` takes the digits of a numeral and stops at the first non-digit |
| Text.ParseIntPrefix | src/index.ts:94 | `parseInt` of a printed integer followed by non-digit text returns that integer |
| Text.ParseIntRoundTrip | src/index.ts:127 | `parseInt` reads back any printed integer |
| Text.IntToStringInjective | src/index.ts:187 | distinct integers print as distinct numerals |
| LuneClient.RenderAll | src/index.ts:51-54 | `map` yields one rendering per chunk, in the chunks' order |
| LuneClient.MakeLuneRequest | src/index.ts:24-61 | null exactly on a network failure or an ok body without a chunks array; statusCode present exactly for a non-ok response, equal to its status, with empty content; otherwise non-empty content |
| LuneClient.NotOkIgnoresBody | src/index.ts:39-41 | a non-ok response gives `{content: "", statusCode: status}` whatever its body |
| LuneClient.FormatSingle | src/index.ts:52-54 | one chunk renders as content, "\nSource: ", then the source or "Unknown" when absent or empty |
| LuneClient.FormatAppend | src/index.ts:51-55 | formatting two runs of chunks is formatting each with one "\n\n" between, in order |
| LuneClient.FormatHasNewline | src/index.ts:51-55 | the formatting of any non-empty list of chunks contains a line break |
| LuneClient.NoContextIffEmpty | src/index.ts:56 | an ok response with a chunks array yields "No relevant context found" if and only if the array is empty, else the formatted chunks unchanged |
| LuneClient.FormatLength | src/index.ts:51-55 | the formatted text is as long as all renderings plus one separator between neighbours |
| LuneClient.FormatHead | src/index.ts:51-55 | the formatted text starts with the first chunk's rendering, then "\n\n" if more chunks follow |
| LuneClient.FormatSuffix | src/index.ts:51-55 | from chunk i's offset on, the formatted text is the formatting of the chunks from i on |
| LuneClient.ChunkAt | src/index.ts:51-55 | every chunk's rendering sits at the offset fixed by the chunks before it, followed by "\n\n" unless last |
| Tool.ToolNameRoundTrip | src/index.ts:152 | the lune name can be read back from the tool name `lookup_context_for_${lune_name}` |
| Tool.LuneNameOfIsInverse | src/index.ts:152 | every name with the prefix is the tool name of the text after the prefix |
| Tool.ToolNameInjective | src/index.ts:152 | distinct lunes get distinct tool names |
| Tool.Describe | src/index.ts:151-156 | the registered name carries the lune name after the prefix; the description is the fixed text |
| Tool.Reply | src/index.ts:160-200 | the handler always answers with exactly one text item holding the decision chain's text |
| Tool.FailureReply | src/index.ts:158-169 | network failure, unparsable body or missing chunks array gives "Failed to retrieve context from Lune API" |
| Tool.QuotaReply | src/index.ts:171-180 | status 402 gives the quota message whatever the query and body |
| Tool.HttpErrorReply | src/index.ts:182-191 | any other non-ok non-zero status S gives "Failed to retrieve context from Lune API: HTTP error " + S, and S parses back from the reply |
| Tool.HttpErrorReplyInjective | src/index.ts:182-191 | two different error statuses never give the same reply |
| Tool.ContextReplyFor | src/index.ts:193-200 | an ok response with chunks gives `Context for "query":` + "\n\n" + the formatted chunks or "No relevant context found" |
| Tool.ContextReplyDistinct | src/index.ts:160-200 | the context reply is never one of the three failure replies |
| Tool.TwoChunksExample | src/index.ts:51-56 | chunks A/doc1 and B/no source give `Context for "q":\n\nA\nSource: doc1\n\nB\nSource: Unknown` |
| Tool.NoChunksExample | src/index.ts:56 | an empty chunks array gives `Context for "q":\n\nNo relevant context found` |
| Cli.Or | src/index.ts:105 | JavaScript `a or b` on strings: a when a is a non-empty string, else b; truthy iff either is |
| Cli.ParseArgs | src/index.ts:64-130 | the loop over the arguments and the fallbacks return exactly the specified result or error |
| Cli.ScanAppend | src/index.ts:79-103 | scanning p then q is scanning q from the options p left, unless p threw |
| Cli.ThrowStopsScan | src/index.ts:89-101 | an argument that throws makes the whole scan throw that error |
| Cli.NonFlagIgnored | src/index.ts:80 | an argument not starting with "--" can be removed without changing the outcome |
| Cli.ApplyArgAccepts | src/index.ts:80-101 | one argument is accepted iff it is not a flag, or has a known key, a stdio/sse transport, a numeric port; else it raises the matching error |
| Cli.ScanOkIff | src/index.ts:79-103 | the scan succeeds iff every argument is acceptable |
| Cli.FirstRejectionReported | src/index.ts:79-103 | a failing scan reports the first unacceptable argument's error |
| Cli.ScanKeepsKey | src/index.ts:82-98 | arguments with other keys leave a key's value unchanged |
| Cli.LastOccurrenceWins | src/index.ts:79-103 | a repeated key takes the value of its last occurrence (the port as parsed) |
| Cli.NeverSetStaysUndefined | src/index.ts:71-77 | a key no argument names stays undefined |
| Cli.FlagParts | src/index.ts:81 | `--key=value` with no "=" in key or value yields exactly that key and value |
| Cli.Resolve | src/index.ts:105-129 | a successful result has non-empty api key, lune name, lune id and transport |
| Cli.RequiredValues | src/index.ts:105-124 | missing api key, lune name, lune id errors are raised in that order, each exactly when option and variable are both undefined or empty |
| Cli.OptionOverridesEnv | src/index.ts:105-119 | a non-empty option wins over its environment variable, otherwise the variable is used |
| Cli.Defaults | src/index.ts:126-127 | without transport option or TRANSPORT the transport is "stdio"; without non-zero port option or PORT the port is 3000 |
| Cli.TransportAndPortFallback | src/index.ts:126-127 | an accepted transport option is the transport; without one a non-empty TRANSPORT is taken as given; without a non-zero port option a non-empty PORT is parsed, and one that does not parse gives NaN |
| Cli.UnparsablePortPassedThrough | src/index.ts:127 | with PORT=abc and no options the configuration carries a NaN port and no error |
| Cli.PortOptionUsed | src/index.ts:127 | a non-zero port option is used as parsed |
| Cli.ScanTransportValid | src/index.ts:88-92 | the scan only ever stores the transport "stdio" or "sse" |
| Cli.FlagTransportValidated | src/index.ts:89-91 | any `--transport` value other than stdio/sse is rejected, whatever the environment |
| Cli.EnvTransportNotValidated | src/index.ts:126 | as written, TRANSPORT=http from the environment is accepted and returned as the transport |
| Cli.ParsedChecked | src/index.ts:126 | corrected parse: a successful result always names "stdio" or "sse" |
| Cli.ParsedCheckedSound | src/index.ts:126 | the corrected parse differs from the original exactly when the original returns an invalid transport, which then came from TRANSPORT |
| Server.SelectBinding | src/index.ts:204-233 | stdio iff the transport is "stdio", SSE on the configured port iff "sse", otherwise nothing is started |
| Server.StartOutcome | src/index.ts:143-156 | startup fails exactly when `parseArgs` throws; otherwise the tool is registered as "lookup_context_for_" + lune name |
| Server.NoBindingOnlyFromEnv | src/index.ts:204-209 | startup with no transport happens only when no `--transport` flag was accepted and TRANSPORT is neither "stdio" nor "sse" |
| Server.CheckedStartAlwaysBinds | src/index.ts:204-209 | with the corrected parse every successful startup starts a transport |
| Sse.InboxOfUnopened | src/index.ts:215 | a transport not yet created has received nothing |
| Sse.SessionsGrow | src/index.ts:212-226 | requests only ever add transports; the slot is never emptied |
| Sse.NeverCleared | src/index.ts:220-223 | once a `GET /sse` has arrived every later POST is forwarded |
| Sse.RejectedUntilSubscribe | src/index.ts:223-225 | before any `GET /sse` every POST is answered 400 "SSE connection not established" and nothing is forwarded |
| Sse.ReplacedTransportStarves | src/index.ts:214-216 | a transport replaced by a newer one receives nothing more |
| Sse.NewestReceives | src/index.ts:214-222 | after a `GET /sse` the following POSTs all go, in order, to its transport and to no other |
| Sse.DeliveredExactlyOnce | src/index.ts:220-226 | the messages received by all transports together are exactly as many as the POSTs forwarded |
| Sse.SseTransport.constructor | src/index.ts:215 | a new transport advertises its endpoint, writes to its stream and has received nothing |
| Sse.SseTransport.HandlePostMessage | src/index.ts:222 | the transport receives the message after those it already had |
| Sse.SseServer.constructor | src/index.ts:212 | the slot starts empty, with no history and no transport |
| Sse.SseServer.GetSse | src/index.ts:214-218 | a new transport on "/messages" replaces whatever the slot held; the slot invariant holds |
| Sse.SseServer.PostMessages | src/index.ts:220-226 | 400 exactly when the slot is empty; otherwise only the transport in the slot receives the message; the slot invariant holds |

## Findings

| source | as written | input that shows it | evidently intended | confidence | as-written member | corrected member |
|---|---|---|---|---|---|---|
| src/index.ts:126 | the `TRANSPORT` environment value is cast to the transport type without the check the `--transport` flag gets (lines 89-91) | LUNE_API_KEY, LUNE_NAME, LUNE_ID set, TRANSPORT=http, no arguments: `parseArgs` returns transport "http", and `main` (lines 204-233) starts neither stdio nor SSE and reports no error | reject the value as "Invalid transport", as for the flag, so that the declared return type "stdio" or "sse" holds | medium, not executed | Cli.EnvTransportNotValidated | Cli.ParsedChecked |

`Cli.ParsedCheckedSound` proves that the corrected parse agrees with the
original on every other input. `Server.CheckedStartAlwaysBinds` proves that
with the corrected parse every successful startup serves a transport.
`Cli.ParseArgs` and `Server.Start` still model the code as written.

## Left out

- The outbound request (lines 25-37): URL, headers and JSON body. They are network I/O. The model takes the outcome of `fetch` and of `response.json()` as an input value.
- JSON shapes beyond the three modelled (`Unparsable`, `ChunksMissing`, `Chunks`). A chunk that is `null`, or whose `content` is not a string, is not modelled. Chunk content is a string.
- `console.error`, `colors` and `handleError`. They only write diagnostics. The text of the thrown `parseArgs` errors is not modelled. Only which error is raised, and with what key or value, is modelled.
- `process.argv`, `process.env` and `process.exit`. Arguments and environment are parameters. A failed startup is `Server.Failed` and carries the error; process termination is not modelled.
- The MCP SDK. This covers `McpServer`, `server.tool` registration, the zod schema, `StdioServerTransport`, `server.connect` and the internals of `SSEServerTransport`. `handlePostMessage` is reduced to recording the message the transport is handed. Its HTTP answer is not modelled.
- Express routing and `app.listen`, including a failure to bind the port. These are server plumbing.
- Asynchrony and interleaving of tool calls. The handler is stateless per call.
- Text.ParseInt: does not skip leading white space and does not lose precision on long numerals as JavaScript numbers do, because the server's inputs are flag and environment strings and those corner cases are outside the model.
- Tool.HttpErrorReply: covers only non-zero statuses. A non-ok status 0, which `fetch` does not produce, would be falsy at line 182 and fall through to the context reply with empty content. `Tool.ReplyText` models that fall-through.
- Sse: connection close is not modelled, because the code never clears the slot. The MCP session identifier on posts is not modelled, because the route ignores it.
