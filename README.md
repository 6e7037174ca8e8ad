# Startup and SSE session routing of the Notion MCP server

This project models the core of `scripts/start-server.ts`, the entry point of
the Notion MCP server. That script starts one MCP proxy. It serves the proxy
over stdio, or over Server-Sent Events (SSE) with one proxy per client. The
model covers four pieces:

- **Mode and port resolution** (`ModeResolver`, lines 16-23). SSE mode is on
  when the argument `--sse` or `ENABLE_SSE=true` is present. The port starts
  at 3000. A non-empty `PORT` replaces it. The token after the first `--port`
  replaces it again when that token is non-empty and parses. `ResolveConfig`
  reassigns `port` step by step, as the script does. It is proved equal to a
  precedence definition, `SelectedPort`.
- **`parseInt(s, 10)`** (`JsNumber`), as section 19.2.5 of ECMA-262 (the
  ECMAScript Language Specification) defines it for radix 10. It skips
  leading white space and line terminators, takes an optional sign and then
  the longest run of decimal digits. With no digits the result is NaN.
  The model proves a round trip against a decimal renderer (`Show`) and
  characterises exactly when the result is NaN.
- **The SSE session map** (`Sessions`, lines 36-71). It is a class holding a
  `map<string, Transport>`. `Open` is the `GET /events` handler. It inserts
  the new transport under its session id before the proxy is built. `Close`
  is the transport's close callback and deletes the id. `Post` is the
  `POST /events` handler: 404 for an unknown id, otherwise delegation. A
  ghost history of registrations and deletions is kept, and `Valid()` ties
  the map to its replay. Routing is proved to follow the last change for
  that id.
- **Startup and the top-level handler** (`Startup`, lines 25-37, 73-87).
  Stdio mode builds exactly one proxy and creates no session map. SSE mode
  creates the map, builds no proxy at startup and listens on the resolved
  port. A rejected startup prints its messages and exits with status 1.

External calls are inputs to the model. These are `initProxy`,
`proxy.connect`, `app.listen`, the transport's id generation and
`res.headersSent`. Each outcome is a parameter: `Outcome`, `ProxyOutcome`, the
`Transport` value itself, and a boolean.

One might expect an unparseable port value to be ignored, keeping the prior
value. The code does this only for `--port` (line 22). A non-empty `PORT`
goes through `parseInt` unconditionally (line 18). `PORT=abc` therefore gives
NaN, not 3000. The model follows the code
(`ModeResolver.DigitlessEnvPortIsNaN`). The code also reads a leading number
out of a longer token: `--port 4100abc` gives 4100
(`ModeResolver.TrailingTextAfterPortDigits`).

## Model

| member | source | states |
|---|---|---|
| `JsNumber.TrimStart` | scripts/start-server.ts:18 | the result is the longest suffix of the input that does not start with white space; everything dropped is white space |
| `JsNumber.LeadingDigits` | scripts/start-server.ts:21 | the result is the longest prefix of decimal digits: all digits, and followed by the end of the input or by a non-digit |
| `JsNumber.ParseIntOfParts` | scripts/start-server.ts:21 | for white space, an optional sign, a non-empty digit run and text not starting with a digit, `parseInt` gives the signed value of the digits and ignores what follows |
| `JsNumber.ParseIntNaN` | scripts/start-server.ts:21-22 | `parseInt` gives NaN exactly when no digit follows the leading white space and at most one sign |
| `JsNumber.ParseIntShow` | scripts/start-server.ts:21 | round trip: `parseInt` reads back the decimal rendering of every integer, whatever non-digit text follows it |
| `ModeResolver.FindIndex` | scripts/start-server.ts:19 | `findIndex` returns -1 exactly when the token is absent; otherwise it returns a position holding the token with no earlier occurrence |
| `ModeResolver.ResolveConfig` | scripts/start-server.ts:16-23 | SSE mode is on iff `--sse` is an argument or `ENABLE_SSE` is exactly "true"; the port is the first usable `--port` value, otherwise `PORT` through `parseInt` when set and non-empty, otherwise 3000 |
| `ModeResolver.FirstPortFlagIsFound` | scripts/start-server.ts:19 | the position `findIndex` reports is the first `--port` |
| `ModeResolver.SseOnlyOnExactValues` | scripts/start-server.ts:17 | without `--sse`, `ENABLE_SSE` set to "1", "TRUE" or "True" leaves stdio mode |
| `ModeResolver.DefaultPortWhenUnset` | scripts/start-server.ts:18 | with `PORT` unset or empty and no usable `--port`, the port is 3000 |
| `ModeResolver.PortArgumentOverrides` | scripts/start-server.ts:19-23 | a first `--port` followed by a token that parses to n sets the port to n, whatever `PORT` says |
| `ModeResolver.UnusablePortArgumentKeepsPrior` | scripts/start-server.ts:20-22 | a first `--port` that is last, or followed by an empty or digit-less token, leaves the port `PORT` gave |
| `ModeResolver.LaterPortFlagsIgnored` | scripts/start-server.ts:19 | once the first `--port` has a following token, any arguments appended after it, more `--port` pairs included, do not change the port |
| `ModeResolver.DigitlessEnvPortIsNaN` | scripts/start-server.ts:18 | a non-empty `PORT` with no leading number gives NaN rather than 3000 when no usable `--port` is given |
| `ModeResolver.TrailingTextAfterPortDigits` | scripts/start-server.ts:19-22 | `--sse --port 4100abc` gives port 4100 |
| `Sessions.Replay` | scripts/start-server.ts:43-44 | every entry of the session map is keyed by its own transport's session id |
| `Sessions.ReplayFollowsLatest` | scripts/start-server.ts:43-44 | an id is in the map exactly when its last change was a registration, and then it maps to that registration's transport |
| `Sessions.EstablishResult` | scripts/start-server.ts:47-54 | the stream is live iff the proxy was built and connected; a 500 is sent iff the build failed and headers were not yet sent |
| `Sessions.CloseIdempotent` | scripts/start-server.ts:44 | closing an id a second time changes nothing |
| `Sessions.CloseKeepsOthers` | scripts/start-server.ts:44 | closing one id leaves every other entry unchanged |
| `Sessions.SessionRegistry.constructor` | scripts/start-server.ts:37 | the session map starts empty |
| `Sessions.SessionRegistry.Open` | scripts/start-server.ts:40-55 | the transport is inserted under its session id whatever the proxy build's outcome; the response follows `EstablishResult` |
| `Sessions.SessionRegistry.Close` | scripts/start-server.ts:44 | removes exactly the given id, present or not |
| `Sessions.SessionRegistry.Post` | scripts/start-server.ts:58-71 | delegates iff the id, a missing one read as "", is in the map, and then to the transport registered under exactly that id, the one its last registration installed; otherwise 404 |
| `Sessions.FailedBuildStaysRegistered` | scripts/start-server.ts:42-54 | after a failed proxy build the session is still registered and a POST reaches its transport; the 500 appears only when headers were not yet sent |
| `Sessions.CloseDuringBuild` | scripts/start-server.ts:42-49 | a close arriving before the build ends removes the session even though the stream reports success; a second close is harmless |
| `Sessions.SessionsAreIsolated` | scripts/start-server.ts:43-67 | with distinct ids, each session's messages go only to its own transport, also after the other session closes |
| `Sessions.MissingIdIsNotFound` | scripts/start-server.ts:59-63 | a POST without a session id is answered 404 unless a transport holds the empty id |
| `Startup.StartServer` | scripts/start-server.ts:16-76 | takes the stdio branch exactly when SSE mode is not requested, and otherwise listens on the resolved port; it rejects exactly with the failure `StartupFailure` names |
| `Startup.StartStdio` | scripts/start-server.ts:25-30 | stdio mode builds exactly one proxy, with `BASE_URL` passed as given, and creates no session map; it connects only after a successful build, and rejects with the first failure |
| `Startup.StartSse` | scripts/start-server.ts:37-76 | SSE mode builds no proxy at startup, creates the session map and last listens on the given port; it rejects only when listening throws |
| `Startup.ReportFailure` | scripts/start-server.ts:79-87 | the exit status is 1; a validation error prints the header and then each of its messages, in order; any other error prints one line |
| `Startup.Launch` | scripts/start-server.ts:79-87 | the process exits, with status 1, exactly when startup rejects; otherwise nothing is printed to stderr and it keeps running |

## Left out

- Spec path computation (lines 10-13, `fileURLToPath`, `path.resolve`): a thin wrapper over Node's path library. `InitProxy` records only the base URL it receives.
- Express setup, `express.json()` and route registration (lines 33-34, 40, 58): HTTP framework plumbing.
- `SSEServerTransport`, `StdioServerTransport` and `initProxy` internals, including session-id generation: foreign code. A transport is a value carrying its session id. `SessionsAreIsolated` takes distinct ids as a precondition, since uniqueness comes from the transport library.
- A throw from `new SSEServerTransport` (line 42): not modelled. It would register nothing and answer 500.
- `handlePostMessage` (line 67) and the errors it raises: foreign code. `Post` returns the transport the message is handed to. The caught error (lines 68-70) changes no state.
- Console output inside the handlers and on listen (lines 50, 52, 69, 75): I/O. The top-level stderr lines are modelled; `OtherError.description` stands for Node's rendering of the error object.
- `app.listen` errors reported asynchronously: not modelled. The `listen` outcome stands only for a synchronous throw.
- Concurrency: the model is sequential. A close arriving while a proxy is being built appears as `Open` followed by `Close`. The build's completion does not touch the map, so the final state is the same.
- JsNumber.ParseInt: JavaScript numbers are doubles. The model uses exact integers, so rounding of digit strings beyond 2^53 and the sign of zero (`-0`) are not modelled.
- Sessions.QueryKey: a query parameter given as an array or object (repeated `sessionId`) is not modelled. The parameter is an optional string.
- `process.exit` (line 86): only the exit status is modelled.
