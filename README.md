# MCP client transports

A model of the two client transports of msgflux's Model Context Protocol layer,
`HTTPTransport` and `StdioTransport` in `src/msgflux/protocols/mcp/transports.py`. Both send
JSON-RPC 2.0 requests and notifications to an MCP server. The model covers their bookkeeping:

- the request-id counter and its decimal ids;
- the request and notification envelopes;
- the "not connected" guards;
- idempotent connect and disconnect;
- the HTTP header merge and the mapping of an HTTP outcome to a result or an error;
- the stdio pending-request table: insertion on send, removal by the reader loop, by a
  timeout and by disconnect, and the futures it holds.

Files:

- `wrappers.dfy`: `Option` and `Result`.
- `request_ids.dfy`: `str(counter)` as `Render` and its inverse `Parse`. Both round trips are
  proved, so ids from one counter never repeat.
- `json_rpc.dfy`: JSON values, the two envelopes and an independent reader `ParseCall` they
  round-trip through, inbound lines and their id (`ResponseId`), and the transports' errors.
- `http_transport.dfy`: `HttpTransport` as a class with a client handle and a counter.
- `stdio_transport.dfy`: `StdioTransport` as a class with the process handle, the reader flag,
  the counter and the pending table, plus `Future` and `Process`. Concurrency becomes events
  the caller of the model chooses: a request is sent (`SendRequest`); a caller's wait ends
  (`AwaitResponse`); one line arrives (`DeliverLine`) or the reader consumes a whole stream
  (`ReadResponses`); the transport disconnects. A ghost map `issued` records every future a
  request created, by id. `Valid()` states that each issued id is one of "1" .. str(counter),
  that the pending table only maps an id to that id's own future, and that no future
  is shared by two ids.
- `scenarios.dfy`: callers that use only the contracts. Each shows one promised behaviour on
  concrete calls: out-of-order responses, a late response after a timeout, disconnect with
  requests pending, reconnect, a failed write, HTTP status handling.

The model follows the code in these places:

- HTTP `send_request` wraps only timeouts and non-2xx statuses. A body that is not JSON, and
  any other failure of the HTTP library, reach the caller as the library raised them
  (`McpError.Unwrapped`), not as a protocol error.
- A failed process spawn is a connection error (`StartFailed`), not a protocol error.
- The stdio guard tests only that a process handle exists. A child that has exited but is
  still held passes it.
- `disconnect` does not go on when the child has already exited (see Findings).

## Model

| member | source | states |
|---|---|---|
| RequestIds.Render | src/msgflux/protocols/mcp/transports.py:90 | `str(n)`: a non-empty string of decimal digits, with a leading zero only for 0, one digit exactly below 10 |
| RequestIds.ParseRender | src/msgflux/protocols/mcp/transports.py:87-90 | reading back an id gives the counter value it was made from |
| RequestIds.RenderParse | src/msgflux/protocols/mcp/transports.py:87-90 | every string that reads as a number is the id of that number, so ids have one spelling |
| RequestIds.ParseIsInverse | src/msgflux/protocols/mcp/transports.py:217-220 | `Parse(s) == Some(n)` exactly when `s` is the id of `n` |
| RequestIds.RenderInjective | src/msgflux/protocols/mcp/transports.py:217-220 | different counter values give different ids |
| RequestIds.NextIdIsFresh | src/msgflux/protocols/mcp/transports.py:87-90 | the id made after incrementing was not issued before, is issued after, and differs from every earlier id |
| JsonRpc.RequestEnvelope | src/msgflux/protocols/mcp/transports.py:141-148 | the request has "jsonrpc", "id", "method", has "params" exactly when params were given, and reads back as that request |
| JsonRpc.NotificationEnvelope | src/msgflux/protocols/mcp/transports.py:172-178 | the notification has no "id", has "params" exactly when given, and reads back as that notification |
| JsonRpc.ParsedCallIsEnvelope | src/msgflux/protocols/mcp/transports.py:312-319 | every object the JSON-RPC reader accepts is exactly the envelope built for the call it reads |
| JsonRpc.ResponseId | src/msgflux/protocols/mcp/transports.py:286 | a line has a lookup id exactly when it decodes to an object with a string "id", and that id is the member's value |
| JsonRpc.ResponseIdOfMessages | src/msgflux/protocols/mcp/transports.py:286-291 | a response is looked up under its request's id; a server notification under no id |
| Http.MergeHeaders | src/msgflux/protocols/mcp/transports.py:121-122 | the keys are the extra headers plus Content-Type; every extra header wins; Content-Type is application/json unless overridden |
| Http.GetHeaders | src/msgflux/protocols/mcp/transports.py:115-131 | without auth, the merged headers; with auth, `apply_auth` applied to exactly those merged headers |
| Http.AuthAppliedLast | src/msgflux/protocols/mcp/transports.py:115-131 | with auth, the headers are the auth transform of exactly the headers sent without auth |
| Http.StripTrailingSlashes | src/msgflux/protocols/mcp/transports.py:76 | the result is a prefix of the URL that does not end in '/', and only '/' characters were removed |
| Http.RequestResult | src/msgflux/protocols/mcp/transports.py:150-162 | success exactly for a 2xx status with a JSON body, returned as it is; a timeout becomes a timeout error naming the method; a non-2xx status becomes an error with that status and text; a transport failure or a 2xx body that is not JSON propagates unwrapped |
| Http.HttpTransport.constructor | src/msgflux/protocols/mcp/transports.py:53-85 | trailing slashes stripped from the base URL, no headers when none are given, no client, counter 0 |
| Http.HttpTransport.NextRequestId | src/msgflux/protocols/mcp/transports.py:87-90 | the counter goes up by one and the id reads back as the new counter |
| Http.HttpTransport.Connect | src/msgflux/protocols/mcp/transports.py:92-107 | keeps an existing client; otherwise creates a fresh open one |
| Http.HttpTransport.Disconnect | src/msgflux/protocols/mcp/transports.py:109-113 | afterwards there is no client and the old one, if any, is closed; with no client it does nothing |
| Http.HttpTransport.SendRequest | src/msgflux/protocols/mcp/transports.py:133-162 | not connected: connection error, no id used, nothing sent; connected: one new id, one POST to `<base>/` with the merged headers and the request envelope, and the result `RequestResult` gives for its outcome |
| Http.HttpTransport.SendNotification | src/msgflux/protocols/mcp/transports.py:164-189 | not connected: connection error; connected: one POST of the notification envelope, no id used, and success whatever the POST did |
| Stdio.Future.Cancel | src/msgflux/protocols/mcp/transports.py:266-268 | cancels a future that is not done and reports so; leaves a done future as it is |
| Stdio.Process.Stop | src/msgflux/protocols/mcp/transports.py:256-261 | the child ends up stopped, and it was killed exactly when it did not exit within the grace period |
| Stdio.FirstResponseIsEarliest | src/msgflux/protocols/mcp/transports.py:277-289 | the response the reader delivers for an id is the earliest line carrying it, and there is none exactly when no line carries it |
| Stdio.InsertKeepsInvariant | src/msgflux/protocols/mcp/transports.py:311-323 | allocating the next id for a new future keeps the table invariant, and the id was not issued before |
| Stdio.RemoveKeepsInvariant | src/msgflux/protocols/mcp/transports.py:336-339 | removing entries from the pending table keeps the table invariant |
| Stdio.StdioTransport.constructor | src/msgflux/protocols/mcp/transports.py:199-215 | no arguments when none are given; no process, no reader, counter 0, empty table |
| Stdio.StdioTransport.NextRequestId | src/msgflux/protocols/mcp/transports.py:217-220 | the counter goes up by one and the id reads back as the new counter |
| Stdio.StdioTransport.Connect | src/msgflux/protocols/mcp/transports.py:222-243 | a no-op while a process exists; else a fresh live process and a reader, or a connection error with nothing started when the spawn fails |
| Stdio.StdioTransport.SendRequest | src/msgflux/protocols/mcp/transports.py:306-340 | not connected: connection error and nothing changes; else a new id never issued before, a fresh pending future under it, the request line; a failed write leaves the table as it was and raises a protocol error |
| Stdio.StdioTransport.AwaitResponse | src/msgflux/protocols/mcp/transports.py:331-340 | a resolved future gives its response; a timeout cancels the future, removes only its entry and raises a timeout error naming the method; a cancelled caller cancels the future but leaves the entry |
| Stdio.StdioTransport.DeliverLine | src/msgflux/protocols/mcp/transports.py:282-299 | only while the reader task runs: a line whose id is pending removes that entry and resolves its future unless already done; any other line changes nothing; no other future changes |
| Stdio.StdioTransport.ReadResponses | src/msgflux/protocols/mcp/transports.py:271-304 | the table keeps exactly the entries no line answers; each answered future holds its earliest response unless it was already done; nothing else changes |
| Stdio.StdioTransport.CancelPending | src/msgflux/protocols/mcp/transports.py:265-269 | every future in the table that is not done is cancelled, and the table is empty |
| Stdio.StdioTransport.Disconnect | src/msgflux/protocols/mcp/transports.py:245-269 | corrected: no process, no reader, the child stopped, the table empty, every future it held done (cancelled unless already done), other futures untouched |
| Stdio.StdioTransport.DisconnectAsWritten | src/msgflux/protocols/mcp/transports.py:255-269 | as written: with a child that already exited, the handle is dropped but the call raises and the pending table and its futures are left as they were |
| Stdio.StdioTransport.SendNotification | src/msgflux/protocols/mcp/transports.py:342-361 | not connected: connection error; else the notification line is written and success is returned whatever the write did |
| Scenarios.ResponsesOutOfOrder | src/msgflux/protocols/mcp/transports.py:286-289 | two requests answered in reverse order are each resolved with their own response |
| Scenarios.LateResponseAfterTimeout | src/msgflux/protocols/mcp/transports.py:335-337 | after a timeout, a late response resolves nothing and the table is empty |
| Scenarios.DisconnectWhilePending | src/msgflux/protocols/mcp/transports.py:265-269 | disconnect with two requests pending cancels both and empties the table |
| Scenarios.IdsSurviveReconnect | src/msgflux/protocols/mcp/transports.py:213-220 | disconnecting twice is harmless, and after reconnecting ids continue from the old counter |
| Scenarios.IdsAcrossFailuresAndNotifications | src/msgflux/protocols/mcp/transports.py:311-340 | a failed write uses an id but leaves no entry; a notification uses no id |
| Scenarios.DisconnectAfterServerExitAsWritten | src/msgflux/protocols/mcp/transports.py:255-263 | as written: a child that exited before disconnect leaves its pending request in the table, not cancelled |
| Scenarios.DisconnectAfterServerExit | src/msgflux/protocols/mcp/transports.py:245-269 | corrected: the same request is cancelled and the table is empty |
| Scenarios.HttpStatusHandling | src/msgflux/protocols/mcp/transports.py:138-162 | status 503 gives an error carrying 503 and the text; a 2xx JSON body comes back unchanged; a call before connect uses no id |

## Left out

- I/O, encoding and the event loop are not modelled. JSON text, UTF-8 and the newline
  framing are below the `Json`/`Line` level. A line is either undecodable or a decoded value.
- A write's success is a parameter of `SendRequest` (`written`). An HTTP exchange's outcome is
  a parameter (`HttpOutcome`). A caller's wait ends with an explicit `Wakeup`. The spawn's
  success is a parameter of `Connect`. Timeouts and the 5-second grace period are these
  choices, not clocks.
- `Stdio.StdioTransport.SendRequest`: the write can fail only right after the entry is
  inserted. The model does not interleave other events between the insert and a failed write's
  removal, because in the source both run in one coroutine with only `drain()` in between.
- `Stdio.StdioTransport.AwaitResponse`: `asyncio.wait_for`'s internal races, such as a response
  arriving at the same moment the timer expires, are not modelled.
- The reader task is a flag. `Disconnect` cancelling it and awaiting its end becomes clearing
  the flag. `ReadResponses` is the task's whole run over the lines it reads.
- The auth provider is a header transform. `refresh_if_needed` is not modelled, because it
  only changes the provider's own state. Its failures would propagate unwrapped from
  `send_request` and be swallowed by `send_notification`.
- Pool limits, the timeout value, `cwd`, `env`, stderr capture and httpx's client-level
  default headers are configuration passed to libraries; they are not modelled.
- Header names are compared exactly, as Python dict keys are. httpx's case-insensitive header
  handling is not modelled.
- The `ImportError` raised when httpx is missing is not modelled.
- `BaseTransport`, the abstract interface, has no behaviour of its own.
- `exceptions.py` is not part of this model. The error kinds are the constructors of
  `JsonRpc.McpError`.
- Caller-task cancellation (`TaskCancelled`) leaves a cancelled entry in the table until a
  response or disconnect removes it. This is what the code does, and it is harmless because
  of the `done()` checks. It is modelled, not reported as a bug.

## Findings

| source | as written | input that shows it | evidently intended | confidence | as-written member | corrected member |
|---|---|---|---|---|---|---|
| src/msgflux/protocols/mcp/transports.py:255-269 | `terminate()` on a child that has already exited raises `ProcessLookupError`; the `finally` drops the handle and lets it escape, so the pending futures are never cancelled and the table is not cleared | one request pending, the server process exits, then `disconnect()` | every disconnect step runs whatever state the process is in, and every pending request ends up cancelled | medium (depends on asyncio raising for an exited child), not executed | Stdio.StdioTransport.DisconnectAsWritten | Stdio.StdioTransport.Disconnect |
