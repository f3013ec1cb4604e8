/**
 * JSON-RPC 2.0 messages as the MCP transports build and read them: request and notification
 * envelopes (sections 4 and 4.1 of the JSON-RPC 2.0 specification), inbound lines, and the
 * errors the transports raise.
 */
module JsonRpc {
  import opened Wrappers

  /** A decoded JSON value (numbers are kept as integers; nothing here inspects them). */
  datatype Json =
    | JNull
    | JBool(b: bool)
    | JNumber(n: int)
    | JString(s: string)
    | JArray(items: seq<Json>)
    | JObject(fields: map<string, Json>)

  /** A JSON object, i.e. a Python `Dict[str, Any]`. */
  type Object = map<string, Json>

  const Version: string := "2.0"

  /** What an envelope asks for, independently of its encoding as an object. */
  datatype Call =
    | RequestCall(id: string, name: string, params: Option<Object>)
    | NotificationCall(name: string, params: Option<Object>)

  /**
   * The reading of an object as a call that section 4 of JSON-RPC 2.0 prescribes, restricted to
   * what these transports send: exactly the members "jsonrpc" (equal to "2.0"), "method" (a
   * string), optionally "params" (an object) and optionally "id" (a string); an object with an
   * "id" is a request, one without is a notification (section 4.1).
   */
  function ParseCall(env: Object): Option<Call> {
    if !(env.Keys <= {"jsonrpc", "id", "method", "params"}) then None
    else if "jsonrpc" !in env || env["jsonrpc"] != JString(Version) then None
    else if "method" !in env || !env["method"].JString? then None
    else if "params" in env && !env["params"].JObject? then None
    else
      var name := env["method"].s;
      var params := if "params" in env then Some(env["params"].fields) else None;
      if "id" !in env then Some(NotificationCall(name, params))
      else if env["id"].JString? then Some(RequestCall(env["id"].s, name, params))
      else None
  }

  /** The request dict built by `send_request` of either transport. */
  function RequestEnvelope(id: string, name: string, params: Option<Object>): (env: Object)
    ensures "jsonrpc" in env && "id" in env && "method" in env
    ensures "params" in env <==> params.Some?
    ensures ParseCall(env) == Some(RequestCall(id, name, params))
  {
    var env := map["jsonrpc" := JString(Version), "id" := JString(id), "method" := JString(name)];
    if params.Some? then env["params" := JObject(params.value)] else env
  }

  /** The notification dict built by `send_notification` of either transport. */
  function NotificationEnvelope(name: string, params: Option<Object>): (env: Object)
    ensures "jsonrpc" in env && "method" in env && "id" !in env
    ensures "params" in env <==> params.Some?
    ensures ParseCall(env) == Some(NotificationCall(name, params))
  {
    var env := map["jsonrpc" := JString(Version), "method" := JString(name)];
    if params.Some? then env["params" := JObject(params.value)] else env
  }

  /** The envelope a call is sent as. */
  function Envelope(c: Call): Object {
    match c
    case RequestCall(id, name, params) => RequestEnvelope(id, name, params)
    case NotificationCall(name, params) => NotificationEnvelope(name, params)
  }

  /** Every object `ParseCall` accepts is exactly the envelope of the call it reads. */
  lemma ParsedCallIsEnvelope(env: Object)
    ensures ParseCall(env).Some? ==> Envelope(ParseCall(env).value) == env
  {
    if ParseCall(env).Some? {
      var e := Envelope(ParseCall(env).value);
      assert e.Keys == env.Keys;
      forall k | k in env ensures e[k] == env[k] {
      }
    }
  }

  /** A line read from the server's standard output: undecodable, or a decoded JSON value. */
  datatype Line = Undecodable | Decoded(value: Json)

  /**
   * The key under which the reader loop looks a line up in the pending table, if any: the
   * string "id" member of a decoded object. Anything else (garbage, a non-object, a missing or
   * non-string id) never equals a pending key.
   */
  function ResponseId(line: Line): (r: Option<string>)
    ensures r.Some? <==> line.Decoded? && line.value.JObject? && "id" in line.value.fields
                         && line.value.fields["id"].JString?
    ensures r.Some? ==> line.value.fields["id"] == JString(r.value)
  {
    if line.Decoded? && line.value.JObject? && "id" in line.value.fields
       && line.value.fields["id"].JString?
    then Some(line.value.fields["id"].s)
    else None
  }

  /** A successful JSON-RPC response carrying `result` for request `id` (section 5). */
  function ResultResponse(id: string, result: Json): Json {
    JObject(map["jsonrpc" := JString(Version), "id" := JString(id), "result" := result])
  }

  /** A response to request `id` is looked up under `id`; a notification from the server under nothing. */
  lemma ResponseIdOfMessages(id: string, result: Json, name: string, params: Option<Object>)
    ensures ResponseId(Decoded(ResultResponse(id, result))) == Some(id)
    ensures ResponseId(Decoded(JObject(NotificationEnvelope(name, params)))) == None
  {
  }

  /**
   * What a transport call raises. `NotConnected` and `StartFailed` are MCPConnectionError,
   * `RequestTimedOut` is MCPTimeoutError, `HttpStatus` and `SendFailed` are MCPError;
   * `CancelledError` is asyncio's CancelledError and `Unwrapped` any other exception that the
   * transport lets through as it is.
   */
  datatype McpError =
    | NotConnected
    | StartFailed
    | RequestTimedOut(name: string)
    | HttpStatus(status: int, text: string)
    | SendFailed
    | CancelledError
    | Unwrapped
}
