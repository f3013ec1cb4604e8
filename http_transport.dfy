/**
 * HTTPTransport: one POST per JSON-RPC message over a pooled client. The model keeps the
 * client handle, the request-id counter, the header merge and the mapping of the POST's
 * outcome to what `send_request` returns or raises.
 */
module Http {
  import opened Wrappers
  import opened JsonRpc
  import RequestIds

  type Headers = map<string, string>

  const ContentType: string := "Content-Type"
  const ApplicationJson: string := "application/json"

  /** The auth provider, seen only through its `apply_auth` transform of a header dict. */
  datatype Auth = Auth(apply: Headers -> Headers)

  /** `{"Content-Type": "application/json"}` updated with the configured extra headers. */
  function MergeHeaders(extra: Headers): (h: Headers)
    ensures h.Keys == extra.Keys + {ContentType}
    ensures forall k :: k in extra ==> h[k] == extra[k]
    ensures ContentType !in extra ==> h[ContentType] == ApplicationJson
  {
    map[ContentType := ApplicationJson] + extra
  }

  /** `_get_headers`: the merged headers, handed to `apply_auth` when an auth provider is set. */
  function GetHeaders(extra: Headers, auth: Option<Auth>): (h: Headers)
    ensures auth.None? ==> h == MergeHeaders(extra)
    ensures auth.Some? ==> h == auth.value.apply(MergeHeaders(extra))
  {
    var merged := MergeHeaders(extra);
    if auth.Some? then auth.value.apply(merged) else merged
  }

  /** The auth transform runs last, on exactly the headers that are sent without auth. */
  lemma AuthAppliedLast(extra: Headers, a: Auth)
    ensures GetHeaders(extra, Some(a)) == a.apply(GetHeaders(extra, None))
    ensures GetHeaders(extra, None).Keys == extra.Keys + {ContentType}
  {
  }

  /** `base_url.rstrip("/")`. */
  function StripTrailingSlashes(s: string): (r: string)
    ensures |r| <= |s| && r == s[..|r|]
    ensures r == [] || r[|r| - 1] != '/'
    ensures forall i :: |r| <= i < |s| ==> s[i] == '/'
    decreases |s|
  {
    if s != [] && s[|s| - 1] == '/' then StripTrailingSlashes(s[..|s| - 1]) else s
  }

  /** A POST the transport issued: URL, headers and the JSON body. */
  datatype Post = Post(url: string, headers: Headers, body: Object)

  /**
   * How a POST ended, as the HTTP library reports it: a response with its status, its text
   * and its body decoded as JSON (or not), a client-side timeout, or another transport failure.
   */
  datatype HttpOutcome =
    | Responded(status: int, text: string, body: Line)
    | ClientTimeout
    | TransportFailure

  /**
   * What `send_request` returns or raises once its POST has ended: `raise_for_status` rejects
   * every status outside 200..299, a timeout becomes MCPTimeoutError, and a body that is not
   * JSON or any other failure of the library propagates unwrapped.
   */
  function RequestResult(name: string, outcome: HttpOutcome): (r: Result<Json, McpError>)
    ensures r.Ok? <==> outcome.Responded? && 200 <= outcome.status < 300 && outcome.body.Decoded?
    ensures r.Ok? ==> r.value == outcome.body.value
    ensures outcome.ClientTimeout? ==> r == Err(RequestTimedOut(name))
    ensures outcome.Responded? && !(200 <= outcome.status < 300)
            ==> r == Err(HttpStatus(outcome.status, outcome.text))
    ensures outcome.TransportFailure? || (outcome.Responded? && 200 <= outcome.status < 300 && outcome.body.Undecodable?)
            ==> r == Err(Unwrapped)
  {
    match outcome
    case ClientTimeout => Err(RequestTimedOut(name))
    case TransportFailure => Err(Unwrapped)
    case Responded(status, text, body) =>
      if !(200 <= status < 300) then Err(HttpStatus(status, text))
      else if body.Undecodable? then Err(Unwrapped)
      else Ok(body.value)
  }

  /** The pooled `httpx.AsyncClient`; `aclose` closes it. */
  class HttpClient {
    var open: bool

    constructor ()
      ensures open
    {
      open := true;
    }

    method Close()
      modifies this
      ensures !open
    {
      open := false;
    }
  }

  class HttpTransport {
    const baseUrl: string
    const extraHeaders: Headers
    const auth: Option<Auth>
    var client: HttpClient?
    var counter: nat

    constructor (baseUrl: string, headers: Option<Headers>, auth: Option<Auth>)
      ensures this.baseUrl == StripTrailingSlashes(baseUrl)
      ensures extraHeaders == (if headers.Some? then headers.value else map[])
      ensures this.auth == auth
      ensures client == null && counter == 0
    {
      this.baseUrl := StripTrailingSlashes(baseUrl);
      extraHeaders := if headers.Some? then headers.value else map[];
      this.auth := auth;
      client := null;
      counter := 0;
    }

    /** `_get_next_request_id`. */
    method NextRequestId() returns (id: string)
      modifies this`counter
      ensures counter == old(counter) + 1
      ensures id == RequestIds.Render(counter)
      ensures RequestIds.Parse(id) == Some(counter)
    {
      counter := counter + 1;
      id := RequestIds.Render(counter);
      RequestIds.ParseRender(counter);
    }

    /** Creates the pooled client, unless one exists already. */
    method Connect()
      modifies this`client
      ensures client != null
      ensures old(client) != null ==> client == old(client)
      ensures old(client) == null ==> fresh(client) && client.open
    {
      if client != null {
        return;
      }
      client := new HttpClient();
    }

    /** Closes and drops the client; does nothing when there is none. */
    method Disconnect()
      modifies this`client, client
      ensures client == null
      ensures old(client) != null ==> !old(client).open
    {
      if client != null {
        client.Close();
        client := null;
      }
    }

    /**
     * `send_request`: fails with a connection error, leaving the counter alone, when there is
     * no client; otherwise allocates the next id, POSTs the request envelope with the merged
     * headers to `<base_url>/`, and maps the outcome through `RequestResult`.
     */
    method SendRequest(name: string, params: Option<Object>, outcome: HttpOutcome)
      returns (r: Result<Json, McpError>, sent: Option<Post>)
      modifies this`counter
      ensures client == null ==> r == Err(NotConnected) && sent == None && counter == old(counter)
      ensures client != null ==>
        && counter == old(counter) + 1
        && sent == Some(Post(baseUrl + "/", GetHeaders(extraHeaders, auth),
                             RequestEnvelope(RequestIds.Render(counter), name, params)))
        && r == RequestResult(name, outcome)
    {
      if client == null {
        return Err(NotConnected), None;
      }
      var id := NextRequestId();
      var body := RequestEnvelope(id, name, params);
      var headers := GetHeaders(extraHeaders, auth);
      sent := Some(Post(baseUrl + "/", headers, body));
      r := RequestResult(name, outcome);
    }

    /**
     * `send_notification`: fails with a connection error when there is no client; otherwise
     * POSTs the notification envelope and swallows whatever happens to it. No id is consumed.
     */
    method SendNotification(name: string, params: Option<Object>)
      returns (r: Result<(), McpError>, sent: Option<Post>)
      ensures client == null ==> r == Err(NotConnected) && sent == None
      ensures client != null ==> r == Ok(()) && sent == Some(Post(baseUrl + "/",
                GetHeaders(extraHeaders, auth), NotificationEnvelope(name, params)))
    {
      if client == null {
        return Err(NotConnected), None;
      }
      var body := NotificationEnvelope(name, params);
      var headers := GetHeaders(extraHeaders, auth);
      sent := Some(Post(baseUrl + "/", headers, body));
      r := Ok(());
    }
  }
}
