/**
 * Callers of the two transports, written against their contracts only: what a sequence of
 * calls and events is guaranteed to produce.
 */
module Scenarios {
  import opened Wrappers
  import opened JsonRpc
  import RequestIds
  import Http
  import Stdio

  lemma FirstIds()
    ensures RequestIds.Render(1) == "1" && RequestIds.Render(2) == "2"
  {
  }

  /** A connected stdio transport that has sent one request and heard nothing back yet. */
  method OneRequestInFlight(name: string) returns (t: Stdio.StdioTransport, f: Stdio.Future)
    ensures fresh(t) && fresh(f) && t.process != null && fresh(t.process)
    ensures t.Valid() && t.process.alive && t.readTask && t.counter == 1
    ensures t.pending == map["1" := f] && t.issued == t.pending && f.state == Stdio.Pending
  {
    FirstIds();
    t := new Stdio.StdioTransport("server", None);
    var c := t.Connect(true);
    var r := t.SendRequest(name, None, true);
    f := r.value.future;
  }

  /** A connected stdio transport that has sent two requests and heard nothing back yet. */
  method TwoRequestsInFlight() returns (t: Stdio.StdioTransport, f1: Stdio.Future, f2: Stdio.Future)
    ensures fresh(t) && fresh(f1) && fresh(f2) && t.process != null && fresh(t.process)
    ensures t.Valid() && t.process.alive && t.readTask
    ensures t.pending == map["1" := f1, "2" := f2] && t.issued == t.pending
    ensures f1.state == Stdio.Pending && f2.state == Stdio.Pending
  {
    FirstIds();
    t := new Stdio.StdioTransport("server", None);
    var c := t.Connect(true);
    var r1 := t.SendRequest("tools/list", None, true);
    f1 := r1.value.future;
    var r2 := t.SendRequest("ping", Some(map[]), true);
    f2 := r2.value.future;
  }

  /** Two requests in flight are each resolved by their own response, whatever the order. */
  method ResponsesOutOfOrder(a: Json, b: Json) returns (first: Stdio.Slot, second: Stdio.Slot)
    ensures first == Stdio.Resolved(ResultResponse("1", a))
    ensures second == Stdio.Resolved(ResultResponse("2", b))
  {
    var t, f1, f2 := TwoRequestsInFlight();
    t.DeliverLine(Decoded(ResultResponse("2", b)));
    t.DeliverLine(Decoded(ResultResponse("1", a)));
    first, second := f1.state, f2.state;
  }

  /** A response that arrives after the caller timed out resolves nothing and leaks nothing. */
  method LateResponseAfterTimeout(late: Json)
    returns (outcome: Option<Result<Json, McpError>>, slot: Stdio.Slot, left: nat)
    ensures outcome == Some(Err(RequestTimedOut("tools/call")))
    ensures slot == Stdio.Cancelled && left == 0
  {
    var t, f := OneRequestInFlight("tools/call");
    outcome := t.AwaitResponse("tools/call", "1", f, Stdio.TimerExpired);
    t.DeliverLine(Decoded(ResultResponse("1", late)));
    slot := f.state;
    left := |t.pending|;
  }

  /** Disconnecting with requests pending cancels them and empties the table. */
  method DisconnectWhilePending() returns (s1: Stdio.Slot, s2: Stdio.Slot, left: nat)
    ensures s1 == Stdio.Cancelled && s2 == Stdio.Cancelled && left == 0
  {
    var t, f1, f2 := TwoRequestsInFlight();
    assert "1" in t.pending && "2" in t.pending;
    t.Disconnect(false);
    s1, s2, left := f1.state, f2.state, |t.pending|;
  }

  /**
   * A second `disconnect` is harmless, and after reconnecting the ids go on from where they
   * were: the counter is never reset.
   */
  method IdsSurviveReconnect() returns (left: nat, next: string)
    ensures left == 0 && next == RequestIds.Render(2)
  {
    var t, f := OneRequestInFlight("a");
    t.Disconnect(true);
    t.Disconnect(true);
    assert t.counter == 1 && t.process == null;
    left := |t.pending|;
    var c := t.Connect(true);
    var r2 := t.SendRequest("b", None, true);
    next := r2.value.id;
  }

  /** A failed write consumes its id but leaves no entry; a notification consumes none. */
  method IdsAcrossFailuresAndNotifications() returns (ids: seq<string>, left: nat)
    ensures ids == ["1", RequestIds.Render(3)] && left == 2
  {
    var t, f := OneRequestInFlight("a");
    var n, w := t.SendNotification("notifications/initialized", None);
    var r2 := t.SendRequest("b", None, false);
    assert t.pending.Keys == {"1"} && t.counter == 2;
    var r3 := t.SendRequest("c", None, true);
    assert RequestIds.Render(3) != "1" by {
      RequestIds.RenderInjective(1, 3);
    }
    assert t.pending.Keys == {"1", RequestIds.Render(3)};
    ids, left := ["1", r3.value.id], |t.pending|;
  }

  /**
   * A server that exited before `disconnect`, as the source has it: `terminate()` raises and
   * the pending request stays in the table, not cancelled.
   */
  method DisconnectAfterServerExitAsWritten()
    returns (raised: Result<(), McpError>, slot: Stdio.Slot, left: nat)
    ensures raised == Err(Unwrapped) && slot == Stdio.Pending && left == 1
  {
    var t, f := OneRequestInFlight("tools/call");
    t.process.Exit();
    raised := t.DisconnectAsWritten(true);
    slot, left := f.state, |t.pending|;
  }

  /** The same situation with the corrected `Disconnect`: the pending request is cancelled. */
  method DisconnectAfterServerExit() returns (slot: Stdio.Slot, left: nat)
    ensures slot == Stdio.Cancelled && left == 0
  {
    var t, f := OneRequestInFlight("tools/call");
    assert "1" in t.pending;
    t.process.Exit();
    t.Disconnect(true);
    slot, left := f.state, |t.pending|;
  }

  /** HTTP: a non-2xx status is an MCPError with that status; a 2xx JSON body comes back as it is. */
  method HttpStatusHandling(body: Json)
    returns (failed: Result<Json, McpError>, ok: Result<Json, McpError>, lastId: string)
    ensures failed == Err(HttpStatus(503, "busy")) && ok == Ok(body) && lastId == "2"
  {
    FirstIds();
    var t := new Http.HttpTransport("http://localhost:8080//", None, None);
    var before, s0 := t.SendRequest("ping", None, Http.Responded(200, "", Decoded(body)));
    t.Connect();
    var s1, s2;
    failed, s1 := t.SendRequest("ping", None, Http.Responded(503, "busy", Decoded(JNull)));
    var n, s3 := t.SendNotification("notifications/initialized", None);
    ok, s2 := t.SendRequest("ping", Some(map[]), Http.Responded(200, "", Decoded(body)));
    lastId := s2.value.body["id"].s;
  }
}
