/**
 * StdioTransport: a child process spoken to over newline-delimited JSON-RPC. The model keeps
 * the handles (`_process`, `_read_task`), the request-id counter and the pending-request
 * table from id to a single-resolution future, and turns the concurrent parts into events:
 * a request being sent, a line arriving on the child's stdout, a caller's wait ending
 * (response, timeout, cancellation), and disconnection.
 */
module Stdio {
  import opened Wrappers
  import opened JsonRpc
  import RequestIds

  /** The state of an asyncio future: not done, done with a result, or cancelled. */
  datatype Slot = Pending | Resolved(msg: Json) | Cancelled

  /** A slot after `set_result(msg)` guarded by `not done()`. */
  function Settle(s: Slot, msg: Json): Slot {
    if s.Pending? then Resolved(msg) else s
  }

  /** A slot after `cancel()`, which does nothing to a future that is already done. */
  function CancelSlot(s: Slot): Slot {
    if s.Pending? then Cancelled else s
  }

  class Future {
    var state: Slot

    constructor ()
      ensures state == Pending
    {
      state := Pending;
    }

    predicate Done()
      reads this
    {
      !state.Pending?
    }

    /** `set_result`; asyncio refuses it on a future that is already done. */
    method SetResult(msg: Json)
      requires !Done()
      modifies this
      ensures state == Resolved(msg)
    {
      state := Resolved(msg);
    }

    /** `cancel`: true when it cancelled the future, false when it was already done. */
    method Cancel() returns (cancelled: bool)
      modifies this
      ensures cancelled == old(!Done())
      ensures state == CancelSlot(old(state))
    {
      cancelled := !Done();
      if cancelled {
        state := Cancelled;
      }
    }
  }

  /** The child process. `alive` turns false when it exits; `killed` records the escalation. */
  class Process {
    var alive: bool
    var killed: bool

    constructor ()
      ensures alive && !killed
    {
      alive, killed := true, false;
    }

    /** The child exits by itself (its stdout then reaches end of stream). */
    method Exit()
      modifies this
      ensures !alive && killed == old(killed)
    {
      alive := false;
    }

    /**
     * `terminate()` and a wait bounded by the grace period; if the child does not exit within
     * it, `kill()` and an unbounded wait.
     */
    method Stop(exitsWithinGrace: bool)
      requires alive
      modifies this
      ensures !alive && killed == !exitsWithinGrace
    {
      killed := !exitsWithinGrace;
      alive := false;
    }
  }

  /** What `send_request` hands to its own waiting step once the request line is written. */
  datatype Sent = Sent(id: string, line: Object, future: Future)

  /** What ends a caller's wait for its future, if the future is not done first. */
  datatype Wakeup = StillWaiting | TimerExpired | TaskCancelled

  /** The message of the first line that carries `id`, if any. */
  function FirstResponse(lines: seq<Line>, id: string): Option<Json>
    decreases |lines|
  {
    if lines == [] then None
    else
      var prior := FirstResponse(lines[..|lines| - 1], id);
      var last := lines[|lines| - 1];
      if prior.Some? then prior
      else if ResponseId(last) == Some(id) then Some(last.value)
      else None
  }

  /**
   * `FirstResponse` is the message of the earliest line whose id is `id`, and there is none
   * exactly when no line carries `id`.
   */
  lemma {:induction false} FirstResponseIsEarliest(lines: seq<Line>, id: string)
    ensures FirstResponse(lines, id).None? <==> forall i :: 0 <= i < |lines| ==> ResponseId(lines[i]) != Some(id)
    ensures FirstResponse(lines, id).Some? ==>
              exists i :: && 0 <= i < |lines| && ResponseId(lines[i]) == Some(id)
                          && lines[i].value == FirstResponse(lines, id).value
                          && forall j :: 0 <= j < i ==> ResponseId(lines[j]) != Some(id)
    decreases |lines|
  {
    if lines != [] {
      var init := lines[..|lines| - 1];
      FirstResponseIsEarliest(init, id);
      assert forall i :: 0 <= i < |init| ==> init[i] == lines[i];
      if FirstResponse(init, id).Some? {
        var i :| && 0 <= i < |init| && ResponseId(init[i]) == Some(id)
                 && init[i].value == FirstResponse(init, id).value
                 && forall j :: 0 <= j < i ==> ResponseId(init[j]) != Some(id);
        assert ResponseId(lines[i]) == Some(id);
      }
    }
  }

  lemma FirstResponseStep(lines: seq<Line>, i: nat, id: string)
    requires i < |lines|
    ensures FirstResponse(lines[..i + 1], id) ==
              if FirstResponse(lines[..i], id).Some? then FirstResponse(lines[..i], id)
              else if ResponseId(lines[i]) == Some(id) then Some(lines[i].value)
              else None
  {
    assert lines[..i + 1][..i] == lines[..i];
  }

  /** The entries of `table` that no line of `lines` answers. */
  function Unanswered(table: map<string, Future>, lines: seq<Line>): map<string, Future> {
    map k | k in table && FirstResponse(lines, k).None? :: table[k]
  }

  /** One more line removes from the unanswered entries at most the one it answers. */
  lemma UnansweredStep(table: map<string, Future>, lines: seq<Line>, i: nat, before: map<string, Future>)
    requires i < |lines| && before == Unanswered(table, lines[..i])
    ensures var id := ResponseId(lines[i]);
      Unanswered(table, lines[..i + 1]) ==
        if id.Some? && id.value in before then before - {id.value} else before
  {
    var id := ResponseId(lines[i]);
    var after := if id.Some? && id.value in before then before - {id.value} else before;
    forall k ensures (k in Unanswered(table, lines[..i + 1])) == (k in after) {
      FirstResponseStep(lines, i, k);
    }
    assert Unanswered(table, lines[..i + 1]).Keys == after.Keys;
  }

  /** The state of a future that was in `s` before the reader saw its first response `first`. */
  function AfterReading(s: Slot, first: Option<Json>): Slot {
    match first
    case Some(m) => Settle(s, m)
    case None => s
  }

  /**
   * Ids handed out are "1" .. str(counter); each created future belongs to one id; the
   * pending table maps an id only to that id's own future.
   */
  ghost predicate TableInvariant(issued: map<string, Future>, pending: map<string, Future>, counter: nat) {
    && (forall id :: id in issued ==> RequestIds.Issued(id, counter))
    && (forall id :: id in pending ==> id in issued && pending[id] == issued[id])
    && (forall a, b :: a in issued && b in issued && a != b ==> issued[a] != issued[b])
  }

  /**
   * Allocating the next id for a new future keeps the invariant, whether or not the future is
   * entered in the table; the new id is not one handed out before.
   */
  lemma InsertKeepsInvariant(issued: map<string, Future>, pending: map<string, Future>, counter: nat, f: Future)
    requires TableInvariant(issued, pending, counter) && f !in issued.Values
    ensures RequestIds.Render(counter + 1) !in issued
    ensures TableInvariant(issued[RequestIds.Render(counter + 1) := f], pending, counter + 1)
    ensures TableInvariant(issued[RequestIds.Render(counter + 1) := f],
                           pending[RequestIds.Render(counter + 1) := f], counter + 1)
  {
    RequestIds.NextIdIsFresh(counter);
  }

  /** Removing entries from the table keeps the invariant. */
  lemma RemoveKeepsInvariant(issued: map<string, Future>, pending: map<string, Future>, counter: nat, gone: set<string>)
    requires TableInvariant(issued, pending, counter)
    ensures TableInvariant(issued, pending - gone, counter)
  {
  }

  class StdioTransport {
    const command: string
    const args: seq<string>
    var process: Process?
    var readTask: bool
    var counter: nat
    var pending: map<string, Future>
    /** Every future a request has created, by its id: the callers' own references. */
    ghost var issued: map<string, Future>

    ghost predicate Valid()
      reads this
    {
      TableInvariant(issued, pending, counter)
    }

    constructor (command: string, args: Option<seq<string>>)
      ensures Valid()
      ensures this.command == command && this.args == (if args.Some? then args.value else [])
      ensures process == null && !readTask && counter == 0
      ensures pending == map[] && issued == map[]
    {
      this.command := command;
      this.args := if args.Some? then args.value else [];
      process := null;
      readTask := false;
      counter := 0;
      pending := map[];
      issued := map[];
    }

    /** `_get_next_request_id`. */
    method NextRequestId() returns (id: string)
      modifies this`counter
      ensures counter == old(counter) + 1
      ensures id == RequestIds.Render(counter)
      ensures RequestIds.Parse(id) == Some(counter)
    {
      counter := counter + 1;
      id := RequestIds.Render(counter);
      RequestIds.ParseRender(counter);
    }

    /**
     * `connect`: a no-op while a process handle exists; otherwise spawns the child and starts
     * the reader, or fails with a connection error when the spawn fails.
     */
    method Connect(spawned: bool) returns (r: Result<(), McpError>)
      modifies this`process, this`readTask
      ensures old(process) != null ==> r == Ok(()) && process == old(process) && readTask == old(readTask)
      ensures old(process) == null && spawned ==>
                r == Ok(()) && process != null && fresh(process) && process.alive && readTask
      ensures old(process) == null && !spawned ==>
                r == Err(StartFailed) && process == null && readTask == old(readTask)
    {
      if process != null {
        return Ok(());
      }
      if !spawned {
        return Err(StartFailed);
      }
      process := new Process();
      readTask := true;
      r := Ok(());
    }

    /**
     * `send_request` up to its wait: fails with a connection error before anything changes
     * when there is no process; otherwise takes the next id, enters a fresh pending future
     * under it and writes the request line. A failed write removes the entry again.
     */
    method SendRequest(name: string, params: Option<Object>, written: bool)
      returns (r: Result<Sent, McpError>)
      requires Valid()
      modifies this`counter, this`pending, this`issued
      ensures Valid()
      ensures old(process) == null ==>
                r == Err(NotConnected) && counter == old(counter)
                && pending == old(pending) && issued == old(issued)
      ensures old(process) != null ==>
                && counter == old(counter) + 1
                && var id := RequestIds.Render(counter);
                && id !in old(issued)
                && (forall k :: k in old(issued) ==> RequestIds.Issued(k, counter - 1))
                && id in issued && fresh(issued[id]) && issued[id].state == Pending
                && issued == old(issued)[id := issued[id]]
                && (written ==> r == Ok(Sent(id, RequestEnvelope(id, name, params), issued[id]))
                                && pending == old(pending)[id := issued[id]])
                && (!written ==> r == Err(SendFailed) && pending == old(pending))
    {
      if process == null {
        return Err(NotConnected);
      }
      var future := new Future();
      InsertKeepsInvariant(issued, pending, counter, future);
      RequestIds.NextIdIsFresh(counter);
      var id := NextRequestId();
      var line := RequestEnvelope(id, name, params);
      issued := issued[id := future];
      if !written {
        return Err(SendFailed);
      }
      pending := pending[id := future];
      r := Ok(Sent(id, line, future));
    }

    /**
     * The caller's `wait_for` on its future. A done future gives its result, or CancelledError
     * when it was cancelled. Otherwise an expired timer cancels the future, pops its entry and
     * raises MCPTimeoutError; a cancelled caller task cancels the future but, CancelledError
     * not being caught by `except Exception`, leaves the entry in the table.
     */
    method AwaitResponse(name: string, id: string, f: Future, wake: Wakeup)
      returns (r: Option<Result<Json, McpError>>)
      requires Valid() && id in issued && issued[id] == f
      modifies this`pending, f
      ensures Valid()
      ensures old(f.state).Resolved? ==>
                r == Some(Ok(old(f.state).msg)) && f.state == old(f.state) && pending == old(pending)
      ensures old(f.state).Cancelled? ==>
                r == Some(Err(CancelledError)) && f.state == Cancelled && pending == old(pending)
      ensures old(f.state).Pending? && wake.StillWaiting? ==>
                r == None && f.state == Pending && pending == old(pending)
      ensures old(f.state).Pending? && wake.TimerExpired? ==>
                r == Some(Err(RequestTimedOut(name))) && f.state == Cancelled
                && pending == old(pending) - {id}
      ensures old(f.state).Pending? && wake.TaskCancelled? ==>
                r == Some(Err(CancelledError)) && f.state == Cancelled && pending == old(pending)
    {
      match f.state
      case Resolved(msg) => r := Some(Ok(msg));
      case Cancelled => r := Some(Err(CancelledError));
      case Pending =>
        match wake
        case StillWaiting => r := None;
        case TimerExpired =>
          var cancelled := f.Cancel();
          pending := pending - {id};
          r := Some(Err(RequestTimedOut(name)));
        case TaskCancelled =>
          var cancelled := f.Cancel();
          r := Some(Err(CancelledError));
    }

    /**
     * One step of the reader loop, which runs only while the reader task does: a line whose id is a pending key pops that entry and
     * resolves its future unless it is already done; any other line changes nothing.
     */
    method DeliverLine(line: Line)
      requires Valid() && readTask
      modifies this`pending, pending.Values
      ensures Valid()
      ensures var id := ResponseId(line);
        if id.Some? && id.value in old(pending) then
          && pending == old(pending) - {id.value}
          && issued[id.value].state == Settle(old(issued[id.value].state), line.value)
        else pending == old(pending)
      ensures forall k :: k in issued && !(ResponseId(line) == Some(k) && k in old(pending))
                ==> issued[k].state == old(issued[k].state)
    {
      var id := ResponseId(line);
      if id.Some? && id.value in pending {
        var f := pending[id.value];
        pending := pending - {id.value};
        if !f.Done() {
          f.SetResult(line.value);
        }
      }
    }

    /**
     * `_read_responses` over the lines the child writes before its stdout ends: nothing when
     * there is no process; otherwise each pending request whose id some line carries is
     * removed and resolved with the first such line (unless already done), and every other
     * entry and future stays as it was.
     */
    method ReadResponses(lines: seq<Line>)
      requires Valid() && readTask
      modifies this`pending, pending.Values
      ensures Valid()
      ensures process == null ==> pending == old(pending)
      ensures process != null ==> pending == Unanswered(old(pending), lines)
      ensures process != null ==> forall k :: k in old(pending) ==>
                old(pending)[k].state == AfterReading(old(pending[k].state), FirstResponse(lines, k))
      ensures forall k :: k in issued && (process == null || k !in old(pending))
                ==> issued[k].state == old(issued[k].state)
    {
      if process == null {
        return;
      }
      ghost var table := pending;
      var i := 0;
      while i < |lines|
        invariant 0 <= i <= |lines|
        invariant Valid() && readTask && issued == old(issued)
        invariant forall k :: k in table ==> k in old(issued) && table[k] == old(issued)[k]
        invariant pending == Unanswered(table, lines[..i])
        invariant forall k :: k in table ==> table[k].state == AfterReading(old(table[k].state), FirstResponse(lines[..i], k))
        invariant forall k :: k in issued && k !in table ==> issued[k].state == old(issued[k].state)
      {
        ghost var before := pending;
        ghost var id := ResponseId(lines[i]);
        DeliverLine(lines[i]);
        i := i + 1;
        assert pending == Unanswered(table, lines[..i]) by {
          UnansweredStep(table, lines, i - 1, before);
        }
        assert forall k :: k in table ==>
                 table[k].state == AfterReading(old(table[k].state), FirstResponse(lines[..i], k)) by {
          forall k | k in table
            ensures table[k].state == AfterReading(old(table[k].state), FirstResponse(lines[..i], k))
          {
            FirstResponseStep(lines, i - 1, k);
            if id == Some(k) && k in before {
              assert FirstResponse(lines[..i - 1], k).None?;
            } else {
              assert FirstResponse(lines[..i], k) == FirstResponse(lines[..i - 1], k);
            }
          }
        }
      }
      assert lines[..i] == lines;
    }

    /** Cancels every future in the table that is not done yet, then empties the table. */
    method CancelPending()
      requires Valid()
      modifies this`pending, pending.Values
      ensures Valid() && pending == map[]
      ensures forall k :: k in old(pending) ==> old(pending)[k].state == CancelSlot(old(pending[k].state))
      ensures forall k :: k in issued && k !in old(pending) ==> issued[k].state == old(issued[k].state)
    {
      var futures := pending.Values;
      while futures != {}
        invariant futures <= old(pending.Values)
        invariant forall f :: f in old(pending.Values) && f !in futures ==> f.state == CancelSlot(old(f.state))
        invariant forall f :: f in futures ==> f.state == old(f.state)
        decreases futures
      {
        var f :| f in futures;
        if !f.Done() {
          var cancelled := f.Cancel();
        }
        futures := futures - {f};
      }
      pending := map[];
    }

    /**
     * `disconnect`: cancels the reader, stops the child (terminate, then kill after the grace
     * period) and drops its handle, then cancels every future still pending and clears the
     * table. Every step is taken whatever state the handles are in, so it is safe to repeat.
     */
    method Disconnect(exitsWithinGrace: bool)
      requires Valid()
      modifies this`process, this`readTask, this`pending, pending.Values, process
      ensures Valid()
      ensures process == null && !readTask && pending == map[]
      ensures old(process) != null ==> !old(process).alive
      ensures forall k :: k in old(pending) ==> old(pending)[k].state == CancelSlot(old(pending[k].state))
      ensures forall k :: k in old(pending) ==> !old(pending)[k].state.Pending?
      ensures forall k :: k in issued && k !in old(pending) ==> issued[k].state == old(issued[k].state)
    {
      readTask := false;
      if process != null {
        if process.alive {
          process.Stop(exitsWithinGrace);
        }
        process := null;
      }
      CancelPending();
    }

    /**
     * `disconnect` as the source has it: when the child has already exited, `terminate()`
     * raises ProcessLookupError, which the `finally` lets through after dropping the handle,
     * so the pending futures are neither cancelled nor removed.
     */
    method DisconnectAsWritten(exitsWithinGrace: bool) returns (r: Result<(), McpError>)
      requires Valid()
      modifies this`process, this`readTask, this`pending, pending.Values, process
      ensures Valid()
      ensures process == null && !readTask
      ensures old(process != null && !process.alive) ==>
                r == Err(Unwrapped) && pending == old(pending)
                && forall k :: k in issued ==> issued[k].state == old(issued[k].state)
      ensures old(process == null || process.alive) ==>
                r == Ok(()) && pending == map[]
                && forall k :: k in old(pending) ==> old(pending)[k].state == CancelSlot(old(pending[k].state))
    {
      readTask := false;
      if process != null {
        var p := process;
        process := null;
        if !p.alive {
          return Err(Unwrapped);
        }
        p.Stop(exitsWithinGrace);
      }
      CancelPending();
      r := Ok(());
    }

    /**
     * `send_notification`: fails with a connection error when there is no process; otherwise
     * writes the notification line and swallows any failure. Nothing of the transport changes.
     */
    method SendNotification(name: string, params: Option<Object>)
      returns (r: Result<(), McpError>, written: Option<Object>)
      ensures process == null ==> r == Err(NotConnected) && written == None
      ensures process != null ==> r == Ok(()) && written == Some(NotificationEnvelope(name, params))
    {
      if process == null {
        return Err(NotConnected), None;
      }
      r, written := Ok(()), Some(NotificationEnvelope(name, params));
    }
  }
}
