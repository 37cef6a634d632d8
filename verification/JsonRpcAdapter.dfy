/** The JSON-RPC adapter: its tables and latch, and the methods that open and settle requests. */
module JsonRpcAdapter {
  import opened Collections
  import opened InsertionMaps
  import opened ConfirmationOutcomes
  import opened JsonRpcRequests

  class JsonRpcProtocolAdapter {
    var pendingPermissionRequests: InsertionMap<Id, Permission>
    var pendingAskUserRequests: InsertionMap<Id, Question>
    var parentDisconnected: bool
    var workingState: WorkingState

    // The event bus with the listeners of direct calls, and the process's stdout.
    var listening: set<Id>
    var promises: map<Id, Promise>
    var bus: seq<BusEvent>
    var pipe: nat
    var emitted: seq<Line>
    var stdout: seq<Line>

    function Now(): State
      reads this
    {
      State(pendingPermissionRequests, pendingAskUserRequests, listening, promises, parentDisconnected, pipe,
            workingState, bus, emitted, stdout)
    }

    constructor (pipe: nat)
      ensures Now() == Initial(pipe)
    {
      pendingPermissionRequests, pendingAskUserRequests := EmptyMap(), EmptyMap();
      parentDisconnected, workingState := false, Idle;
      listening, promises, bus := {}, map[], [];
      this.pipe, emitted, stdout := pipe, [], [];
    }

    method LatchParentDisconnect()
      modifies this
      ensures Now() == Next(old(Now()), PipeBreaks)
    {
      if parentDisconnected { return; }
      parentDisconnected := true;
    }

    /** safeStdoutWrite: a write on a broken pipe only sets the latch. */
    method SafeStdoutWrite(line: Line)
      modifies this
      ensures Now() == Write(old(Now()), line)
    {
      emitted := emitted + [line];
      if parentDisconnected { return; }
      if pipe == 0 {
        LatchParentDisconnect();
        return;
      }
      pipe := pipe - 1;
      stdout := stdout + [line];
    }

    method EmitPermissionResponse(e: BusEvent)
      requires e.PermissionResponse?
      modifies this
      ensures Now() == EmitPermission(old(Now()), e)
    {
      bus := bus + [e];
      if e.id in listening {
        listening := listening - {e.id};
        promises := promises[e.id := if e.failure.Some? then Rejected(e.failure.value)
                                     else Resolved(e.approved, e.answer)];
      }
    }

    method EmitAskUserResponse(e: BusEvent)
      requires e.AskUserResponse?
      modifies this
      ensures Now() == EmitAskUser(old(Now()), e)
    {
      bus := bus + [e];
      pendingAskUserRequests := pendingAskUserRequests.Delete(e.id);
    }

    method HandlePermissionRequestEvent(id: Id, p: Permission)
      modifies this
      ensures Now() == Next(old(Now()), PermissionOpens(id, p, false))
    {
      workingState := WaitingForToolConfirmation;
      SafeStdoutWrite(RequestPermission(id, p.toolIds));
      pendingPermissionRequests := pendingPermissionRequests.Set(id, p);
    }

    /** Up to the promise it returns, whose listener is on the bus by then. */
    method RequestPermissionCall(id: Id, p: Permission)
      modifies this
      ensures Now() == Next(old(Now()), PermissionOpens(id, p, true))
    {
      workingState := WaitingForToolConfirmation;
      SafeStdoutWrite(RequestPermission(id, p.toolIds));
      pendingPermissionRequests := pendingPermissionRequests.Set(id, p);
      listening := listening + {id};
    }

    method HandlePermissionResponse(id: Id, approved: Option<seq<ToolId>>, a: Answer) returns (handled: bool)
      modifies this
      ensures Step(Now(), handled) == AnswerPermission(old(Now()), id, approved, a)
    {
      var pending := pendingPermissionRequests.Get(id);
      if pending.None? { return false; }
      pendingPermissionRequests := pendingPermissionRequests.Delete(id);
      var isCancelled := a.outcome == Cancel;
      var resolved := if isCancelled then [] else if approved.Some? then approved.value else pending.value.toolIds;
      workingState := if isCancelled then StreamingAssistantMessage else ExecutingTool;
      EmitPermissionResponse(PermissionResponse(id, resolved, a, pending.value.sessionId, None));
      SafeStdoutWrite(PermissionResolved(id, resolved, a.outcome));
      handled := true;
    }

    method HandlePermissionFailure(id: Id, failure: Failure) returns (handled: bool)
      modifies this
      ensures Step(Now(), handled) == FailPermission(old(Now()), id, failure)
    {
      var pending := pendingPermissionRequests.Get(id);
      if pending.None? { return false; }
      pendingPermissionRequests := pendingPermissionRequests.Delete(id);
      var isConflictFailure := failure.code == Some(CONFLICT);
      workingState := StreamingAssistantMessage;
      EmitPermissionResponse(PermissionResponse(id, [], CANCELLED, pending.value.sessionId, Some(failure)));
      if !isConflictFailure {
        SafeStdoutWrite(PermissionResolved(id, [], Cancel));
      }
      handled := true;
    }

    method HandleAskUserRequestEvent(id: Id, q: Question)
      modifies this
      ensures Now() == Next(old(Now()), QuestionOpens(id, q))
    {
      workingState := WaitingForToolConfirmation;
      SafeStdoutWrite(AskUser(id, q.toolCallId, q.topics));
      pendingAskUserRequests := pendingAskUserRequests.Set(id, q);
    }

    method HandleAskUserResponse(id: Id, result: AskUserResult) returns (handled: bool)
      modifies this
      ensures Step(Now(), handled) == AnswerQuestion(old(Now()), id, result)
    {
      var pending := pendingAskUserRequests.Get(id);
      if pending.None? { return false; }
      pendingAskUserRequests := pendingAskUserRequests.Delete(id);
      workingState := StreamingAssistantMessage;
      EmitAskUserResponse(AskUserResponse(id, result, pending.value.sessionId, None));
      handled := true;
    }

    method HandleAskUserFailure(id: Id, failure: Failure) returns (handled: bool)
      modifies this
      ensures Step(Now(), handled) == FailQuestion(old(Now()), id, failure)
    {
      var pending := pendingAskUserRequests.Get(id);
      if pending.None? { return false; }
      pendingAskUserRequests := pendingAskUserRequests.Delete(id);
      workingState := StreamingAssistantMessage;
      EmitAskUserResponse(AskUserResponse(id, NO_ANSWER, pending.value.sessionId, Some(failure)));
      handled := true;
    }

    method TryHandleToolingResponse(r: Response) returns (handled: bool)
      modifies this
      ensures Step(Now(), handled) == TryHandle(old(Now()), r)
    {
      if r.id.None? { return false; }
      var id := r.id.value;
      var hasPendingPermission := id in pendingPermissionRequests.at;
      var hasPendingAskUser := id in pendingAskUserRequests.at;
      if !hasPendingPermission && !hasPendingAskUser { return false; }

      if r.error.Some? {
        var failure := Failure(Daemon, Some(r.error.value.code), r.error.value.message);
        if hasPendingPermission {
          handled := HandlePermissionFailure(id, failure);
        } else {
          handled := HandleAskUserFailure(id, failure);
        }
        return;
      }

      if r.result.Some? {
        if hasPendingPermission {
          if r.result.value.asPermission.Some? {
            handled := HandlePermissionResponse(id, None, r.result.value.asPermission.value);
          } else {
            handled := HandlePermissionFailure(id, INVALID_PERMISSION);
          }
          return;
        }
        if r.result.value.asAskUser.Some? {
          handled := HandleAskUserResponse(id, r.result.value.asAskUser.value);
        } else {
          handled := HandleAskUserFailure(id, INVALID_ASK_USER);
        }
        return;
      }

      if hasPendingPermission {
        handled := HandlePermissionFailure(id, MISSING_PAYLOAD);
      } else {
        handled := HandleAskUserFailure(id, MISSING_PAYLOAD);
      }
    }

    method RejectAllPendingPermissions()
      requires pendingPermissionRequests.Valid()
      modifies this
      ensures Now() == Next(old(Now()), PermissionsRejected)
    {
      ghost var was := Now();
      var ids := pendingPermissionRequests.order;
      for i := 0 to |ids|
        invariant Now() == RejectEach(was, ids[..i])
        invariant pendingPermissionRequests == was.permissions
      {
        assert Front(ids[..i + 1]) == ids[..i];
        ElementsAre(ids, ids[i]);
        var pending := pendingPermissionRequests.at[ids[i]];
        EmitPermissionResponse(PermissionResponse(ids[i], [], CANCELLED, pending.sessionId, None));
        SafeStdoutWrite(PermissionResolved(ids[i], [], Cancel));
      }
      assert ids[..|ids|] == ids;
      pendingPermissionRequests := EmptyMap();
      if |ids| > 0 {
        workingState := Idle;
      }
    }

    /** The loop visits the entries that are still there when it reaches them. */
    method RejectAllPendingAskUserRequests()
      modifies this
      ensures Now() == Next(old(Now()), QuestionsRejected)
    {
      ghost var was := Now();
      var ids := pendingAskUserRequests.order;
      for i := 0 to |ids|
        invariant Now() == RejectEachQuestion(was, ids[..i])
      {
        assert Front(ids[..i + 1]) == ids[..i];
        if ids[i] in pendingAskUserRequests.at {
          var pending := pendingAskUserRequests.at[ids[i]];
          EmitAskUserResponse(AskUserResponse(ids[i], NO_ANSWER, pending.sessionId, None));
          pendingAskUserRequests := pendingAskUserRequests.Delete(ids[i]);
        }
      }
      assert ids[..|ids|] == ids;
    }

    /** An AskUserResponse from elsewhere on the bus. */
    method OnAskUserResponse(id: Id)
      modifies this
      ensures Now() == Next(old(Now()), QuestionAborted(id))
    {
      pendingAskUserRequests := pendingAskUserRequests.Delete(id);
    }

    /** The restore list of load_session. */
    method GetPendingPermissions() returns (list: seq<(Id, Permission)>)
      requires pendingPermissionRequests.Valid()
      ensures |list| == |pendingPermissionRequests.order|
      ensures forall i :: 0 <= i < |list| ==>
        && list[i].0 == pendingPermissionRequests.order[i]
        && list[i].0 in pendingPermissionRequests.at
        && list[i].1 == pendingPermissionRequests.at[list[i].0]
    {
      list := [];
      var ids := pendingPermissionRequests.order;
      for i := 0 to |ids|
        invariant |list| == i
        invariant forall k :: 0 <= k < i ==>
          list[k].0 == ids[k] && ids[k] in pendingPermissionRequests.at
          && list[k].1 == pendingPermissionRequests.at[ids[k]]
      {
        ElementsAre(ids, ids[i]);
        list := list + [(ids[i], pendingPermissionRequests.at[ids[i]])];
      }
    }
  }
}
