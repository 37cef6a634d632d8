/** Every permission request and question is settled exactly once, whatever the order of events. */
module JsonRpcProperties {
  import opened Collections
  import opened InsertionMaps
  import opened ConfirmationOutcomes
  import opened JsonRpcRequests

  // ----- the invariant

  /** A table holds what was opened and is not gone, in the order of opening. */
  ghost predicate Ledger<V>(table: InsertionMap<Id, V>, begun: seq<Id>, gone: set<Id>) {
    && Distinct(begun) && gone <= Elements(begun)
    && table.order == Minus(begun, gone)
    && table.at.Keys == Elements(begun) - gone
  }

  ghost predicate PermissionInv(s: State) {
    && Ledger(s.permissions, Opened(s.emitted), Elements(Responded(s.bus)))
    && Distinct(Responded(s.bus))
    && Notices(s.emitted) == AllDue(s.bus)
  }

  ghost predicate ToolsInv(s: State) {
    && Requested(s.emitted).Keys == Elements(Opened(s.emitted))
    && (forall id :: id in s.permissions.at && id in Requested(s.emitted) ==>
      s.permissions.at[id].toolIds == Requested(s.emitted)[id])
  }

  /** called: the ids that were opened by requestPermission, which promised its caller an answer. */
  ghost predicate PromiseInv(s: State, called: set<Id>) {
    && called <= Elements(Opened(s.emitted))
    && Promised(s.bus).Keys == Elements(Responded(s.bus))
    && s.listening == called - Elements(Responded(s.bus))
    && s.promises.Keys == called * Elements(Responded(s.bus))
    && (forall id :: id in s.promises && id in Promised(s.bus) ==> s.promises[id] == Promised(s.bus)[id])
  }

  ghost predicate QuestionInv(s: State, aborted: set<Id>) {
    && Ledger(s.questions, Asked(s.emitted), Elements(Answered(s.bus)) + aborted)
    && Distinct(Answered(s.bus))
    && Elements(Answered(s.bus)) !! aborted
    && Elements(Opened(s.emitted)) !! Elements(Asked(s.emitted))
  }

  ghost predicate PipeInv(s: State) {
    s.stdout <= s.emitted && (!s.disconnected ==> s.stdout == s.emitted)
  }

  ghost predicate Inv(s: State, called: set<Id>, aborted: set<Id>) {
    PermissionInv(s) && ToolsInv(s) && PromiseInv(s, called) && QuestionInv(s, aborted) && PipeInv(s)
  }

  // ----- a table and its history

  lemma {:induction false} LedgerOpens<V>(table: InsertionMap<Id, V>, begun: seq<Id>, gone: set<Id>, id: Id, v: V)
    requires Ledger(table, begun, gone) && id !in Elements(begun)
    ensures Ledger(table.Set(id, v), begun + [id], gone)
    ensures table.Set(id, v).at == table.at[id := v]
  {
    Snoc(begun, id, gone);
  }

  lemma {:induction false} LedgerCloses<V>(table: InsertionMap<Id, V>, begun: seq<Id>, gone: set<Id>, id: Id)
    requires Ledger(table, begun, gone) && id in table.at
    ensures Ledger(table.Delete(id), begun, gone + {id})
    ensures id !in gone && id in Elements(begun)
  {
    MinusMinus(begun, gone, {id});
  }

  lemma {:induction false} LinesSnoc(lines: seq<Line>, x: Line)
    ensures Opened(lines + [x]) == if x.RequestPermission? then Opened(lines) + [x.id] else Opened(lines)
    ensures Asked(lines + [x]) == if x.AskUser? then Asked(lines) + [x.id] else Asked(lines)
    ensures Notices(lines + [x]) == if x.PermissionResolved? then Notices(lines) + [x] else Notices(lines)
    ensures Requested(lines + [x]) ==
            if x.RequestPermission? then Requested(lines)[x.id := x.toolIds] else Requested(lines)
    ensures Elements(Opened(lines + [x])) == Elements(Opened(lines)) + if x.RequestPermission? then {x.id} else {}
    ensures Elements(Asked(lines + [x])) == Elements(Asked(lines)) + if x.AskUser? then {x.id} else {}
  {
    assert Front(lines + [x]) == lines;
    Snoc(Opened(lines), x.id, {});
    Snoc(Asked(lines), x.id, {});
  }

  lemma {:induction false} BusSnoc(bus: seq<BusEvent>, e: BusEvent)
    ensures Responded(bus + [e]) == if e.PermissionResponse? then Responded(bus) + [e.id] else Responded(bus)
    ensures Answered(bus + [e]) == if e.AskUserResponse? then Answered(bus) + [e.id] else Answered(bus)
    ensures AllDue(bus + [e]) == if Announced(e) then AllDue(bus) + [Notice(e)] else AllDue(bus)
    ensures Promised(bus + [e]) == if e.PermissionResponse? then Promised(bus)[e.id := PromiseOf(e)] else Promised(bus)
    ensures Elements(Responded(bus + [e])) == Elements(Responded(bus)) + if e.PermissionResponse? then {e.id} else {}
    ensures Elements(Answered(bus + [e])) == Elements(Answered(bus)) + if e.AskUserResponse? then {e.id} else {}
    ensures Distinct(Responded(bus + [e])) <==>
            Distinct(Responded(bus)) && (e.PermissionResponse? ==> e.id !in Elements(Responded(bus)))
    ensures Distinct(Answered(bus + [e])) <==>
            Distinct(Answered(bus)) && (e.AskUserResponse? ==> e.id !in Elements(Answered(bus)))
  {
    assert Front(bus + [e]) == bus;
    Snoc(Responded(bus), e.id, {});
    Snoc(Answered(bus), e.id, {});
  }

  // ----- permissions

  /** t is s after one request line and its new entry in a table. */
  ghost predicate Opens(s: State, t: State, line: Line, byCall: bool) {
    && !line.PermissionResolved?
    && line.id !in Elements(Opened(s.emitted)) && line.id !in Elements(Asked(s.emitted))
    && t.emitted == s.emitted + [line] && t.bus == s.bus
    && t.promises == s.promises
    && t.listening == (if byCall then s.listening + {line.id} else s.listening)
    && (PipeInv(s) ==> PipeInv(t))
  }

  lemma {:induction false} OpenKeepsPromises(s: State, t: State, line: Line, byCall: bool, called: set<Id>)
    requires PromiseInv(s, called) && Opens(s, t, line, byCall) && (byCall ==> line.RequestPermission?)
    requires Elements(Responded(s.bus)) <= Elements(Opened(s.emitted))
    ensures PromiseInv(t, if byCall then called + {line.id} else called)
  {
    LinesSnoc(s.emitted, line);
  }

  lemma {:induction false} OpenKeepsPermissions(s: State, t: State, p: Permission, line: Line, byCall: bool)
    requires PermissionInv(s) && ToolsInv(s) && Opens(s, t, line, byCall)
    requires line.RequestPermission? ==>
               p.toolIds == line.toolIds && t.permissions == s.permissions.Set(line.id, p)
    requires line.AskUser? ==> t.permissions == s.permissions
    ensures PermissionInv(t) && ToolsInv(t)
  {
    LinesSnoc(s.emitted, line);
    LedgerOpens(s.permissions, Opened(s.emitted), Elements(Responded(s.bus)), line.id, p);
  }

  lemma {:induction false} OpenKeepsQuestions(s: State, t: State, q: Question, line: Line, byCall: bool, aborted: set<Id>)
    requires QuestionInv(s, aborted) && Opens(s, t, line, byCall)
    requires line.AskUser? ==> t.questions == s.questions.Set(line.id, q)
    requires line.RequestPermission? ==> t.questions == s.questions
    ensures QuestionInv(t, aborted)
  {
    LinesSnoc(s.emitted, line);
    LedgerOpens(s.questions, Asked(s.emitted), Elements(Answered(s.bus)) + aborted, line.id, q);
  }

  lemma {:induction false} RespondedWereOpened(s: State)
    requires PermissionInv(s)
    ensures Elements(Responded(s.bus)) <= Elements(Opened(s.emitted))
  {}

  lemma {:induction false} OpenKeepsInv(s: State, id: Id, p: Permission, byCall: bool, called: set<Id>, aborted: set<Id>)
    requires Inv(s, called, aborted)
    requires id !in Elements(Opened(s.emitted)) && id !in Elements(Asked(s.emitted))
    ensures Inv(OpenPermission(s, id, p, byCall), if byCall then called + {id} else called, aborted)
  {
    hide Minus, Elements, Opened, Asked, Notices, Requested, Answered, Responded, Distinct, AllDue, Promised,
      PermissionInv, ToolsInv, PromiseInv, QuestionInv;
    RespondedWereOpened(s);
    var t, line := OpenPermission(s, id, p, byCall), RequestPermission(id, p.toolIds);
    OpenKeepsPromises(s, t, line, byCall, called);
    OpenKeepsPermissions(s, t, p, line, byCall);
    OpenKeepsQuestions(s, t, Question("", "", []), line, byCall, aborted);
  }

  /** t is s after one request has left the table with its response and, unless a conflict, its notice. */
  ghost predicate Settles(s: State, t: State, e: BusEvent) {
    && e.PermissionResponse? && e.id in s.permissions.at
    && t.bus == s.bus + [e] && t.permissions == s.permissions.Delete(e.id) && t.questions == s.questions
    && t.emitted == (if Announced(e) then s.emitted + [Notice(e)] else s.emitted)
    && t.listening == EmitPermission(s, e).listening && t.promises == EmitPermission(s, e).promises
    && (PipeInv(s) ==> PipeInv(t))
  }

  lemma {:induction false} SettleHistory(s: State, t: State, e: BusEvent, aborted: set<Id>)
    requires PermissionInv(s) && ToolsInv(s) && QuestionInv(s, aborted) && Settles(s, t, e)
    ensures PermissionInv(t) && ToolsInv(t) && QuestionInv(t, aborted)
    ensures Opened(t.emitted) == Opened(s.emitted)
    ensures e.id in Elements(Opened(s.emitted)) && e.id !in Elements(Responded(s.bus))
  {
    BusSnoc(s.bus, e);
    LinesSnoc(s.emitted, Notice(e));
    LedgerCloses(s.permissions, Opened(s.emitted), Elements(Responded(s.bus)), e.id);
  }

  lemma {:induction false} SettlePromise(s: State, t: State, e: BusEvent, called: set<Id>)
    requires PromiseInv(s, called) && Settles(s, t, e)
    requires Opened(t.emitted) == Opened(s.emitted) && e.id !in Elements(Responded(s.bus))
    ensures PromiseInv(t, called)
  {
    hide Minus, Elements, Opened, Asked, Notices, Requested, Answered, Responded, Distinct, AllDue, Promised;
    BusSnoc(s.bus, e);
  }

  lemma {:induction false} SettleKeepsInv(s: State, t: State, e: BusEvent, called: set<Id>, aborted: set<Id>)
    requires Inv(s, called, aborted) && Settles(s, t, e)
    ensures Inv(t, called, aborted)
  {
    SettleHistory(s, t, e, aborted);
    SettlePromise(s, t, e, called);
  }

  lemma {:induction false} AnswerSettles(s: State, id: Id, approved: Option<seq<ToolId>>, a: Answer)
    requires id in s.permissions.at
    ensures var t := AnswerPermission(s, id, approved, a).state;
            t.bus != [] && Settles(s, t, Last(t.bus))
  {
    hide Minus, Elements, Opened, Asked, Notices, Requested;
    var t := AnswerPermission(s, id, approved, a).state;
    assert t.bus == s.bus + [Last(t.bus)];
  }

  lemma {:induction false} FailSettles(s: State, id: Id, f: Failure)
    requires id in s.permissions.at
    ensures var t := FailPermission(s, id, f).state;
            t.bus != [] && Settles(s, t, Last(t.bus))
  {
    hide Minus, Elements, Opened, Asked, Notices, Requested;
    var t := FailPermission(s, id, f).state;
    assert t.bus == s.bus + [Last(t.bus)];
  }

  lemma {:induction false} AnswerKeepsInv(s: State, id: Id, approved: Option<seq<ToolId>>, a: Answer, called: set<Id>, aborted: set<Id>)
    requires Inv(s, called, aborted)
    ensures Inv(AnswerPermission(s, id, approved, a).state, called, aborted)
  {
    if id in s.permissions.at {
      AnswerSettles(s, id, approved, a);
      var t := AnswerPermission(s, id, approved, a).state;
      SettleKeepsInv(s, t, Last(t.bus), called, aborted);
    }
  }

  lemma {:induction false} FailKeepsInv(s: State, id: Id, f: Failure, called: set<Id>, aborted: set<Id>)
    requires Inv(s, called, aborted)
    ensures Inv(FailPermission(s, id, f).state, called, aborted)
  {
    if id in s.permissions.at {
      FailSettles(s, id, f);
      var t := FailPermission(s, id, f).state;
      SettleKeepsInv(s, t, Last(t.bus), called, aborted);
    }
  }

  // The loop of rejectAllPendingPermissions leaves the table alone until its end. In the proof the table
  // shrinks with every round.

  lemma {:induction false} RejectSettles(s: State, table: InsertionMap<Id, Permission>, id: Id)
    requires id in table.at && id in s.permissions.at && table.at[id] == s.permissions.at[id]
    ensures var t := RejectPermission(s, id);
            && t.permissions == s.permissions && t.questions == s.questions && t.bus != []
            && Settles(s.(permissions := table), t.(permissions := table.Delete(id)), Last(t.bus))
  {
    hide Minus, Elements, Opened, Asked, Notices, Requested;
    var t := RejectPermission(s, id);
    assert t.bus == s.bus + [Last(t.bus)];
  }

  lemma {:induction false} DropHead<V>(table: InsertionMap<Id, V>)
    requires table.Valid() && table.order != []
    ensures var id := table.order[0];
            id in table.at && table.Delete(id).order == table.order[1..]
  {
    var id, rest := table.order[0], table.order[1..];
    assert table.order == [id] + rest;
    assert [] + [id] == [id];
    Snoc([], id, {id});
    DistinctSum([id], rest);
    ElementsOfSum([id], rest);
    MinusOfSum([id], rest, {id});
    MinusNothing(rest, {id});
  }

  /** Rejecting the rest of the requests, where table is what is left of them. */
  lemma {:induction false} RejectRestKeepsInv(s: State, table: InsertionMap<Id, Permission>, called: set<Id>, aborted: set<Id>)
    requires Inv(s.(permissions := table), called, aborted) && table.Valid()
    requires forall id :: id in table.at ==> id in s.permissions.at && table.at[id] == s.permissions.at[id]
    ensures var t := RejectEach(s, table.order);
            t.permissions == s.permissions && Inv(t.(permissions := EmptyMap()), called, aborted)
    decreases |table.order|
  {
    if table.order == [] {
      assert table == EmptyMap();
    } else {
      var id := table.order[0];
      DropHead(table);
      RejectSettles(s, table, id);
      var t := RejectPermission(s, id);
      SettleKeepsInv(s.(permissions := table), t.(permissions := table.Delete(id)), Last(t.bus), called, aborted);
      RejectRestKeepsInv(t, table.Delete(id), called, aborted);
      RejectHead(s, table.order);
    }
  }

  lemma {:induction false} RejectHead(s: State, ids: seq<Id>)
    requires ids != []
    ensures RejectEach(s, ids) == RejectEach(RejectPermission(s, ids[0]), ids[1..])
  {
    if |ids| > 1 {
      RejectHead(s, Front(ids));
      assert Front(ids)[1..] == Front(ids[1..]);
    } else {
      assert Front(ids) == [];
    }
  }

  lemma {:induction false} LedgerValid<V>(table: InsertionMap<Id, V>, begun: seq<Id>, gone: set<Id>)
    requires Ledger(table, begun, gone)
    ensures table.Valid()
  {
    MinusElements(begun, gone);
  }

  lemma {:induction false} RejectAllKeepsInv(s: State, called: set<Id>, aborted: set<Id>)
    requires Inv(s, called, aborted)
    ensures Inv(RejectAllPermissions(s), called, aborted)
  {
    LedgerValid(s.permissions, Opened(s.emitted), Elements(Responded(s.bus)));
    RejectRestKeepsInv(s, s.permissions, called, aborted);
  }

  // ----- questions

  lemma {:induction false} AskKeepsInv(s: State, id: Id, q: Question, called: set<Id>, aborted: set<Id>)
    requires Inv(s, called, aborted)
    requires id !in Elements(Opened(s.emitted)) && id !in Elements(Asked(s.emitted))
    ensures Inv(OpenQuestion(s, id, q), called, aborted)
  {
    var t, line := OpenQuestion(s, id, q), AskUser(id, q.toolCallId, q.topics);
    OpenKeepsPromises(s, t, line, false, called);
    OpenKeepsPermissions(s, t, Permission("", []), line, false);
    OpenKeepsQuestions(s, t, q, line, false, aborted);
  }

  /** t is s after one question has left the table with its answer. */
  ghost predicate Replies(s: State, t: State, e: BusEvent) {
    && e.AskUserResponse? && e.id in s.questions.at
    && t == s.(bus := s.bus + [e], questions := s.questions.Delete(e.id), working := t.working)
  }

  lemma {:induction false} ReplyKeepsPermissions(s: State, t: State, e: BusEvent, called: set<Id>)
    requires PermissionInv(s) && ToolsInv(s) && PromiseInv(s, called) && Replies(s, t, e)
    ensures PermissionInv(t) && ToolsInv(t) && PromiseInv(t, called)
  {
    hide Minus, Elements, Opened, Asked, Notices, Requested, Answered, Responded, Distinct, AllDue, Promised, Ledger;
    BusSnoc(s.bus, e);
  }

  lemma {:induction false} ReplyKeepsQuestions(s: State, t: State, e: BusEvent, aborted: set<Id>)
    requires QuestionInv(s, aborted) && Replies(s, t, e)
    ensures QuestionInv(t, aborted)
  {
    hide Minus, Elements, Opened, Asked, Notices, Requested, Answered, Responded, Distinct, AllDue, Promised, Ledger;
    var answered := Elements(Answered(s.bus));
    BusSnoc(s.bus, e);
    LedgerCloses(s.questions, Asked(s.emitted), answered + aborted, e.id);
    assert answered + aborted + {e.id} == answered + {e.id} + aborted;
  }

  /** One question leaves the table with its answer. */
  lemma {:induction false} ReplyKeepsInv(s: State, t: State, e: BusEvent, called: set<Id>, aborted: set<Id>)
    requires Inv(s, called, aborted) && Replies(s, t, e)
    ensures Inv(t, called, aborted)
  {
    hide PermissionInv, ToolsInv, PromiseInv, QuestionInv;
    ReplyKeepsPermissions(s, t, e, called);
    ReplyKeepsQuestions(s, t, e, aborted);
  }

  lemma {:induction false} QuestionStepKeepsInv(s: State, id: Id, result: AskUserResult, f: Failure, called: set<Id>, aborted: set<Id>)
    requires Inv(s, called, aborted)
    ensures Inv(AnswerQuestion(s, id, result).state, called, aborted)
    ensures Inv(FailQuestion(s, id, f).state, called, aborted)
    ensures Inv(RejectQuestion(s, id), called, aborted)
  {
    if id in s.questions.at {
      var session := s.questions.at[id].sessionId;
      ReplyKeepsInv(s, AnswerQuestion(s, id, result).state, AskUserResponse(id, result, session, None), called, aborted);
      ReplyKeepsInv(s, FailQuestion(s, id, f).state, AskUserResponse(id, NO_ANSWER, session, Some(f)), called, aborted);
      ReplyKeepsInv(s, RejectQuestion(s, id), AskUserResponse(id, NO_ANSWER, session, None), called, aborted);
    }
  }

  lemma {:induction false} RejectQuestionsKeepsInv(s: State, ids: seq<Id>, called: set<Id>, aborted: set<Id>)
    requires Inv(s, called, aborted)
    ensures Inv(RejectEachQuestion(s, ids), called, aborted)
  {
    if ids != [] {
      RejectQuestionsKeepsInv(s, Front(ids), called, aborted);
      QuestionStepKeepsInv(RejectEachQuestion(s, Front(ids)), Last(ids), NO_ANSWER, INVALID_ASK_USER, called, aborted);
    }
  }

  lemma {:induction false} AbortKeepsInv(s: State, id: Id, called: set<Id>, aborted: set<Id>)
    requires Inv(s, called, aborted) && id in s.questions.at
    ensures Inv(s.(questions := s.questions.Delete(id)), called, aborted + {id})
  {
    LedgerCloses(s.questions, Asked(s.emitted), Elements(Answered(s.bus)) + aborted, id);
    assert Elements(Answered(s.bus)) + aborted + {id} == Elements(Answered(s.bus)) + (aborted + {id});
  }

  /** The failure tryHandleToolingResponse reports when it does not find a valid result. */
  function FailureFor(s: State, r: Response, id: Id): Failure {
    if r.error.Some? then Failure(Daemon, Some(r.error.value.code), r.error.value.message)
    else if r.result.None? then MISSING_PAYLOAD
    else if id in s.permissions.at then INVALID_PERMISSION
    else INVALID_ASK_USER
  }

  /** A response is one of the four handlers, or nothing. */
  lemma {:induction false} TryHandleIs(s: State, r: Response)
    ensures var a := if r.result.Some? then r.result.value else Payload(None, None);
            var good := r.error.None? && r.result.Some?;
            TryHandle(s, r) ==
              if r.id.None? then Step(s, false)
              else if r.id.value in s.permissions.at then
                if good && a.asPermission.Some? then AnswerPermission(s, r.id.value, None, a.asPermission.value)
                else FailPermission(s, r.id.value, FailureFor(s, r, r.id.value))
              else if r.id.value in s.questions.at then
                if good && a.asAskUser.Some? then AnswerQuestion(s, r.id.value, a.asAskUser.value)
                else FailQuestion(s, r.id.value, FailureFor(s, r, r.id.value))
              else Step(s, false)
  {}

  lemma {:induction false} TryHandleKeepsInv(s: State, r: Response, called: set<Id>, aborted: set<Id>)
    requires Inv(s, called, aborted)
    ensures Inv(TryHandle(s, r).state, called, aborted)
  {
    TryHandleIs(s, r);
    if r.id.Some? {
      var id := r.id.value;
      var a := if r.result.Some? then r.result.value else Payload(None, None);
      var f := FailureFor(s, r, id);
      FailKeepsInv(s, id, f, called, aborted);
      if a.asPermission.Some? { AnswerKeepsInv(s, id, None, a.asPermission.value, called, aborted); }
      QuestionStepKeepsInv(s, id, if a.asAskUser.Some? then a.asAskUser.value else NO_ANSWER, f, called, aborted);
    }
  }

  // ----- runs

  /** Request ids are fresh: no request is opened under an id that was used before. */
  predicate FreshRun(pipe: nat, es: seq<Event>) {
    es != [] ==>
      && FreshRun(pipe, Front(es))
      && (Last(es).PermissionOpens? || Last(es).QuestionOpens? ==>
            var s := Run(pipe, Front(es));
            Last(es).id !in Elements(Opened(s.emitted)) && Last(es).id !in Elements(Asked(s.emitted)))
  }

  function Called(es: seq<Event>): set<Id> {
    if es == [] then {}
    else if Last(es).PermissionOpens? && Last(es).called then Called(Front(es)) + {Last(es).id}
    else Called(Front(es))
  }

  /** The questions that another listener of the bus took off the table before the client answered. */
  function Aborted(pipe: nat, es: seq<Event>): set<Id> {
    if es == [] then {}
    else if Last(es).QuestionAborted? && Last(es).id in Run(pipe, Front(es)).questions.at
    then Aborted(pipe, Front(es)) + {Last(es).id}
    else Aborted(pipe, Front(es))
  }

  lemma {:induction false} QuestionEventKeepsInv(s: State, e: Event, called: set<Id>, aborted: set<Id>)
    requires Inv(s, called, aborted)
    requires e.QuestionOpens? ==> e.id !in Elements(Opened(s.emitted)) && e.id !in Elements(Asked(s.emitted))
    requires e.QuestionOpens? || e.QuestionAnswered? || e.QuestionFails? || e.QuestionsRejected?
    ensures Inv(Next(s, e), called, aborted)
  {
    hide Inv, OpenQuestion, AnswerQuestion, FailQuestion, RejectQuestion, RejectEachQuestion;
    match e
    case QuestionOpens(id, q) => AskKeepsInv(s, id, q, called, aborted);
    case QuestionAnswered(id, result) => QuestionStepKeepsInv(s, id, result, INVALID_ASK_USER, called, aborted);
    case QuestionFails(id, f) => QuestionStepKeepsInv(s, id, NO_ANSWER, f, called, aborted);
    case QuestionsRejected => RejectQuestionsKeepsInv(s, s.questions.order, called, aborted);
  }

  lemma {:induction false} EventKeepsInv(s: State, e: Event, called: set<Id>, aborted: set<Id>)
    requires Inv(s, called, aborted)
    requires e.PermissionOpens? || e.QuestionOpens? ==>
               e.id !in Elements(Opened(s.emitted)) && e.id !in Elements(Asked(s.emitted))
    ensures Inv(Next(s, e), if e.PermissionOpens? && e.called then called + {e.id} else called,
                if e.QuestionAborted? && e.id in s.questions.at then aborted + {e.id} else aborted)
  {
    match e
    case PermissionOpens(id, p, byCall) => OpenKeepsInv(s, id, p, byCall, called, aborted);
    case PermissionAnswered(id, approved, a) => AnswerKeepsInv(s, id, approved, a, called, aborted);
    case PermissionFails(id, f) => FailKeepsInv(s, id, f, called, aborted);
    case PermissionsRejected => RejectAllKeepsInv(s, called, aborted);
    case QuestionAborted(id) => if id in s.questions.at { AbortKeepsInv(s, id, called, aborted); }
    case Responds(r) => TryHandleKeepsInv(s, r, called, aborted);
    case PipeBreaks =>
    case _ => QuestionEventKeepsInv(s, e, called, aborted);
  }

  lemma {:induction false} RunInv(pipe: nat, es: seq<Event>)
    requires FreshRun(pipe, es)
    ensures Inv(Run(pipe, es), Called(es), Aborted(pipe, es))
  {
    if es != [] {
      RunInv(pipe, Front(es));
      EventKeepsInv(Run(pipe, Front(es)), Last(es), Called(Front(es)), Aborted(pipe, Front(es)));
    }
  }

  // ----- main results

  /** The restore list of a session: the requests nobody has resolved, in the order they were opened. */
  lemma {:induction false} OpenedSplitsIntoPendingAndResolved(pipe: nat, es: seq<Event>)
    requires FreshRun(pipe, es)
    ensures var s := Run(pipe, es);
            && s.permissions.order == Minus(Opened(s.emitted), Elements(Responded(s.bus)))
            && Elements(Opened(s.emitted)) == s.permissions.at.Keys + Elements(Responded(s.bus))
            && s.permissions.at.Keys !! Elements(Responded(s.bus))
  {
    RunInv(pipe, es);
  }

  /** A request gets one PermissionResponse when it has left the table, and none before. */
  lemma {:induction false} OneResponseEach(pipe: nat, es: seq<Event>, id: Id)
    requires FreshRun(pipe, es)
    ensures var s := Run(pipe, es);
            Count(Responded(s.bus), id) == if id in Elements(Opened(s.emitted)) && id !in s.permissions.at then 1 else 0
  {
    RunInv(pipe, es);
    DistinctCount(Responded(Run(pipe, es).bus), id);
  }

  /**
   * The PERMISSION_RESOLVED notifications are those due for the responses, in the same order with the same
   * tools and choice: one each, and none for a conflict.
   */
  lemma {:induction false} NoticesMirrorResponses(pipe: nat, es: seq<Event>)
    requires FreshRun(pipe, es)
    ensures Notices(Run(pipe, es).emitted) == AllDue(Run(pipe, es).bus)
  {
    RunInv(pipe, es);
  }

  /** A direct call is still listening while its request is pending, and afterwards holds that one response. */
  lemma {:induction false} CallsSettleWithTheirRequest(pipe: nat, es: seq<Event>, id: Id)
    requires FreshRun(pipe, es) && id in Called(es)
    ensures var s := Run(pipe, es);
            && (id in s.listening <==> id in s.permissions.at)
            && (id in s.promises <==> id !in s.permissions.at)
            && (id in s.promises ==> id in Promised(s.bus) && s.promises[id] == Promised(s.bus)[id])
  {
    RunInv(pipe, es);
  }

  /** A question is pending, answered once, or taken away by an abort; never two of these. */
  lemma {:induction false} QuestionsSplit(pipe: nat, es: seq<Event>, id: Id)
    requires FreshRun(pipe, es)
    ensures var s := Run(pipe, es);
            var aborted := id in Aborted(pipe, es);
            && Count(Answered(s.bus), id) ==
                 (if id in Elements(Asked(s.emitted)) && id !in s.questions.at && !aborted then 1 else 0)
            && (aborted ==> id !in s.questions.at)
            && s.questions.order == Minus(Asked(s.emitted), Elements(Answered(s.bus)) + Aborted(pipe, es))
  {
    RunInv(pipe, es);
    DistinctCount(Answered(Run(pipe, es).bus), id);
  }

  /** A broken pipe loses the end of the output and nothing else. */
  lemma {:induction false} PipeLosesOnlyTheEnd(pipe: nat, es: seq<Event>)
    requires FreshRun(pipe, es)
    ensures var s := Run(pipe, es);
            s.stdout <= s.emitted && (!s.disconnected ==> s.stdout == s.emitted)
  {
    RunInv(pipe, es);
  }

  lemma {:induction false} TryHandleEffect(s: State, r: Response)
    requires s.permissions.at.Keys !! s.questions.at.Keys
    ensures var Step(t, handled) := TryHandle(s, r);
            && handled == (r.id.Some? && (r.id.value in s.permissions.at || r.id.value in s.questions.at))
            && (!handled ==> t == s)
            && (handled ==>
                  && t.permissions == s.permissions.Delete(r.id.value)
                  && t.questions == s.questions.Delete(r.id.value)
                  && |t.bus| == |s.bus| + 1 && t.bus[..|s.bus|] == s.bus && Last(t.bus).id == r.id.value)
  {
    hide Minus, Elements, Opened, Asked;
    TryHandleIs(s, r);
  }

  /**
   * A response of any shape settles the pending request it names and no other; a response that names none
   * changes nothing.
   */
  lemma {:induction false} TryHandleIsTotal(pipe: nat, es: seq<Event>, r: Response)
    requires FreshRun(pipe, es)
    ensures var s := Run(pipe, es);
            var Step(t, handled) := TryHandle(s, r);
            && handled == (r.id.Some? && (r.id.value in s.permissions.at || r.id.value in s.questions.at))
            && (!handled ==> t == s)
            && (handled ==>
                  && t.permissions == s.permissions.Delete(r.id.value)
                  && t.questions == s.questions.Delete(r.id.value)
                  && |t.bus| == |s.bus| + 1 && t.bus[..|s.bus|] == s.bus && Last(t.bus).id == r.id.value)
  {
    RunInv(pipe, es);
    TryHandleEffect(Run(pipe, es), r);
  }

  predicate Agrees(r: Response) {
    && r.error.None? && r.result.Some? && r.result.value.asPermission.Some?
    && r.result.value.asPermission.value.outcome != Cancel
  }

  lemma {:induction false} TryHandleApproval(s: State, r: Response)
    requires r.id.Some? && r.id.value in s.permissions.at
    ensures var bus := TryHandle(s, r).state.bus;
            && bus != [] && Last(bus).PermissionResponse?
            && Last(bus).approved == (if Agrees(r) then s.permissions.at[r.id.value].toolIds else [])
            && (Last(bus).failure.Some? ==> !Agrees(r))
  {
    hide Minus, Elements, Opened, Asked;
    TryHandleIs(s, r);
  }

  /**
   * On that path all tools of the request are approved, in order, exactly when the client sent a valid
   * answer other than cancel; in every other case none is.
   */
  lemma {:induction false} TryHandleApprovesAllOrNone(pipe: nat, es: seq<Event>, r: Response)
    requires FreshRun(pipe, es)
    requires r.id.Some? && r.id.value in Run(pipe, es).permissions.at
    ensures var s := Run(pipe, es);
            var bus := TryHandle(s, r).state.bus;
            && r.id.value in Requested(s.emitted)
            && bus != [] && Last(bus).PermissionResponse?
            && Last(bus).approved == (if Agrees(r) then Requested(s.emitted)[r.id.value] else [])
            && (Last(bus).failure.Some? ==> !Agrees(r))
  {
    RunInv(pipe, es);
    TryHandleApproval(Run(pipe, es), r);
  }
}
