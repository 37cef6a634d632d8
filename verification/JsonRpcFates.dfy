/** Each request is settled as if it were the only one: what becomes of it depends on the events that name it. */
module JsonRpcFates {
  import opened Collections
  import opened InsertionMaps
  import opened ConfirmationOutcomes
  import opened JsonRpcRequests
  import opened JsonRpcProperties

  // ----- one request by itself

  datatype Told = Told(approved: seq<ToolId>, answer: Answer, failure: Option<Failure>)

  datatype Fate =
    | Unknown
    | Open(permission: Permission, called: bool)
    | Closed(permission: Permission, called: bool, told: Told)
    | Asked(question: Question)
    | Replied(question: Question, result: AskUserResult, failure: Option<Failure>)
    | Aborted(question: Question)

  /** An answer that does not cancel approves the tools it names, or all of the request. */
  function Approval(p: Permission, approved: Option<seq<ToolId>>, a: Answer): Told {
    Told(if a.outcome == Cancel then [] else if approved.Some? then approved.value else p.toolIds, a, None)
  }

  function Denial(failure: Option<Failure>): Told { Told([], Answer(Cancel, None, None), failure) }

  function Protocol(message: string): Failure { Failure(Source.Protocol, None, message) }

  /** What a client's response says about a permission request. */
  function ReplyToPermission(p: Permission, r: Response): Told {
    if r.error.Some? then Denial(Some(Failure(Daemon, Some(r.error.value.code), r.error.value.message)))
    else if r.result.None? then Denial(Some(Protocol("Missing response payload for pending tool request")))
    else if r.result.value.asPermission.None? then Denial(Some(Protocol("Invalid permission response format")))
    else Approval(p, None, r.result.value.asPermission.value)
  }

  function Unanswered(q: Question, failure: Option<Failure>): Fate {
    Replied(q, AskUserResult(true, []), failure)
  }

  /** What a client's response says about a question. */
  function ReplyToQuestion(q: Question, r: Response): Fate {
    if r.error.Some? then Unanswered(q, Some(Failure(Daemon, Some(r.error.value.code), r.error.value.message)))
    else if r.result.None? then Unanswered(q, Some(Protocol("Missing response payload for pending tool request")))
    else if r.result.value.asAskUser.None? then Unanswered(q, Some(Protocol("Invalid ask-user response format")))
    else Replied(q, r.result.value.asAskUser.value, None)
  }

  function PermissionStep(f: Fate, e: Event, id: Id): Fate
    requires f.Open?
  {
    match e
    case PermissionAnswered(x, approved, a) =>
      if x == id then Closed(f.permission, f.called, Approval(f.permission, approved, a)) else f
    case PermissionFails(x, failure) => if x == id then Closed(f.permission, f.called, Denial(Some(failure))) else f
    case PermissionsRejected => Closed(f.permission, f.called, Denial(None))
    case Responds(r) =>
      if r.id == Some(id) then Closed(f.permission, f.called, ReplyToPermission(f.permission, r)) else f
    case _ => f
  }

  function QuestionStep(f: Fate, e: Event, id: Id): Fate
    requires f.Asked?
  {
    match e
    case QuestionAnswered(x, result) => if x == id then Replied(f.question, result, None) else f
    case QuestionFails(x, failure) => if x == id then Unanswered(f.question, Some(failure)) else f
    case QuestionsRejected => Unanswered(f.question, None)
    case QuestionAborted(x) => if x == id then Aborted(f.question) else f
    case Responds(r) => if r.id == Some(id) then ReplyToQuestion(f.question, r) else f
    case _ => f
  }

  function FateStep(f: Fate, e: Event, id: Id): Fate {
    match f
    case Unknown =>
      if e.PermissionOpens? && e.id == id then Open(e.permission, e.called)
      else if e.QuestionOpens? && e.id == id then Asked(e.question)
      else Unknown
    case Open(_, _) => PermissionStep(f, e, id)
    case Asked(_) => QuestionStep(f, e, id)
    case _ => f
  }

  function FateOf(es: seq<Event>, id: Id): Fate {
    if es == [] then Unknown else FateStep(FateOf(Front(es), id), Last(es), id)
  }

  // ----- what the run shows of one id

  function BusOf(bus: seq<BusEvent>, id: Id): seq<BusEvent> {
    if bus == [] then []
    else if Last(bus).id == id then BusOf(Front(bus), id) + [Last(bus)]
    else BusOf(Front(bus), id)
  }

  function LinesOf(lines: seq<Line>, id: Id): seq<Line> {
    if lines == [] then []
    else if Last(lines).id == id then LinesOf(Front(lines), id) + [Last(lines)]
    else LinesOf(Front(lines), id)
  }

  predicate InConflict(told: Told) { told.failure.Some? && told.failure.value.code == Some(-32006) }

  function BusDue(f: Fate, id: Id): seq<BusEvent> {
    match f
    case Closed(p, _, told) => [PermissionResponse(id, told.approved, told.answer, p.sessionId, told.failure)]
    case Replied(q, result, failure) => [AskUserResponse(id, result, q.sessionId, failure)]
    case _ => []
  }

  function LinesDue(f: Fate, id: Id): seq<Line> {
    match f
    case Unknown => []
    case Open(p, _) => [RequestPermission(id, p.toolIds)]
    case Closed(p, _, told) =>
      [RequestPermission(id, p.toolIds)]
      + if InConflict(told) then [] else [PermissionResolved(id, told.approved, told.answer.outcome)]
    case _ => [AskUser(id, f.question.toolCallId, f.question.topics)]
  }

  function PromiseDue(told: Told): Promise {
    if told.failure.Some? then Rejected(told.failure.value) else Resolved(told.approved, told.answer)
  }

  ghost predicate Shows(s: State, f: Fate, id: Id) {
    && s.permissions.Get(id) == (if f.Open? then Some(f.permission) else None)
    && s.questions.Get(id) == (if f.Asked? then Some(f.question) else None)
    && (id in s.listening <==> f.Open? && f.called)
    && (id in s.promises <==> f.Closed? && f.called)
    && (id in s.promises ==> s.promises[id] == PromiseDue(f.told))
    && BusOf(s.bus, id) == BusDue(f, id)
    && LinesOf(s.emitted, id) == LinesDue(f, id)
  }

  lemma {:induction false} OneMore(bus: seq<BusEvent>, e: BusEvent, lines: seq<Line>, line: Line, id: Id)
    ensures BusOf(bus + [e], id) == if e.id == id then BusOf(bus, id) + [e] else BusOf(bus, id)
    ensures LinesOf(lines + [line], id) == if line.id == id then LinesOf(lines, id) + [line] else LinesOf(lines, id)
  {
    assert Front(bus + [e]) == bus && Front(lines + [line]) == lines;
  }

  lemma {:induction false} WriteIs(s: State, line: Line)
    ensures var t := Write(s, line);
            && t.emitted == s.emitted + [line]
            && t == s.(emitted := t.emitted, disconnected := t.disconnected, pipe := t.pipe, stdout := t.stdout)
  {}

  // ----- the steps

  lemma {:induction false} OpenShows(s: State, f: Fate, e: Event, id: Id)
    requires Shows(s, f, id) && (e.PermissionOpens? || e.QuestionOpens?)
    requires e.id == id ==> f.Unknown?
    ensures Shows(Next(s, e), FateStep(f, e, id), id)
  {
    hide BusOf, LinesOf, Write;
    var line := if e.PermissionOpens? then RequestPermission(e.id, e.permission.toolIds)
                else AskUser(e.id, e.question.toolCallId, e.question.topics);
    WriteIs(s.(working := WaitingForToolConfirmation), line);
    OneMore(s.bus, AskUserResponse(e.id, NO_ANSWER, "", None), s.emitted, line, id);
  }

  /** One request leaves the table with what it was told; the others stay as they are. */
  lemma {:induction false} SettledShows(s: State, t: State, f: Fate, x: Id, told: Told, id: Id)
    requires Shows(s, f, id) && x in s.permissions.at
    requires Settles(s, t, PermissionResponse(x, told.approved, told.answer, s.permissions.at[x].sessionId, told.failure))
    ensures Shows(t, if x == id && f.Open? then Closed(f.permission, f.called, told) else f, id)
  {
    hide BusOf, LinesOf, PipeInv;
    var e := PermissionResponse(x, told.approved, told.answer, s.permissions.at[x].sessionId, told.failure);
    OneMore(s.bus, e, s.emitted, Notice(e), id);
  }

  lemma {:induction false} AnswerShows(s: State, f: Fate, x: Id, approved: Option<seq<ToolId>>, a: Answer, id: Id)
    requires Shows(s, f, id)
    ensures Shows(AnswerPermission(s, x, approved, a).state, FateStep(f, PermissionAnswered(x, approved, a), id), id)
  {
    hide BusOf, LinesOf;
    if x in s.permissions.at {
      var t := AnswerPermission(s, x, approved, a).state;
      var told := Approval(s.permissions.at[x], approved, a);
      AnswerSettles(s, x, approved, a);
      assert Last(t.bus) == PermissionResponse(x, told.approved, told.answer, s.permissions.at[x].sessionId, None);
      SettledShows(s, t, f, x, told, id);
    }
  }

  lemma {:induction false} FailShows(s: State, f: Fate, x: Id, failure: Failure, id: Id)
    requires Shows(s, f, id)
    ensures Shows(FailPermission(s, x, failure).state, FateStep(f, PermissionFails(x, failure), id), id)
  {
    hide BusOf, LinesOf;
    if x in s.permissions.at {
      var t := FailPermission(s, x, failure).state;
      FailSettles(s, x, failure);
      assert Last(t.bus) ==
             PermissionResponse(x, [], Answer(Cancel, None, None), s.permissions.at[x].sessionId, Some(failure));
      SettledShows(s, t, f, x, Denial(Some(failure)), id);
    }
  }

  /** The rest of the requests, where table is what is left of them. */
  lemma {:induction false} RejectRestShows(s: State, table: InsertionMap<Id, Permission>, f: Fate, id: Id)
    requires Shows(s.(permissions := table), f, id) && table.Valid()
    requires forall x :: x in table.at ==> x in s.permissions.at && table.at[x] == s.permissions.at[x]
    ensures var t := RejectEach(s, table.order);
            Shows(t.(permissions := EmptyMap()), FateStep(f, PermissionsRejected, id), id)
    decreases |table.order|
  {
    hide BusOf, LinesOf, RejectEach, Settles;
    if table.order == [] {
      NothingLeft(s, table, f, id);
    } else {
      var x := table.order[0];
      DropHead(table);
      RejectSettles(s, table, x);
      var t := RejectPermission(s, x);
      RejectedEvent(s, x);
      SettledShows(s.(permissions := table), t.(permissions := table.Delete(x)), f, x, Denial(None), id);
      var g := if x == id && f.Open? then Closed(f.permission, f.called, Denial(None)) else f;
      RejectRestShows(t, table.Delete(x), g, id);
      RejectHead(s, table.order);
    }
  }

  lemma {:induction false} NothingLeft(s: State, table: InsertionMap<Id, Permission>, f: Fate, id: Id)
    requires Shows(s.(permissions := table), f, id) && table.Valid() && table.order == []
    ensures RejectEach(s, table.order) == s && FateStep(f, PermissionsRejected, id) == f
    ensures Shows(s.(permissions := EmptyMap()), f, id)
  {
    hide BusOf, LinesOf;
    assert table == EmptyMap();
  }

  lemma {:induction false} RejectedEvent(s: State, x: Id)
    requires x in s.permissions.at
    ensures var t := RejectPermission(s, x);
            t.bus == s.bus + [PermissionResponse(x, [], Answer(Cancel, None, None), s.permissions.at[x].sessionId, None)]
  {}

  /** t is s after a question has left the table with its reply. */
  lemma {:induction false} RepliedShows(s: State, t: State, f: Fate, e: BusEvent, id: Id)
    requires Shows(s, f, id) && Replies(s, t, e)
    ensures Shows(t, if e.id == id && f.Asked? then Replied(f.question, e.result, e.failure) else f, id)
    requires e.sessionId == s.questions.at[e.id].sessionId
  {
    hide BusOf, LinesOf;
    OneMore(s.bus, e, s.emitted, AskUser(e.id, "", []), id);
  }

  lemma {:induction false} QuestionShows(s: State, f: Fate, e: Event, id: Id)
    requires Shows(s, f, id) && (e.QuestionAnswered? || e.QuestionFails? || e.QuestionAborted?)
    ensures Shows(Next(s, e), FateStep(f, e, id), id)
  {
    hide BusOf, LinesOf;
    if e.id in s.questions.at {
      var session := s.questions.at[e.id].sessionId;
      match e
      case QuestionAnswered(x, result) => RepliedShows(s, Next(s, e), f, AskUserResponse(x, result, session, None), id);
      case QuestionFails(x, failure) =>
        RepliedShows(s, Next(s, e), f, AskUserResponse(x, AskUserResult(true, []), session, Some(failure)), id);
      case QuestionAborted(x) =>
    }
  }

  lemma {:induction false} RejectQuestionsShows(s: State, ids: seq<Id>, f: Fate, id: Id)
    requires Shows(s, f, id)
    ensures Shows(RejectEachQuestion(s, ids), if id in Elements(ids) then FateStep(f, QuestionsRejected, id) else f, id)
  {
    hide BusOf, LinesOf, Shows;
    if ids != [] {
      var t, x := RejectEachQuestion(s, Front(ids)), Last(ids);
      var g := if id in Elements(Front(ids)) then FateStep(f, QuestionsRejected, id) else f;
      RejectQuestionsShows(s, Front(ids), f, id);
      if x in t.questions.at {
        RepliedShows(t, RejectQuestion(t, x), g,
                     AskUserResponse(x, AskUserResult(true, []), t.questions.at[x].sessionId, None), id);
      } else {
        assert x == id ==> !g.Asked? by { NotAsked(t, g, id); }
      }
    }
  }

  lemma {:induction false} NotAsked(s: State, f: Fate, id: Id)
    requires Shows(s, f, id)
    ensures f.Asked? <==> id in s.questions.at
    ensures f.Open? <==> id in s.permissions.at
  {}

  lemma {:induction false} RespondShows(s: State, f: Fate, r: Response, id: Id)
    requires Shows(s, f, id)
    requires r.id.Some? ==> r.id.value !in s.permissions.at || r.id.value !in s.questions.at
    ensures Shows(TryHandle(s, r).state, FateStep(f, Responds(r), id), id)
  {
    hide BusOf, LinesOf, Shows, AnswerPermission, FailPermission, AnswerQuestion, FailQuestion;
    NotAsked(s, f, id);
    if r.id.Some? {
      var x := r.id.value;
      var failure := if r.error.Some? then Failure(Daemon, Some(r.error.value.code), r.error.value.message)
                     else if r.result.None? then Protocol("Missing response payload for pending tool request")
                     else if x in s.permissions.at then Protocol("Invalid permission response format")
                     else Protocol("Invalid ask-user response format");
      FailShows(s, f, x, failure, id);
      QuestionShows(s, f, QuestionFails(x, failure), id);
      if r.result.Some? && r.result.value.asPermission.Some? {
        AnswerShows(s, f, x, None, r.result.value.asPermission.value, id);
      }
      if r.result.Some? && r.result.value.asAskUser.Some? {
        QuestionShows(s, f, QuestionAnswered(x, r.result.value.asAskUser.value), id);
      }
    }
  }

  // ----- runs

  /** An id whose fate is known was opened or asked. */
  lemma {:induction false} KnownWasOpened(lines: seq<Line>, id: Id)
    requires exists line :: line in LinesOf(lines, id) && (line.RequestPermission? || line.AskUser?)
    ensures id in Elements(Opened(lines)) || id in Elements(JsonRpcRequests.Asked(lines))
  {
    if Last(lines).id == id && !Last(lines).PermissionResolved? {
      assert lines == Front(lines) + [Last(lines)];
      LinesSnoc(Front(lines), Last(lines));
    } else {
      var line :| line in LinesOf(lines, id) && (line.RequestPermission? || line.AskUser?);
      assert line in LinesOf(Front(lines), id);
      KnownWasOpened(Front(lines), id);
      assert lines == Front(lines) + [Last(lines)];
      LinesSnoc(Front(lines), Last(lines));
    }
  }

  lemma {:induction false} FreshIsUnknown(s: State, f: Fate, id: Id)
    requires Shows(s, f, id)
    requires id !in Elements(Opened(s.emitted)) && id !in Elements(JsonRpcRequests.Asked(s.emitted))
    ensures f.Unknown?
  {
    hide LinesOf, BusOf, Opened, Elements, JsonRpcRequests.Asked;
    if !f.Unknown? {
      assert LinesDue(f, id)[0] in LinesOf(s.emitted, id);
      KnownWasOpened(s.emitted, id);
    }
  }

  lemma {:induction false} TablesApart(s: State, called: set<Id>, aborted: set<Id>)
    requires Inv(s, called, aborted)
    ensures s.permissions.Valid() && s.questions.Valid() && s.permissions.at.Keys !! s.questions.at.Keys
  {
    LedgerValid(s.permissions, Opened(s.emitted), Elements(Responded(s.bus)));
    LedgerValid(s.questions, JsonRpcRequests.Asked(s.emitted), Elements(Answered(s.bus)) + aborted);
  }

  lemma {:induction false} StepShows(s: State, f: Fate, e: Event, id: Id)
    requires Shows(s, f, id)
    requires s.permissions.Valid() && s.questions.Valid() && s.permissions.at.Keys !! s.questions.at.Keys
    requires (e.PermissionOpens? || e.QuestionOpens?) && e.id == id ==> f.Unknown?
    ensures Shows(Next(s, e), FateStep(f, e, id), id)
  {
    hide AnswerPermission, FailPermission, OpenPermission, RejectEach, RejectEachQuestion, TryHandle, BusOf, LinesOf;
    match e
    case PermissionAnswered(x, approved, a) => AnswerShows(s, f, x, approved, a, id);
    case PermissionFails(x, failure) => FailShows(s, f, x, failure, id);
    case PermissionsRejected => RejectRestShows(s, s.permissions, f, id);
    case QuestionsRejected =>
      RejectQuestionsShows(s, s.questions.order, f, id);
      NotAsked(s, f, id);
    case Responds(r) => RespondShows(s, f, r, id);
    case PipeBreaks =>
    case PermissionOpens(_, _, _) => OpenShows(s, f, e, id);
    case QuestionOpens(_, _) => OpenShows(s, f, e, id);
    case _ => QuestionShows(s, f, e, id);
  }

  /**
   * In every run the tables, the promises, the bus and the output show of each id exactly what the events that
   * name it, and the two that reject everything, make of it: whatever happens to other requests in between.
   */
  lemma {:induction false} EachRequestByItself(pipe: nat, es: seq<Event>, id: Id)
    requires FreshRun(pipe, es)
    ensures Shows(Run(pipe, es), FateOf(es, id), id)
  {
    if es != [] {
      hide Shows, Inv, Next, FateStep, Opened, JsonRpcRequests.Asked, Elements;
      var s, f := Run(pipe, Front(es)), FateOf(Front(es), id);
      EachRequestByItself(pipe, Front(es), id);
      RunInv(pipe, Front(es));
      TablesApart(s, Called(Front(es)), JsonRpcProperties.Aborted(pipe, Front(es)));
      if (Last(es).PermissionOpens? || Last(es).QuestionOpens?) && Last(es).id == id {
        FreshIsUnknown(s, f, id);
      }
      StepShows(s, f, Last(es), id);
    }
  }

  /** A caller of requestPermission gets what its request was told: a failure rejects the promise, the rest resolves it. */
  lemma {:induction false} CallersAreTold(pipe: nat, es: seq<Event>, id: Id)
    requires FreshRun(pipe, es) && FateOf(es, id).Closed?
    ensures var s, f := Run(pipe, es), FateOf(es, id);
            && (id in s.promises <==> f.called)
            && (f.called && f.told.failure.Some? ==> s.promises[id] == Rejected(f.told.failure.value))
            && (f.called && f.told.failure.None? ==> s.promises[id] == Resolved(f.told.approved, f.told.answer))
  {
    EachRequestByItself(pipe, es, id);
  }

  /** A handler says that it handled a response exactly when the request it names is still open, and else changes nothing. */
  lemma {:induction false} HandledExactlyWhenOpen(pipe: nat, es: seq<Event>, id: Id, approved: Option<seq<ToolId>>,
                                                  a: Answer, failure: Failure, result: AskUserResult)
    requires FreshRun(pipe, es)
    ensures var s, f := Run(pipe, es), FateOf(es, id);
            && (AnswerPermission(s, id, approved, a).handled <==> f.Open?)
            && (FailPermission(s, id, failure).handled <==> f.Open?)
            && (AnswerQuestion(s, id, result).handled <==> f.Asked?)
            && (FailQuestion(s, id, failure).handled <==> f.Asked?)
            && (!f.Open? ==> AnswerPermission(s, id, approved, a).state == s == FailPermission(s, id, failure).state)
            && (!f.Asked? ==> AnswerQuestion(s, id, result).state == s == FailQuestion(s, id, failure).state)
  {
    hide Shows, Run, FateOf;
    EachRequestByItself(pipe, es, id);
    NotAsked(Run(pipe, es), FateOf(es, id), id);
  }

  /**
   * A failure of a pending request is passed on: the response on the bus carries it and approves nothing, a
   * listening caller is rejected with it, and the client is told exactly when it is not a conflict.
   */
  lemma {:induction false} FailuresArePassedOn(pipe: nat, es: seq<Event>, id: Id, e: Event, failure: Failure)
    requires FreshRun(pipe, es) && id in Run(pipe, es).permissions.at
    requires FailsWith(e, id, failure)
    ensures var s, t := Run(pipe, es), Run(pipe, es + [e]);
            && t.bus == s.bus + [Last(t.bus)] && Last(t.bus).PermissionResponse? && Last(t.bus).id == id
            && Last(t.bus).failure == Some(failure) && Last(t.bus).approved == []
            && (id in s.listening ==> id in t.promises && t.promises[id] == Rejected(failure))
            && t.emitted == s.emitted
                 + if failure.code == Some(-32006) then [] else [PermissionResolved(id, [], Cancel)]
  {
    hide Shows, AnswerPermission;
    var s := Run(pipe, es);
    assert Front(es + [e]) == es;
    FailIs(s, id, failure);
    if e.Responds? {
      RunInv(pipe, es);
      TryHandleIs(s, e.response);
    }
  }

  /** The ways in which a request fails, with what it fails with: reported so, or a response that carries no valid answer. */
  predicate FailsWith(e: Event, id: Id, failure: Failure) {
    match e
    case PermissionFails(x, f) => x == id && f == failure
    case Responds(r) =>
      r.id == Some(id) &&
      if r.error.Some? then failure == Failure(Daemon, Some(r.error.value.code), r.error.value.message)
      else if r.result.None? then failure == Protocol("Missing response payload for pending tool request")
      else r.result.value.asPermission.None? && failure == Protocol("Invalid permission response format")
    case _ => false
  }

  lemma {:induction false} FailIs(s: State, id: Id, failure: Failure)
    requires id in s.permissions.at
    ensures var t := FailPermission(s, id, failure).state;
            && t.bus == s.bus + [Last(t.bus)] && Last(t.bus).PermissionResponse? && Last(t.bus).id == id
            && Last(t.bus).failure == Some(failure) && Last(t.bus).approved == []
            && (id in s.listening ==> id in t.promises && t.promises[id] == Rejected(failure))
            && t.emitted == s.emitted
                 + if failure.code == Some(-32006) then [] else [PermissionResolved(id, [], Cancel)]
  {}

  // ----- the working state

  function WorkingAfterReply(before: WorkingState, f: Fate, r: Response): WorkingState {
    match f
    case Open(p, _) =>
      if ReplyToPermission(p, r).answer.outcome == Cancel then StreamingAssistantMessage else ExecutingTool
    case Asked(_) => StreamingAssistantMessage
    case _ => before
  }

  /** Which state an event leaves the session in, by what the events before it have left open. */
  ghost function WorkingAfter(es: seq<Event>): WorkingState {
    if es == [] then Idle
    else
      var before := WorkingAfter(Front(es));
      match Last(es)
      case PermissionOpens(_, _, _) => WaitingForToolConfirmation
      case QuestionOpens(_, _) => WaitingForToolConfirmation
      case PermissionsRejected => if exists x :: FateOf(Front(es), x).Open? then Idle else before
      case PermissionAnswered(x, _, a) =>
        if !FateOf(Front(es), x).Open? then before
        else if a.outcome == Cancel then StreamingAssistantMessage else ExecutingTool
      case PermissionFails(x, _) => if FateOf(Front(es), x).Open? then StreamingAssistantMessage else before
      case QuestionAnswered(x, _) => if FateOf(Front(es), x).Asked? then StreamingAssistantMessage else before
      case QuestionFails(x, _) => if FateOf(Front(es), x).Asked? then StreamingAssistantMessage else before
      case Responds(r) =>
        if r.id.None? then before else WorkingAfterReply(before, FateOf(Front(es), r.id.value), r)
      case _ => before
  }

  lemma {:induction false} RejectingKeepsWorking(s: State, ids: seq<Id>)
    ensures RejectEach(s, ids).working == s.working && RejectEachQuestion(s, ids).working == s.working
  {
    if ids != [] {
      RejectingKeepsWorking(s, Front(ids));
    }
  }

  lemma {:induction false} SomethingPending(s: State, es: seq<Event>)
    requires s.permissions.Valid() && forall x :: FateOf(es, x).Open? <==> x in s.permissions.at
    ensures s.permissions.order != [] <==> exists x :: FateOf(es, x).Open?
  {
    hide FateOf;
    if s.permissions.order != [] {
      var x := s.permissions.order[0];
      ElementsAre(s.permissions.order, x);
      assert x in s.permissions.at.Keys && FateOf(es, x).Open?;
    }
    if exists x :: FateOf(es, x).Open? {
      var x :| FateOf(es, x).Open?;
      ElementsAre(s.permissions.order, x);
    }
  }

  /** What the handlers do to the working state, by what the tables hold. */
  lemma {:induction false} HandlersSetWorking(s: State, x: Id, approved: Option<seq<ToolId>>, a: Answer, failure: Failure,
                                              result: AskUserResult)
    ensures AnswerPermission(s, x, approved, a).state.working ==
            if x !in s.permissions.at then s.working
            else if a.outcome == Cancel then StreamingAssistantMessage else ExecutingTool
    ensures FailPermission(s, x, failure).state.working ==
            if x in s.permissions.at then StreamingAssistantMessage else s.working
    ensures AnswerQuestion(s, x, result).state.working ==
            if x in s.questions.at then StreamingAssistantMessage else s.working
    ensures FailQuestion(s, x, failure).state.working ==
            if x in s.questions.at then StreamingAssistantMessage else s.working
  {}

  lemma {:induction false} ReplySetsWorking(s: State, f: Fate, r: Response)
    requires r.id.Some? && Shows(s, f, r.id.value)
    ensures TryHandle(s, r).state.working == WorkingAfterReply(s.working, f, r)
  {
    hide Shows, AnswerPermission, FailPermission, AnswerQuestion, FailQuestion;
    var x := r.id.value;
    NotAsked(s, f, x);
    TryHandleIs(s, r);
    var payload := if r.result.Some? then r.result.value else Payload(None, None);
    HandlersSetWorking(s, x, None, if payload.asPermission.Some? then payload.asPermission.value else CANCELLED,
                       FailureFor(s, r, x), if payload.asAskUser.Some? then payload.asAskUser.value else NO_ANSWER);
  }

  lemma {:induction false} OpeningWaits(s: State, id: Id, p: Permission, called: bool, q: Question)
    ensures OpenPermission(s, id, p, called).working == WaitingForToolConfirmation
    ensures OpenQuestion(s, id, q).working == WaitingForToolConfirmation
  {}

  lemma {:induction false} WorkingStep(s: State, e: Event, es: seq<Event>)
    requires es != [] && e == Last(es) && s.permissions.Valid() && s.working == WorkingAfter(Front(es))
    requires forall x :: FateOf(Front(es), x).Open? <==> x in s.permissions.at
    requires forall x :: FateOf(Front(es), x).Asked? <==> x in s.questions.at
    requires e.Responds? && e.response.id.Some? ==> Shows(s, FateOf(Front(es), e.response.id.value), e.response.id.value)
    ensures Next(s, e).working == WorkingAfter(es)
  {
    hide Shows, FateOf, RejectEach, RejectEachQuestion, AnswerPermission, FailPermission, AnswerQuestion, FailQuestion,
      OpenPermission, OpenQuestion, TryHandle;
    match e
    case PermissionOpens(x, p, called) => OpeningWaits(s, x, p, called, Question("", "", []));
    case QuestionOpens(x, q) => OpeningWaits(s, x, Permission("", []), false, q);
    case PermissionsRejected =>
      RejectingKeepsWorking(s, s.permissions.order);
      SomethingPending(s, Front(es));
    case QuestionsRejected => RejectingKeepsWorking(s, s.questions.order);
    case PermissionAnswered(x, approved, a) => HandlersSetWorking(s, x, approved, a, MISSING_PAYLOAD, NO_ANSWER);
    case PermissionFails(x, f) => HandlersSetWorking(s, x, None, CANCELLED, f, NO_ANSWER);
    case QuestionAnswered(x, result) => HandlersSetWorking(s, x, None, CANCELLED, MISSING_PAYLOAD, result);
    case QuestionFails(x, f) => HandlersSetWorking(s, x, None, CANCELLED, f, NO_ANSWER);
    case Responds(r) =>
      if r.id.Some? {
        ReplySetsWorking(s, FateOf(Front(es), r.id.value), r);
      } else {
        TryHandleIs(s, r);
      }
    case _ =>
  }

  /** Waiting while something opens, executing after an approval, streaming after any other end, idle after rejecting. */
  lemma {:induction false} WorkingStateFollows(pipe: nat, es: seq<Event>)
    requires FreshRun(pipe, es)
    ensures Run(pipe, es).working == WorkingAfter(es)
  {
    if es != [] {
      hide Shows, Inv, Opened, JsonRpcRequests.Asked, Elements, FateOf, Next, WorkingAfter, Called,
        JsonRpcProperties.Aborted;
      var s, e := Run(pipe, Front(es)), Last(es);
      WorkingStateFollows(pipe, Front(es));
      RunInv(pipe, Front(es));
      TablesApart(s, Called(Front(es)), JsonRpcProperties.Aborted(pipe, Front(es)));
      forall x
        ensures Shows(s, FateOf(Front(es), x), x)
        ensures FateOf(Front(es), x).Open? <==> x in s.permissions.at
        ensures FateOf(Front(es), x).Asked? <==> x in s.questions.at
      {
        EachRequestByItself(pipe, Front(es), x);
        NotAsked(s, FateOf(Front(es), x), x);
      }
      WorkingStep(s, e, es);
    } else {
      StartsIdle(pipe);
    }
  }

  lemma {:induction false} StartsIdle(pipe: nat)
    ensures Run(pipe, []).working == WorkingAfter([])
  {}

  // ----- the pipe

  /** How many lines had been emitted when the pipe was first reported broken. */
  function BrokenAt(pipe: nat, es: seq<Event>): Option<nat> {
    if es == [] then None
    else if BrokenAt(pipe, Front(es)).None? && Last(es).PipeBreaks? then Some(|Run(pipe, Front(es)).emitted|)
    else BrokenAt(pipe, Front(es))
  }

  function Least(a: nat, b: nat): nat { if a <= b then a else b }

  ghost predicate PipeIs(s: State, pipe: nat, broken: Option<nat>) {
    var limit := if broken.Some? then Least(pipe, broken.value) else pipe;
    && s.stdout == s.emitted[..Least(limit, |s.emitted|)]
    && (s.disconnected <==> broken.Some? || |s.emitted| > pipe)
    && (!s.disconnected ==> s.pipe == pipe - |s.emitted|)
    && (broken.Some? ==> broken.value <= |s.emitted|)
  }

  lemma {:induction false} WritePipe(s: State, line: Line, pipe: nat, broken: Option<nat>)
    requires PipeIs(s, pipe, broken)
    ensures PipeIs(Write(s, line), pipe, broken)
  {}

  /** Nothing but the output differs in what the pipe depends on. */
  lemma {:induction false} SamePipe(s: State, t: State, pipe: nat, broken: Option<nat>)
    requires PipeIs(s, pipe, broken)
    requires t.emitted == s.emitted && t.stdout == s.stdout && t.disconnected == s.disconnected && t.pipe == s.pipe
    ensures PipeIs(t, pipe, broken)
  {}

  lemma {:induction false} RejectPipe(s: State, ids: seq<Id>, pipe: nat, broken: Option<nat>)
    requires PipeIs(s, pipe, broken)
    ensures PipeIs(RejectEach(s, ids), pipe, broken) && PipeIs(RejectEachQuestion(s, ids), pipe, broken)
  {
    hide PipeIs, Write;
    if ids != [] {
      var x := Last(ids);
      RejectPipe(s, Front(ids), pipe, broken);
      var t, u := RejectEach(s, Front(ids)), RejectEachQuestion(s, Front(ids));
      if x in t.permissions.at {
        var v := EmitPermission(t, PermissionResponse(x, [], CANCELLED, t.permissions.at[x].sessionId, None));
        SamePipe(t, v, pipe, broken);
        WritePipe(v, PermissionResolved(x, [], Cancel), pipe, broken);
      }
      SamePipe(u, RejectQuestion(u, x), pipe, broken);
    }
  }

  lemma {:induction false} AnswerPipe(s: State, x: Id, approved: Option<seq<ToolId>>, a: Answer, pipe: nat,
                                      broken: Option<nat>)
    requires PipeIs(s, pipe, broken)
    ensures PipeIs(AnswerPermission(s, x, approved, a).state, pipe, broken)
  {
    hide PipeIs;
    if x in s.permissions.at {
      var told := Approval(s.permissions.at[x], approved, a);
      var t := AnswerPermission(s, x, approved, a).state;
      var u := EmitPermission(s.(permissions := t.permissions, working := t.working), Last(t.bus));
      SamePipe(s, u, pipe, broken);
      WritePipe(u, PermissionResolved(x, told.approved, a.outcome), pipe, broken);
    }
  }

  lemma {:induction false} FailPipe(s: State, x: Id, failure: Failure, pipe: nat, broken: Option<nat>)
    requires PipeIs(s, pipe, broken)
    ensures PipeIs(FailPermission(s, x, failure).state, pipe, broken)
    ensures PipeIs(FailQuestion(s, x, failure).state, pipe, broken)
  {
    hide PipeIs;
    if x in s.permissions.at {
      var t := FailPermission(s, x, failure).state;
      var u := EmitPermission(s.(permissions := t.permissions, working := t.working), Last(t.bus));
      SamePipe(s, u, pipe, broken);
      WritePipe(u, PermissionResolved(x, [], Cancel), pipe, broken);
    }
    SamePipe(s, FailQuestion(s, x, failure).state, pipe, broken);
  }

  lemma {:induction false} PipeStep(s: State, e: Event, pipe: nat, broken: Option<nat>)
    requires PipeIs(s, pipe, broken)
    ensures PipeIs(Next(s, e), pipe, if broken.None? && e.PipeBreaks? then Some(|s.emitted|) else broken)
  {
    hide RejectEach, RejectEachQuestion, AnswerPermission, FailPermission, FailQuestion;
    match e
    case PermissionOpens(id, p, _) =>
      WritePipe(s.(working := WaitingForToolConfirmation), RequestPermission(id, p.toolIds), pipe, broken);
    case QuestionOpens(id, q) =>
      WritePipe(s.(working := WaitingForToolConfirmation), AskUser(id, q.toolCallId, q.topics), pipe, broken);
    case PermissionAnswered(x, approved, a) => AnswerPipe(s, x, approved, a, pipe, broken);
    case PermissionFails(x, f) => FailPipe(s, x, f, pipe, broken);
    case QuestionFails(x, f) => FailPipe(s, x, f, pipe, broken);
    case PermissionsRejected => RejectPipe(s, s.permissions.order, pipe, broken);
    case QuestionsRejected => RejectPipe(s, s.questions.order, pipe, broken);
    case Responds(r) =>
      TryHandleIs(s, r);
      if r.id.Some? {
        var a := if r.result.Some? && r.result.value.asPermission.Some? then r.result.value.asPermission.value
                 else CANCELLED;
        AnswerPipe(s, r.id.value, None, a, pipe, broken);
        FailPipe(s, r.id.value, FailureFor(s, r, r.id.value), pipe, broken);
      }
    case _ =>
  }

  lemma {:induction false} RunPipe(pipe: nat, es: seq<Event>)
    ensures PipeIs(Run(pipe, es), pipe, BrokenAt(pipe, es))
  {
    if es != [] {
      hide PipeIs, Next;
      RunPipe(pipe, Front(es));
      PipeStep(Run(pipe, Front(es)), Last(es), pipe, BrokenAt(pipe, Front(es)));
    }
  }

  /**
   * The parent gets the first lines of the output and no others: as many as its end of the pipe took, or as
   * had been emitted when the pipe was first reported broken. The latch is set exactly once there is more.
   */
  lemma {:induction false} PipeTakesExactly(pipe: nat, es: seq<Event>)
    ensures var s, broken := Run(pipe, es), BrokenAt(pipe, es);
            var limit := if broken.Some? then Least(pipe, broken.value) else pipe;
            && s.stdout == s.emitted[..Least(limit, |s.emitted|)]
            && (s.disconnected <==> broken.Some? || |s.emitted| > pipe)
  {
    hide Run, BrokenAt;
    RunPipe(pipe, es);
  }
}
