/**
 * Permission and ask-user round trips of the JSON-RPC adapter as a transition system: the two tables of
 * pending requests, the promises of direct calls, the event bus and the pipe to the parent process.
 * Failures and responses have the shapes of section 5 of the JSON-RPC 2.0 specification.
 */
module JsonRpcRequests {
  import opened Collections
  import opened InsertionMaps
  import opened ConfirmationOutcomes

  /** Opaque text, compared only for equality. */
  datatype Id = Id(text: string)
  datatype ToolId = ToolId(text: string)

  const CONFLICT := -32006

  datatype Source = Daemon | Protocol

  datatype Failure = Failure(source: Source, code: Option<int>, message: string)

  datatype Permission = Permission(sessionId: string, toolIds: seq<ToolId>)

  datatype Question = Question(sessionId: string, toolCallId: string, topics: seq<string>)

  datatype AskUserResult = AskUserResult(cancelled: bool, answers: seq<string>)

  datatype Answer = Answer(outcome: Outcome, comment: Option<string>, editedSpec: Option<string>)

  datatype BusEvent =
    | PermissionResponse(id: Id, approved: seq<ToolId>, answer: Answer, sessionId: string, failure: Option<Failure>)
    | AskUserResponse(id: Id, result: AskUserResult, sessionId: string, failure: Option<Failure>)

  datatype Line =
    | RequestPermission(id: Id, toolIds: seq<ToolId>)
    | AskUser(id: Id, toolCallId: string, topics: seq<string>)
    | PermissionResolved(id: Id, toolIds: seq<ToolId>, selected: Outcome)

  datatype Promise =
    | Resolved(approved: seq<ToolId>, answer: Answer)
    | Rejected(failure: Failure)

  datatype WorkingState = Idle | StreamingAssistantMessage | WaitingForToolConfirmation | ExecutingTool

  /** pipe is how many more writes the parent's end of stdout will take before it breaks. */
  datatype State = State(
    permissions: InsertionMap<Id, Permission>,
    questions: InsertionMap<Id, Question>,
    listening: set<Id>,
    promises: map<Id, Promise>,
    disconnected: bool,
    pipe: nat,
    working: WorkingState,
    bus: seq<BusEvent>,
    emitted: seq<Line>,
    stdout: seq<Line>)

  function Initial(pipe: nat): State {
    State(EmptyMap(), EmptyMap(), {}, map[], false, pipe, Idle, [], [], [])
  }

  datatype Step = Step(state: State, handled: bool)

  // ----- emitting

  function Write(s: State, line: Line): State {
    var t := s.(emitted := s.emitted + [line]);
    if t.disconnected then t
    else if t.pipe == 0 then t.(disconnected := true)
    else t.(pipe := t.pipe - 1, stdout := t.stdout + [line])
  }

  function PromiseOf(e: BusEvent): Promise
    requires e.PermissionResponse?
  {
    if e.failure.Some? then Rejected(e.failure.value) else Resolved(e.approved, e.answer)
  }

  /** The listener of a direct call takes its own response and goes. */
  function EmitPermission(s: State, e: BusEvent): State
    requires e.PermissionResponse?
  {
    var t := s.(bus := s.bus + [e]);
    if e.id in t.listening then t.(listening := t.listening - {e.id}, promises := t.promises[e.id := PromiseOf(e)])
    else t
  }

  /** The adapter listens to this event itself and drops the entry. */
  function EmitAskUser(s: State, e: BusEvent): State {
    s.(bus := s.bus + [e], questions := s.questions.Delete(e.id))
  }

  // ----- permissions

  function OpenPermission(s: State, id: Id, p: Permission, called: bool): State {
    var t := Write(s.(working := WaitingForToolConfirmation), RequestPermission(id, p.toolIds));
    t.(permissions := t.permissions.Set(id, p), listening := if called then t.listening + {id} else t.listening)
  }

  function AnswerPermission(s: State, id: Id, approved: Option<seq<ToolId>>, a: Answer): Step {
    if id !in s.permissions.at then Step(s, false)
    else
      var p := s.permissions.at[id];
      var cancelled := a.outcome == Cancel;
      var tools := if cancelled then [] else if approved.Some? then approved.value else p.toolIds;
      var t := s.(permissions := s.permissions.Delete(id),
                  working := if cancelled then StreamingAssistantMessage else ExecutingTool);
      var u := EmitPermission(t, PermissionResponse(id, tools, a, p.sessionId, None));
      Step(Write(u, PermissionResolved(id, tools, a.outcome)), true)
  }

  const CANCELLED := Answer(Cancel, None, None)

  predicate IsConflict(f: Failure) { f.code == Some(CONFLICT) }

  function FailPermission(s: State, id: Id, f: Failure): Step {
    if id !in s.permissions.at then Step(s, false)
    else
      var t := s.(permissions := s.permissions.Delete(id), working := StreamingAssistantMessage);
      var u := EmitPermission(t, PermissionResponse(id, [], CANCELLED, s.permissions.at[id].sessionId, Some(f)));
      Step(if IsConflict(f) then u else Write(u, PermissionResolved(id, [], Cancel)), true)
  }

  function RejectPermission(s: State, id: Id): State {
    if id !in s.permissions.at then s
    else
      var u := EmitPermission(s, PermissionResponse(id, [], CANCELLED, s.permissions.at[id].sessionId, None));
      Write(u, PermissionResolved(id, [], Cancel))
  }

  function RejectEach(s: State, ids: seq<Id>): State {
    if ids == [] then s else RejectPermission(RejectEach(s, Front(ids)), Last(ids))
  }

  function RejectAllPermissions(s: State): State {
    var t := RejectEach(s, s.permissions.order);
    t.(permissions := EmptyMap(), working := if s.permissions.order != [] then Idle else t.working)
  }

  // ----- questions

  function OpenQuestion(s: State, id: Id, q: Question): State {
    var t := Write(s.(working := WaitingForToolConfirmation), AskUser(id, q.toolCallId, q.topics));
    t.(questions := t.questions.Set(id, q))
  }

  function AnswerQuestion(s: State, id: Id, result: AskUserResult): Step {
    if id !in s.questions.at then Step(s, false)
    else
      var t := s.(questions := s.questions.Delete(id), working := StreamingAssistantMessage);
      Step(EmitAskUser(t, AskUserResponse(id, result, s.questions.at[id].sessionId, None)), true)
  }

  const NO_ANSWER := AskUserResult(true, [])

  function FailQuestion(s: State, id: Id, f: Failure): Step {
    if id !in s.questions.at then Step(s, false)
    else
      var t := s.(questions := s.questions.Delete(id), working := StreamingAssistantMessage);
      Step(EmitAskUser(t, AskUserResponse(id, NO_ANSWER, s.questions.at[id].sessionId, Some(f))), true)
  }

  function RejectQuestion(s: State, id: Id): State {
    if id !in s.questions.at then s
    else EmitAskUser(s, AskUserResponse(id, NO_ANSWER, s.questions.at[id].sessionId, None))
  }

  function RejectEachQuestion(s: State, ids: seq<Id>): State {
    if ids == [] then s else RejectQuestion(RejectEachQuestion(s, Front(ids)), Last(ids))
  }

  // ----- responses from the client

  /** asPermission and asAskUser are what the two result schemas make of the payload. */
  datatype Payload = Payload(asPermission: Option<Answer>, asAskUser: Option<AskUserResult>)

  datatype ErrorObject = ErrorObject(code: int, message: string)

  /** A missing id is null on the wire; a falsy result counts as none. */
  datatype Response = Response(id: Option<Id>, error: Option<ErrorObject>, result: Option<Payload>)

  const INVALID_PERMISSION := Failure(Protocol, None, "Invalid permission response format")
  const INVALID_ASK_USER := Failure(Protocol, None, "Invalid ask-user response format")
  const MISSING_PAYLOAD := Failure(Protocol, None, "Missing response payload for pending tool request")

  function TryHandle(s: State, r: Response): Step {
    if r.id.None? then Step(s, false)
    else
      var id := r.id.value;
      if id !in s.permissions.at && id !in s.questions.at then Step(s, false)
      else if r.error.Some? then
        var f := Failure(Daemon, Some(r.error.value.code), r.error.value.message);
        if id in s.permissions.at then FailPermission(s, id, f) else FailQuestion(s, id, f)
      else if r.result.Some? then
        if id in s.permissions.at then
          if r.result.value.asPermission.Some?
          then AnswerPermission(s, id, None, r.result.value.asPermission.value)
          else FailPermission(s, id, INVALID_PERMISSION)
        else if r.result.value.asAskUser.Some? then AnswerQuestion(s, id, r.result.value.asAskUser.value)
        else FailQuestion(s, id, INVALID_ASK_USER)
      else if id in s.permissions.at then FailPermission(s, id, MISSING_PAYLOAD)
      else FailQuestion(s, id, MISSING_PAYLOAD)
  }

  // ----- runs

  datatype Event =
    | PermissionOpens(id: Id, permission: Permission, called: bool)
    | PermissionAnswered(id: Id, approved: Option<seq<ToolId>>, answer: Answer)
    | PermissionFails(id: Id, failure: Failure)
    | PermissionsRejected
    | QuestionOpens(id: Id, question: Question)
    | QuestionAnswered(id: Id, result: AskUserResult)
    | QuestionFails(id: Id, failure: Failure)
    | QuestionsRejected
    | QuestionAborted(id: Id)
    | Responds(response: Response)
    | PipeBreaks

  function Next(s: State, e: Event): State {
    match e
    case PermissionOpens(id, p, called) => OpenPermission(s, id, p, called)
    case PermissionAnswered(id, approved, a) => AnswerPermission(s, id, approved, a).state
    case PermissionFails(id, f) => FailPermission(s, id, f).state
    case PermissionsRejected => RejectAllPermissions(s)
    case QuestionOpens(id, q) => OpenQuestion(s, id, q)
    case QuestionAnswered(id, result) => AnswerQuestion(s, id, result).state
    case QuestionFails(id, f) => FailQuestion(s, id, f).state
    case QuestionsRejected => RejectEachQuestion(s, s.questions.order)
    case QuestionAborted(id) => s.(questions := s.questions.Delete(id))
    case Responds(r) => TryHandle(s, r).state
    case PipeBreaks => s.(disconnected := true)
  }

  function Run(pipe: nat, es: seq<Event>): State {
    if es == [] then Initial(pipe) else Next(Run(pipe, Front(es)), Last(es))
  }

  // ----- what the run shows

  /** The permission requests emitted so far, in order. */
  function Opened(lines: seq<Line>): seq<Id> {
    if lines == [] then []
    else if Last(lines).RequestPermission? then Opened(Front(lines)) + [Last(lines).id]
    else Opened(Front(lines))
  }

  function Asked(lines: seq<Line>): seq<Id> {
    if lines == [] then []
    else if Last(lines).AskUser? then Asked(Front(lines)) + [Last(lines).id]
    else Asked(Front(lines))
  }

  /** The PERMISSION_RESOLVED notifications emitted so far, in order. */
  function Notices(lines: seq<Line>): seq<Line> {
    if lines == [] then []
    else if Last(lines).PermissionResolved? then Notices(Front(lines)) + [Last(lines)]
    else Notices(Front(lines))
  }

  /** The tools each permission request on the output asked for. */
  function Requested(lines: seq<Line>): map<Id, seq<ToolId>> {
    if lines == [] then map[]
    else if Last(lines).RequestPermission? then Requested(Front(lines))[Last(lines).id := Last(lines).toolIds]
    else Requested(Front(lines))
  }

  /** The ids of the PermissionResponse events on the bus, in order. */
  function Responded(bus: seq<BusEvent>): seq<Id> {
    if bus == [] then []
    else if Last(bus).PermissionResponse? then Responded(Front(bus)) + [Last(bus).id]
    else Responded(Front(bus))
  }

  function Answered(bus: seq<BusEvent>): seq<Id> {
    if bus == [] then []
    else if Last(bus).AskUserResponse? then Answered(Front(bus)) + [Last(bus).id]
    else Answered(Front(bus))
  }

  /** What a caller of requestPermission should be told about each request answered on the bus. */
  function Promised(bus: seq<BusEvent>): map<Id, Promise> {
    if bus == [] then map[]
    else if Last(bus).PermissionResponse? then Promised(Front(bus))[Last(bus).id := PromiseOf(Last(bus))]
    else Promised(Front(bus))
  }

  /** Whether a PermissionResponse is announced: not when its failure was a conflict. */
  predicate Announced(e: BusEvent) {
    e.PermissionResponse? && !(e.failure.Some? && IsConflict(e.failure.value))
  }

  function Notice(e: BusEvent): Line
    requires e.PermissionResponse?
  {
    PermissionResolved(e.id, e.approved, e.answer.outcome)
  }

  function AllDue(bus: seq<BusEvent>): seq<Line> {
    if bus == [] then []
    else if Announced(Last(bus)) then AllDue(Front(bus)) + [Notice(Last(bus))]
    else AllDue(Front(bus))
  }
}
