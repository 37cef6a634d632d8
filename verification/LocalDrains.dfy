/**
 * The three local message queues of the app and their drains as a transition system. The refs of the
 * React component are fields, an effect is one observation of the session's status, and every call of
 * processAndRun is suspended until its `then` and later its `finally` run.
 */
module LocalDrains {
  import opened Collections
  import opened QueuedMessages

  datatype Verdict = Accepted | Rejected | Threw

  datatype Timer = NoTimer | PausedTimer | DeferredTimer

  /** How a message left its drain: handed to the agent, or skipped because it was empty. */
  datatype Done = Done(message: Message, accepted: bool)

  /** What happened to the auto-drain of paused messages, and which statuses the effect observed. */
  datatype Mark = Took(message: Message) | TurnAccepted | SeenBusy | SeenSettled

  /**
   * inFlight, awaiting, sawBusy and armed are the refs of the paused auto-drain, draining is that of the
   * deferred one. The calls are messages whose processAndRun has not answered, the finals are answered
   * calls whose `finally` is still to run. batch is what the manual-compaction drain has left, its head
   * on the way. known, withdrawn, done and log are the history.
   */
  datatype State = State(
    queue: seq<Message>,
    armed: bool, inFlight: bool, awaiting: bool, sawBusy: bool,
    draining: bool,
    reviewActive: bool,
    timer: Timer,
    pausedCalls: seq<Message>, pausedFinals: nat,
    deferredCalls: seq<Message>, deferredFinals: nat,
    batch: seq<Message>,
    known: seq<Message>, withdrawn: set<nat>, done: seq<Done>, log: seq<Mark>)

  const INITIAL := State([], false, false, false, false, false, false, NoTimer, [], 0, [], 0, [], [], {}, [], [])

  predicate Has(q: seq<Message>, k: Kind) { FirstOf(q, k) < |q| }

  // ----- the steps

  function Enqueue(s: State, m: Message): State {
    if m.requestId in Ids(s.known) then s
    else s.(queue := s.queue + [m], known := s.known + [m])
  }

  /** The user pulls, deletes or clears a message. */
  function Withdraw(s: State, id: nat): State {
    if id in Ids(s.queue) then s.(queue := Drop(s.queue, {id}), withdrawn := s.withdrawn + {id}) else s
  }

  function Marks(idle: bool, cancelling: bool): seq<Mark> {
    if !idle then [SeenBusy] else if !cancelling then [SeenSettled] else []
  }

  function EndWait(s: State, idle: bool, cancelling: bool): State {
    if s.awaiting && !idle then s.(sawBusy := true)
    else if s.awaiting && s.sawBusy && !cancelling then s.(awaiting := false, sawBusy := false)
    else s
  }

  function Disarm(s: State): State {
    if !Has(s.queue, LocalPausedAfterEsc) && !s.awaiting then s.(armed := false) else s
  }

  /** The effect that ends the wait for a turn. */
  function Observe(s: State, idle: bool, cancelling: bool): State {
    var t := Disarm(EndWait(s, idle, cancelling));
    t.(log := t.log + Marks(idle, cancelling))
  }

  predicate ShouldAutoDrain(s: State, idle: bool, cancelling: bool, draft: bool) {
    && s.armed && idle && !cancelling
    && !Has(s.queue, LocalDeferredAfterEsc) && Has(s.queue, LocalPausedAfterEsc)
    && !draft && !s.reviewActive && !s.inFlight && !s.awaiting
  }

  /** The effect that sets the drain timer; its cleanup has cleared the previous one. */
  function Schedule(s: State, idle: bool, cancelling: bool, draft: bool): State {
    if ShouldAutoDrain(s, idle, cancelling, draft) then s.(timer := PausedTimer)
    else if idle && !cancelling && Has(s.queue, LocalDeferredAfterEsc) && !draft && !s.draining
    then s.(timer := DeferredTimer)
    else s.(timer := NoTimer)
  }

  /** A dequeued paused message: put back for review, skipped, or sent. */
  function SendPaused(s: State, m: Message): State {
    if m.files > 0 then s.(queue := RestoreToFront(s.queue, [m]), armed := false, reviewActive := true)
    else if m.blank && m.images == 0
    then s.(done := s.done + [Done(m, false)], armed := Has(s.queue, LocalPausedAfterEsc))
    else s.(inFlight := true, pausedCalls := s.pausedCalls + [m])
  }

  function DrainPaused(s: State): State {
    var i := FirstOf(s.queue, LocalPausedAfterEsc);
    if s.inFlight || s.awaiting then s
    else if i == |s.queue| then s.(armed := false)
    else
      var m := s.queue[i];
      SendPaused(s.(queue := Without(s.queue, i), log := s.log + [Took(m)]), m)
  }

  /** A dequeued deferred message: skipped or sent. */
  function SendDeferred(s: State, m: Message): State {
    if IsEmpty(m) then s.(done := s.done + [Done(m, false)])
    else s.(draining := true, deferredCalls := s.deferredCalls + [m])
  }

  function DrainDeferred(s: State): State {
    var i := FirstOf(s.queue, LocalDeferredAfterEsc);
    if i == |s.queue| then s else SendDeferred(s.(queue := Without(s.queue, i)), s.queue[i])
  }

  function FireTimer(s: State): State {
    var t := s.(timer := NoTimer);
    match s.timer
    case NoTimer => s
    case PausedTimer => DrainPaused(t)
    case DeferredTimer => DrainDeferred(t)
  }

  function PausedAccepted(s: State): State
    requires s.pausedCalls != []
  {
    s.(pausedCalls := s.pausedCalls[1..], pausedFinals := s.pausedFinals + 1,
       done := s.done + [Done(s.pausedCalls[0], true)], awaiting := true, sawBusy := false,
       armed := Has(s.queue, LocalPausedAfterEsc), log := s.log + [TurnAccepted])
  }

  function PausedThen(s: State, v: Verdict): State {
    if s.pausedCalls == [] then s
    else if v == Accepted then PausedAccepted(s)
    else
      s.(pausedCalls := s.pausedCalls[1..], pausedFinals := s.pausedFinals + 1,
         queue := RestoreToFront(s.queue, [s.pausedCalls[0]]), armed := false)
  }

  function PausedFinally(s: State): State {
    if s.pausedFinals == 0 then s else s.(pausedFinals := s.pausedFinals - 1, inFlight := false)
  }

  function DeferredThen(s: State, v: Verdict): State {
    if s.deferredCalls == [] then s
    else
      var m := s.deferredCalls[0];
      var t := s.(deferredCalls := s.deferredCalls[1..], deferredFinals := s.deferredFinals + 1);
      if v == Accepted then t.(done := t.done + [Done(m, true)])
      else t.(queue := RestoreToFront(t.queue, [m]))
  }

  function DeferredFinally(s: State): State {
    if s.deferredFinals == 0 then s else s.(deferredFinals := s.deferredFinals - 1, draining := false)
  }

  /** The loop of the manual-compaction drain passes over empty messages. */
  function SkipEmpty(s: State): State
    decreases |s.batch|
  {
    if s.batch != [] && IsEmpty(s.batch[0])
    then SkipEmpty(s.(done := s.done + [Done(s.batch[0], false)], batch := s.batch[1..]))
    else s
  }

  function TakeBatch(s: State): State {
    if s.batch != [] then s
    else
      var k := LocalDeferredDuringManualCompaction;
      SkipEmpty(s.(queue := NotOfKind(s.queue, k), batch := OfKind(s.queue, k)))
  }

  function BatchThen(s: State, v: Verdict): State {
    if s.batch == [] then s
    else if v == Accepted
    then SkipEmpty(s.(done := s.done + [Done(s.batch[0], true)], batch := s.batch[1..]))
    else s.(queue := RestoreToFront(s.queue, s.batch), batch := [])
  }

  datatype Event =
    | Queues(message: Message)
    | Withdraws(requestId: nat)
    | Arms(armed: bool)
    | Reviews(active: bool)
    | Observes(idle: bool, cancelling: bool)
    | Schedules(idle: bool, cancelling: bool, draft: bool)
    | TimerFires
    | PausedAnswers(verdict: Verdict)
    | PausedFinals
    | DeferredAnswers(verdict: Verdict)
    | DeferredFinals
    | BatchTaken
    | BatchAnswers(verdict: Verdict)

  function Next(s: State, e: Event): State {
    match e
    case Queues(m) => Enqueue(s, m)
    case Withdraws(id) => Withdraw(s, id)
    case Arms(armed) => s.(armed := armed)
    case Reviews(active) => s.(reviewActive := active)
    case Observes(idle, cancelling) => Observe(s, idle, cancelling)
    case Schedules(idle, cancelling, draft) => Schedule(s, idle, cancelling, draft)
    case TimerFires => FireTimer(s)
    case PausedAnswers(v) => PausedThen(s, v)
    case PausedFinals => PausedFinally(s)
    case DeferredAnswers(v) => DeferredThen(s, v)
    case DeferredFinals => DeferredFinally(s)
    case BatchTaken => TakeBatch(s)
    case BatchAnswers(v) => BatchThen(s, v)
  }

  function Run(es: seq<Event>): State {
    if es == [] then INITIAL else Next(Run(Front(es)), Last(es))
  }
}
