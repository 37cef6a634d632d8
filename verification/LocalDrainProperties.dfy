/** The local queues lose nothing, keep their order, and auto-drain one paused message a turn. */
module LocalDrainProperties {
  import opened Collections
  import opened QueuedMessages
  import opened LocalDrains

  // ----- one call at a time, one message a turn

  /** 0: free to drain; 1: a turn was accepted; 2: and the session was then seen busy. */
  function Phase(log: seq<Mark>): nat {
    if log == [] then 0
    else
      match Last(log)
      case Took(_) => Phase(Front(log))
      case TurnAccepted => 1
      case SeenBusy => if Phase(Front(log)) > 0 then 2 else 0
      case SeenSettled => if Phase(Front(log)) == 2 then 0 else Phase(Front(log))
  }

  lemma {:induction false} PhaseSnoc(log: seq<Mark>, m: Mark)
    ensures Phase(log + [m]) ==
            match m
            case Took(_) => Phase(log)
            case TurnAccepted => 1
            case SeenBusy => if Phase(log) > 0 then 2 else 0
            case SeenSettled => if Phase(log) == 2 then 0 else Phase(log)
  {
    assert Front(log + [m]) == log;
  }

  ghost predicate CallsInv(s: State) {
    && |s.pausedCalls| + s.pausedFinals == (if s.inFlight then 1 else 0)
    && |s.deferredCalls| + s.deferredFinals == (if s.draining then 1 else 0)
    && (s.timer == DeferredTimer ==> !s.draining)
  }

  ghost predicate PhaseInv(s: State) {
    && Phase(s.log) <= 2
    && (s.awaiting <==> Phase(s.log) > 0)
    && (s.sawBusy <==> Phase(s.log) == 2)
  }

  ghost predicate TookInv(log: seq<Mark>) {
    forall j :: 0 <= j < |log| && log[j].Took? ==> Phase(log[..j]) == 0
  }

  ghost predicate TurnInv(s: State) {
    CallsInv(s) && PhaseInv(s) && TookInv(s.log)
  }

  lemma {:induction false} TookSnoc(log: seq<Mark>, m: Mark)
    requires TookInv(log) && (m.Took? ==> Phase(log) == 0)
    ensures TookInv(log + [m])
  {
    var more := log + [m];
    forall j | 0 <= j < |more| && more[j].Took? ensures Phase(more[..j]) == 0 {
      assert more[..j] == if j < |log| then log[..j] else log;
    }
  }

  lemma {:induction false} ObserveKeepsTurn(s: State, idle: bool, cancelling: bool)
    requires TurnInv(s)
    ensures TurnInv(Observe(s, idle, cancelling))
  {
    hide FirstOf, Phase;
    var t := Observe(s, idle, cancelling);
    assert t.pausedCalls == s.pausedCalls && t.inFlight == s.inFlight && t.timer == s.timer;
    var more := Marks(idle, cancelling);
    if more == [] {
      assert t.log == s.log;
    } else {
      var m := more[0];
      assert t.log == s.log + [m];
      TookSnoc(s.log, m);
      PhaseSnoc(s.log, m);
    }
  }

  /** What the fate of a taken message does to the refs: nothing, or one more call. */
  ghost predicate SendEffect(s: State, t: State) {
    && ((t.pausedCalls == s.pausedCalls && t.inFlight == s.inFlight)
        || (!s.inFlight && t.inFlight && |t.pausedCalls| == |s.pausedCalls| + 1))
    && (t.awaiting, t.sawBusy, t.pausedFinals, t.draining, t.deferredCalls, t.deferredFinals, t.timer)
       == (s.awaiting, s.sawBusy, s.pausedFinals, s.draining, s.deferredCalls, s.deferredFinals, s.timer)
  }

  lemma {:induction false} SendEffects(s: State, m: Message)
    requires !s.inFlight
    ensures SendEffect(s, SendPaused(s, m)) && SendPaused(s, m).log == s.log
  {}

  lemma {:induction false} DrainEffect(s: State)
    ensures SendEffect(s, DrainPaused(s))
    ensures var t := DrainPaused(s); t.log == s.log || (!s.awaiting && exists m :: t.log == s.log + [Took(m)])
  {
    var i := FirstOf(s.queue, LocalPausedAfterEsc);
    if !s.inFlight && !s.awaiting && i < |s.queue| {
      SendEffects(s.(queue := Without(s.queue, i), log := s.log + [Took(s.queue[i])]), s.queue[i]);
    }
  }

  lemma {:induction false} DrainKeepsTurn(s: State)
    requires TurnInv(s)
    ensures TurnInv(DrainPaused(s))
  {
    DrainEffect(s);
    var t := DrainPaused(s);
    if t.log != s.log {
      var m :| t.log == s.log + [Took(m)];
      TookSnoc(s.log, Took(m));
      PhaseSnoc(s.log, Took(m));
    }
  }

  /** What the fate of a taken deferred message does to the refs: nothing, or one more call. */
  ghost predicate DeferredEffect(s: State, t: State) {
    && (t.log, t.pausedCalls, t.pausedFinals, t.inFlight, t.awaiting, t.sawBusy, t.timer, t.deferredFinals)
       == (s.log, s.pausedCalls, s.pausedFinals, s.inFlight, s.awaiting, s.sawBusy, s.timer, s.deferredFinals)
    && ((t.deferredCalls == s.deferredCalls && t.draining == s.draining)
        || (|t.deferredCalls| == |s.deferredCalls| + 1 && t.draining))
  }

  lemma {:induction false} SendDeferredEffect(s: State, m: Message)
    ensures DeferredEffect(s, SendDeferred(s, m))
  {}

  lemma {:induction false} DeferredDrainEffect(s: State)
    ensures DeferredEffect(s, DrainDeferred(s))
  {
    hide FirstOf, SendDeferred;
    var i := FirstOf(s.queue, LocalDeferredAfterEsc);
    if i < |s.queue| {
      SendDeferredEffect(s.(queue := Without(s.queue, i)), s.queue[i]);
    }
  }

  lemma {:induction false} DeferredDrainKeepsTurn(s: State)
    requires TurnInv(s) && !s.draining && s.timer == NoTimer
    ensures TurnInv(DrainDeferred(s))
  {
    DeferredDrainEffect(s);
  }

  lemma {:induction false} PausedThenKeepsTurn(s: State, v: Verdict)
    requires TurnInv(s)
    ensures TurnInv(PausedThen(s, v))
  {
    TookSnoc(s.log, TurnAccepted);
    PhaseSnoc(s.log, TurnAccepted);
  }

  lemma {:induction false} SkipKeepsTurn(s: State)
    ensures SkipEmpty(s) == s.(done := SkipEmpty(s).done, batch := SkipEmpty(s).batch)
    decreases |s.batch|
  {
    if s.batch != [] && IsEmpty(s.batch[0]) {
      SkipKeepsTurn(s.(done := s.done + [Done(s.batch[0], false)], batch := s.batch[1..]));
    }
  }

  lemma {:induction false} BatchKeepsTurn(s: State, v: Verdict)
    requires TurnInv(s)
    ensures TurnInv(TakeBatch(s)) && TurnInv(BatchThen(s, v))
  {
    SkipKeepsTurn(s.(queue := NotOfKind(s.queue, LocalDeferredDuringManualCompaction),
                     batch := OfKind(s.queue, LocalDeferredDuringManualCompaction)));
    if s.batch != [] {
      SkipKeepsTurn(s.(done := s.done + [Done(s.batch[0], true)], batch := s.batch[1..]));
    }
  }

  lemma {:induction false} DeferredKeepsTurn(s: State, v: Verdict)
    requires TurnInv(s)
    ensures TurnInv(DeferredThen(s, v)) && TurnInv(DeferredFinally(s)) && TurnInv(PausedFinally(s))
  {
    hide Phase, Drop, Ids, RestoreToFront;
  }

  lemma {:induction false} ScheduleKeepsTurn(s: State, idle: bool, cancelling: bool, draft: bool)
    requires TurnInv(s)
    ensures TurnInv(Schedule(s, idle, cancelling, draft))
  {}

  lemma {:induction false} QueueKeepsTurn(s: State, m: Message, id: nat)
    requires TurnInv(s)
    ensures TurnInv(Enqueue(s, m)) && TurnInv(Withdraw(s, id))
  {}

  lemma {:induction false} NextKeepsTurn(s: State, e: Event)
    requires TurnInv(s)
    ensures TurnInv(Next(s, e))
  {
    hide Phase, DrainPaused, DrainDeferred, Observe, PausedThen, DeferredThen, TakeBatch, BatchThen, Schedule, Enqueue, Withdraw;
    match e
    case Observes(idle, cancelling) => ObserveKeepsTurn(s, idle, cancelling);
    case TimerFires =>
      if s.timer == PausedTimer { DrainKeepsTurn(s.(timer := NoTimer)); }
      if s.timer == DeferredTimer { DeferredDrainKeepsTurn(s.(timer := NoTimer)); }
    case PausedAnswers(v) => PausedThenKeepsTurn(s, v);
    case BatchTaken => BatchKeepsTurn(s, Accepted);
    case BatchAnswers(v) => BatchKeepsTurn(s, v);
    case DeferredAnswers(v) => DeferredKeepsTurn(s, v);
    case PausedFinals => DeferredKeepsTurn(s, Accepted);
    case DeferredFinals => DeferredKeepsTurn(s, Accepted);
    case Schedules(idle, cancelling, draft) => ScheduleKeepsTurn(s, idle, cancelling, draft);
    case Queues(m) => QueueKeepsTurn(s, m, 0);
    case Withdraws(id) => QueueKeepsTurn(s, Message(0, DaemonQueued, true, 0, 0), id);
    case Arms(armed) =>
    case Reviews(active) =>
  }

  lemma {:induction false} RunTurn(es: seq<Event>)
    ensures TurnInv(Run(es))
  {
    if es != [] {
      RunTurn(Front(es));
      NextKeepsTurn(Run(Front(es)), Last(es));
    }
  }

  /** At most one paused and one deferred message is on its way at any time. */
  lemma {:induction false} OneInFlight(es: seq<Event>)
    ensures |Run(es).pausedCalls| <= 1 && |Run(es).deferredCalls| <= 1
  {
    RunTurn(es);
  }

  lemma {:induction false} PhaseTells(log: seq<Mark>, i: nat)
    requires i < |log| && log[i] == TurnAccepted
    ensures Phase(log) == 2 ==> exists a :: i < a < |log| && log[a] == SeenBusy
    ensures Phase(log) == 0 ==>
              exists a, b :: i < a < b < |log| && log[a] == SeenBusy && log[b] == SeenSettled
  {
    var f := Front(log);
    if i < |f| {
      PhaseTells(f, i);
      if Phase(f) == 0 {
        var a, b :| i < a < b < |f| && f[a] == SeenBusy && f[b] == SeenSettled;
        assert log[a] == SeenBusy && log[b] == SeenSettled;
      } else if Phase(f) == 2 {
        var a :| i < a < |f| && f[a] == SeenBusy;
        assert log[a] == SeenBusy;
        if Phase(log) == 0 { assert log[|f|] == SeenSettled; }
      } else if Phase(log) == 2 {
        assert log[|f|] == SeenBusy;
      }
    }
  }

  /**
   * After a turn was accepted for a paused message, no further one is dequeued before the session has
   * been seen busy and then seen idle with no cancel in progress.
   */
  lemma {:induction false} OneMessageATurn(es: seq<Event>, i: nat, j: nat)
    requires i < j < |Run(es).log|
    requires Run(es).log[i] == TurnAccepted && Run(es).log[j].Took?
    ensures exists a, b :: i < a < b < j && Run(es).log[a] == SeenBusy && Run(es).log[b] == SeenSettled
  {
    RunTurn(es);
    var log := Run(es).log;
    PhaseTells(log[..j], i);
    var a, b :| i < a < b < j && log[..j][a] == SeenBusy && log[..j][b] == SeenSettled;
    assert log[a] == SeenBusy && log[b] == SeenSettled;
  }
}
