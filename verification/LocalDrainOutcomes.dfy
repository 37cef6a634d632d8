/** What becomes of queued messages: none but empty ones is skipped, and the drains go on or stop as they should. */
module LocalDrainOutcomes {
  import opened Collections
  import opened QueuedMessages
  import opened LocalDrains
  import opened LocalDrainProperties
  import opened LocalQueueOrder

  /** Nothing but white space. */
  predicate HasNothing(m: Message) { m.blank && m.images == 0 && m.files == 0 }

  /** The i-th event accepts the message: the oldest call of a drain was answered so. */
  ghost predicate IsAccepted(es: seq<Event>, i: nat, m: Message) {
    i < |es| &&
    var s := Run(es[..i]);
    || (es[i] == PausedAnswers(Accepted) && s.pausedCalls != [] && s.pausedCalls[0] == m)
    || (es[i] == DeferredAnswers(Accepted) && s.deferredCalls != [] && s.deferredCalls[0] == m)
    || (es[i] == BatchAnswers(Accepted) && s.batch != [] && s.batch[0] == m)
  }

  /** What is on its way has something to send. */
  ghost predicate CallsSend(s: State) {
    && (forall i :: 0 <= i < |s.pausedCalls| ==> !HasNothing(s.pausedCalls[i]) && s.pausedCalls[i].files == 0)
    && (forall i :: 0 <= i < |s.deferredCalls| ==> !HasNothing(s.deferredCalls[i]))
    && (s.batch != [] ==> !HasNothing(s.batch[0]))
  }

  /** What was added to done: skipped messages are empty, an accepted one is m. */
  ghost predicate Adds(before: seq<Done>, after: seq<Done>, m: Option<Message>) {
    && |before| <= |after| && after[..|before|] == before
    && forall i :: |before| <= i < |after| ==>
         if after[i].accepted then Some(after[i].message) == m else HasNothing(after[i].message)
  }

  lemma {:induction false} SkipAdds(s: State)
    ensures Adds(s.done, SkipEmpty(s).done, None)
    ensures SkipEmpty(s) == s.(done := SkipEmpty(s).done, batch := SkipEmpty(s).batch)
    ensures SkipEmpty(s).batch != [] ==> !HasNothing(SkipEmpty(s).batch[0])
    decreases |s.batch|
  {
    if s.batch != [] && IsEmpty(s.batch[0]) {
      var t := s.(done := s.done + [Done(s.batch[0], false)], batch := s.batch[1..]);
      SkipAdds(t);
      assert SkipEmpty(t).done[..|s.done|] == SkipEmpty(t).done[..|t.done|][..|s.done|];
      assert SkipEmpty(t).done[..|t.done|][|s.done|] == Done(s.batch[0], false);
    }
  }

  /** Nothing is added to done, and no call is made or answered. */
  ghost predicate SameCalls(s: State, t: State) {
    t.done == s.done && t.pausedCalls == s.pausedCalls && t.deferredCalls == s.deferredCalls && t.batch == s.batch
  }

  lemma {:induction false} SameCallsAdd(s: State, t: State)
    requires SameCalls(s, t)
    ensures CallsSend(s) ==> CallsSend(t)
    ensures Adds(s.done, t.done, None)
  {}

  lemma {:induction false} SkipOne(done: seq<Done>, m: Message)
    requires HasNothing(m)
    ensures Adds(done, done + [Done(m, false)], None)
  {}

  lemma {:induction false} SendPausedAdds(s: State, m: Message)
    requires CallsSend(s)
    ensures CallsSend(SendPaused(s, m)) && Adds(s.done, SendPaused(s, m).done, None)
  {
    hide Has, RestoreToFront, Adds;
    NothingMore(s.done);
    if m.files == 0 && m.blank && m.images == 0 { SkipOne(s.done, m); }
  }

  lemma {:induction false} PausedDrainAdds(s: State)
    requires CallsSend(s)
    ensures CallsSend(DrainPaused(s)) && Adds(s.done, DrainPaused(s).done, None)
  {
    hide FirstOf, Has, SendPaused, CallsSend, Adds;
    var i := FirstOf(s.queue, LocalPausedAfterEsc);
    if !s.inFlight && !s.awaiting && i < |s.queue| {
      var u := s.(queue := Without(s.queue, i), log := s.log + [Took(s.queue[i])]);
      SameCallsAdd(s, u);
      SendPausedAdds(u, s.queue[i]);
    } else {
      SameCallsAdd(s, DrainPaused(s));
    }
  }

  lemma {:induction false} SendDeferredAdds(s: State, m: Message)
    requires CallsSend(s)
    ensures CallsSend(SendDeferred(s, m)) && Adds(s.done, SendDeferred(s, m).done, None)
  {
    hide Adds;
    NothingMore(s.done);
    if IsEmpty(m) { SkipOne(s.done, m); }
  }

  lemma {:induction false} DeferredDrainAdds(s: State)
    requires CallsSend(s)
    ensures CallsSend(DrainDeferred(s)) && Adds(s.done, DrainDeferred(s).done, None)
  {
    hide FirstOf, SendDeferred, CallsSend, Adds;
    var i := FirstOf(s.queue, LocalDeferredAfterEsc);
    if i < |s.queue| {
      var u := s.(queue := Without(s.queue, i));
      SameCallsAdd(s, u);
      SendDeferredAdds(u, s.queue[i]);
    } else {
      SameCallsAdd(s, s);
    }
  }

  lemma {:induction false} OneMoreDone(done: seq<Done>, m: Message)
    ensures Adds(done, done + [Done(m, true)], Some(m))
  {}

  lemma {:induction false} PausedAnswerAdds(s: State, v: Verdict)
    requires CallsSend(s)
    ensures CallsSend(PausedThen(s, v))
    ensures Adds(s.done, PausedThen(s, v).done,
                 if v == Accepted && s.pausedCalls != [] then Some(s.pausedCalls[0]) else None)
  {
    hide Has, RestoreToFront, Adds;
    NothingMore(s.done);
    if s.pausedCalls != [] { OneMoreDone(s.done, s.pausedCalls[0]); }
  }

  lemma {:induction false} DeferredAnswerAdds(s: State, v: Verdict)
    requires CallsSend(s)
    ensures CallsSend(DeferredThen(s, v))
    ensures Adds(s.done, DeferredThen(s, v).done,
                 if v == Accepted && s.deferredCalls != [] then Some(s.deferredCalls[0]) else None)
  {
    hide RestoreToFront, Adds;
    NothingMore(s.done);
    if s.deferredCalls != [] { OneMoreDone(s.done, s.deferredCalls[0]); }
  }

  lemma {:induction false} NothingMore(done: seq<Done>)
    ensures Adds(done, done, None)
  {}

  lemma {:induction false} BatchAnswerAdds(s: State, v: Verdict)
    requires CallsSend(s)
    ensures CallsSend(BatchThen(s, v))
    ensures Adds(s.done, BatchThen(s, v).done, if v == Accepted && s.batch != [] then Some(s.batch[0]) else None)
  {
    hide RestoreToFront, SkipEmpty;
    if s.batch != [] && v == Accepted {
      var t := s.(done := s.done + [Done(s.batch[0], true)], batch := s.batch[1..]);
      SkipAdds(t);
      ThenMore(s.done, s.batch[0], SkipEmpty(t).done);
    }
  }

  lemma {:induction false} ThenMore(done: seq<Done>, m: Message, after: seq<Done>)
    requires Adds(done + [Done(m, true)], after, None)
    ensures Adds(done, after, Some(m))
  {
    var one := done + [Done(m, true)];
    assert after[..|done|] == after[..|one|][..|done|];
    assert after[..|one|][|done|] == Done(m, true);
  }

  lemma {:induction false} TakeBatchAdds(s: State)
    requires CallsSend(s)
    ensures CallsSend(TakeBatch(s)) && Adds(s.done, TakeBatch(s).done, None)
  {
    var k := LocalDeferredDuringManualCompaction;
    SkipAdds(s.(queue := NotOfKind(s.queue, k), batch := OfKind(s.queue, k)));
  }

  lemma {:induction false} NextAdds(es: seq<Event>, e: Event)
    requires CallsSend(Run(es))
    ensures CallsSend(Run(es + [e]))
    ensures exists m :: Adds(Run(es).done, Run(es + [e]).done, m) && (m.Some? ==> IsAccepted(es + [e], |es|, m.value))
  {
    hide DrainPaused, DrainDeferred, PausedThen, DeferredThen, BatchThen, TakeBatch, Enqueue, Withdraw, Observe, Schedule;
    var s := Run(es);
    assert Front(es + [e]) == es && (es + [e])[..|es|] == es;
    var m: Option<Message> :=
      match e
      case PausedAnswers(Accepted) => if s.pausedCalls != [] then Some(s.pausedCalls[0]) else None
      case DeferredAnswers(Accepted) => if s.deferredCalls != [] then Some(s.deferredCalls[0]) else None
      case BatchAnswers(Accepted) => if s.batch != [] then Some(s.batch[0]) else None
      case _ => None;
    assert m.Some? ==> IsAccepted(es + [e], |es|, m.value);
    match e
    case TimerFires =>
      PausedDrainAdds(s.(timer := NoTimer));
      DeferredDrainAdds(s.(timer := NoTimer));
      assert Adds(s.done, Run(es + [e]).done, m);
    case PausedAnswers(v) => PausedAnswerAdds(s, v); assert Adds(s.done, Run(es + [e]).done, m);
    case DeferredAnswers(v) => DeferredAnswerAdds(s, v); assert Adds(s.done, Run(es + [e]).done, m);
    case BatchAnswers(v) => BatchAnswerAdds(s, v); assert Adds(s.done, Run(es + [e]).done, m);
    case BatchTaken => TakeBatchAdds(s); assert Adds(s.done, Run(es + [e]).done, m);
    case _ =>
      AsideFrame(s, e);
      SameCallsAdd(s, Next(s, e));
      assert Adds(s.done, Run(es + [e]).done, m);
  }

  lemma {:induction false} EnqueueFrame(s: State, m: Message)
    ensures var t := Enqueue(s, m);
            && SameCalls(s, t) && t.log == s.log && t.withdrawn == s.withdrawn
            && t.known == if m.requestId in Ids(s.known) then s.known else s.known + [m]
  {
    hide Ids;
  }

  lemma {:induction false} WithdrawFrame(s: State, id: nat)
    ensures var t := Withdraw(s, id);
            && SameCalls(s, t) && t.log == s.log && t.known == s.known
            && t.withdrawn == if id in Ids(s.queue) then s.withdrawn + {id} else s.withdrawn
  {
    hide Ids, Drop;
  }

  lemma {:induction false} ObserveFrame(s: State, idle: bool, cancelling: bool)
    ensures var t := Observe(s, idle, cancelling);
            && SameCalls(s, t) && SameHistory(s, t)
            && t.log == s.log + if !idle then [SeenBusy] else if cancelling then [] else [SeenSettled]
  {
    hide Has;
  }

  lemma {:induction false} ScheduleFrame(s: State, idle: bool, cancelling: bool, draft: bool)
    ensures var t := Schedule(s, idle, cancelling, draft);
            SameCalls(s, t) && SameHistory(s, t) && t.log == s.log
  {
    hide Has, ShouldAutoDrain;
  }

  ghost predicate SameHistory(s: State, t: State) { t.known == s.known && t.withdrawn == s.withdrawn }

  /** An event that neither takes nor answers a message. */
  predicate IsAside(e: Event) {
    !e.TimerFires? && !e.PausedAnswers? && !e.DeferredAnswers? && !e.BatchAnswers? && !e.BatchTaken?
  }

  lemma {:induction false} AsideFrame(s: State, e: Event)
    requires IsAside(e)
    ensures SameCalls(s, Next(s, e))
    ensures !e.Observes? ==> Next(s, e).log == s.log
    ensures !e.Queues? && !e.Withdraws? ==> SameHistory(s, Next(s, e))
  {
    hide Enqueue, Withdraw, Observe, Schedule, DrainPaused, DrainDeferred, PausedThen, DeferredThen, BatchThen,
      TakeBatch;
    match e
    case Queues(m) => EnqueueFrame(s, m);
    case Withdraws(id) => WithdrawFrame(s, id);
    case Observes(idle, cancelling) => ObserveFrame(s, idle, cancelling);
    case Schedules(idle, cancelling, draft) => ScheduleFrame(s, idle, cancelling, draft);
    case _ =>
  }

  // ----- main results

  /**
   * A message leaves the queues for good in two ways only: skipped, when it has no text, no images and no
   * files; or accepted, by the answer to its own call. And only messages with something in them are sent,
   * paused ones only without files.
   */
  lemma {:induction false} OnlyEmptyMessagesAreSkipped(es: seq<Event>)
    ensures forall i :: 0 <= i < |Run(es).done| && !Run(es).done[i].accepted ==> HasNothing(Run(es).done[i].message)
    ensures forall i :: 0 <= i < |Run(es).done| && Run(es).done[i].accepted ==>
              exists k :: IsAccepted(es, k, Run(es).done[i].message)
    ensures CallsSend(Run(es))
  {
    hide Next, CallsSend, IsAccepted;
    if es == [] {
      NothingDone();
    } else {
      var f := Front(es);
      OnlyEmptyMessagesAreSkipped(f);
      assert f + [Last(es)] == es;
      NextAdds(f, Last(es));
      var m :| Adds(Run(f).done, Run(es).done, m) && (m.Some? ==> IsAccepted(es, |f|, m.value));
      forall i | 0 <= i < |Run(es).done|
        ensures !Run(es).done[i].accepted ==> HasNothing(Run(es).done[i].message)
        ensures Run(es).done[i].accepted ==> exists k :: IsAccepted(es, k, Run(es).done[i].message)
      {
        if i < |Run(f).done| {
          assert Run(es).done[i] == Run(es).done[..|Run(f).done|][i];
          if Run(f).done[i].accepted {
            var k :| IsAccepted(f, k, Run(f).done[i].message);
            AcceptedBefore(es, k, Run(f).done[i].message);
          }
        }
      }
    }
  }

  lemma {:induction false} AcceptedBefore(es: seq<Event>, k: nat, m: Message)
    requires es != [] && IsAccepted(Front(es), k, m)
    ensures IsAccepted(es, k, m)
  {
    assert Front(es)[..k] == es[..k];
  }

  lemma {:induction false} NothingDone()
    ensures CallsSend(Run([])) && Run([]).done == []
  {}

  // ----- the history is that of the events

  /** The messages that were queued, each id once. */
  function QueuedBy(es: seq<Event>): seq<Message> {
    if es == [] then []
    else
      var before := QueuedBy(Front(es));
      if Last(es).Queues? && Last(es).message.requestId !in Ids(before) then before + [Last(es).message] else before
  }

  /** The ids that the user withdrew while they were queued. */
  ghost function WithdrawnBy(es: seq<Event>): set<nat> {
    if es == [] then {}
    else
      WithdrawnBy(Front(es))
      + if Last(es).Withdraws? && Last(es).requestId in Ids(Run(Front(es)).queue) then {Last(es).requestId} else {}
  }

  lemma {:induction false} HistoryIs(es: seq<Event>)
    ensures Run(es).known == QueuedBy(es) && Run(es).withdrawn == WithdrawnBy(es)
  {
    if es != [] {
      HistoryIs(Front(es));
      HistoryStep(Run(Front(es)), Last(es));
    }
  }

  lemma {:induction false} SendsKeepHistory(s: State, m: Message)
    ensures SameHistory(s, SendPaused(s, m)) && SameHistory(s, SendDeferred(s, m))
  {
    hide RestoreToFront, Has;
  }

  lemma {:induction false} DrainsKeepHistory(s: State)
    ensures SameHistory(s, DrainPaused(s)) && SameHistory(s, DrainDeferred(s))
  {
    hide FirstOf, SendPaused, SendDeferred;
    var i := FirstOf(s.queue, LocalPausedAfterEsc);
    if i < |s.queue| {
      SendsKeepHistory(s.(queue := Without(s.queue, i), log := s.log + [Took(s.queue[i])]), s.queue[i]);
    }
    var j := FirstOf(s.queue, LocalDeferredAfterEsc);
    if j < |s.queue| { SendsKeepHistory(s.(queue := Without(s.queue, j)), s.queue[j]); }
  }

  lemma {:induction false} AnswersKeepHistory(s: State, v: Verdict)
    ensures SameHistory(s, PausedThen(s, v)) && SameHistory(s, DeferredThen(s, v))
  {
    hide RestoreToFront, Has;
  }

  lemma {:induction false} BatchKeepsHistory(s: State, v: Verdict)
    ensures SameHistory(s, TakeBatch(s)) && SameHistory(s, BatchThen(s, v))
  {
    hide RestoreToFront, SkipEmpty;
    SkipKeepsTurn(s.(queue := NotOfKind(s.queue, LocalDeferredDuringManualCompaction),
                     batch := OfKind(s.queue, LocalDeferredDuringManualCompaction)));
    if s.batch != [] {
      SkipKeepsTurn(s.(done := s.done + [Done(s.batch[0], true)], batch := s.batch[1..]));
    }
  }

  lemma {:induction false} HistoryStep(s: State, e: Event)
    ensures Next(s, e).known ==
            if e.Queues? && e.message.requestId !in Ids(s.known) then s.known + [e.message] else s.known
    ensures Next(s, e).withdrawn ==
            if e.Withdraws? && e.requestId in Ids(s.queue) then s.withdrawn + {e.requestId} else s.withdrawn
  {
    hide DrainPaused, DrainDeferred, PausedThen, DeferredThen, BatchThen, TakeBatch, Enqueue, Withdraw, Observe, Schedule,
      Ids;
    match e
    case TimerFires => DrainsKeepHistory(s.(timer := NoTimer));
    case PausedAnswers(v) => AnswersKeepHistory(s, v);
    case DeferredAnswers(v) => AnswersKeepHistory(s, v);
    case BatchTaken => BatchKeepsHistory(s, Accepted);
    case BatchAnswers(v) => BatchKeepsHistory(s, v);
    case Queues(m) => EnqueueFrame(s, m);
    case Withdraws(id) => WithdrawFrame(s, id);
    case _ => AsideFrame(s, e);
  }

  /** So every message that the events queued and did not withdraw is finished, held or waiting, in queueing order. */
  lemma {:induction false} QueuedIsAccountedFor(es: seq<Event>, k: Kind)
    ensures var s := Run(es);
            Processed(s.done, k) + Hand(s, k) + OfKind(s.queue, k) == Drop(OfKind(QueuedBy(es), k), WithdrawnBy(es))
  {
    hide Run, QueuedBy, WithdrawnBy, Processed, OfKind, Drop;
    HistoryIs(es);
    NothingLostOrReordered(es, k);
  }

  // ----- the drains go on

  /** What the drain of paused messages does with m, once it has taken it out of s. */
  ghost predicate PausedFate(s: State, t: State, m: Message) {
    if m.files > 0 then
      // back to the front, for the user to review; the auto-drain stops
      t.queue == RestoreToFront(s.queue, [m]) && t.reviewActive && !t.armed
      && t.pausedCalls == s.pausedCalls && t.done == s.done
    else if HasNothing(m) then
      // skipped; the auto-drain goes on while there is a paused message
      t.queue == s.queue && t.done == s.done + [Done(m, false)] && t.pausedCalls == s.pausedCalls
      && (t.armed <==> exists i :: 0 <= i < |t.queue| && t.queue[i].kind == LocalPausedAfterEsc)
    else
      // on its way
      t.queue == s.queue && t.pausedCalls == s.pausedCalls + [m] && t.inFlight && t.done == s.done
  }

  lemma {:induction false} HasIs(q: seq<Message>, k: Kind)
    ensures Has(q, k) <==> exists i :: 0 <= i < |q| && q[i].kind == k
  {
    FirstOfIs(q, k);
    var i := FirstOf(q, k);
    if i < |q| { assert q[i].kind == k; }
  }

  lemma {:induction false} SendingFate(s: State, m: Message)
    ensures PausedFate(s, SendPaused(s, m), m) && SendPaused(s, m).log == s.log
  {
    hide RestoreToFront, Has;
    HasIs(s.queue, LocalPausedAfterEsc);
  }

  lemma {:induction false} PausedDrainTakes(s: State, i: nat)
    requires !s.inFlight && !s.awaiting && i < |s.queue| && s.queue[i].kind == LocalPausedAfterEsc
    requires forall j :: 0 <= j < i ==> s.queue[j].kind != LocalPausedAfterEsc
    ensures var u := s.(queue := s.queue[..i] + s.queue[i + 1..]);
            PausedFate(u, DrainPaused(s), s.queue[i]) && DrainPaused(s).log == s.log + [Took(s.queue[i])]
  {
    hide SendPaused, PausedFate;
    FirstOfIs(s.queue, LocalPausedAfterEsc);
    assert FirstOf(s.queue, LocalPausedAfterEsc) == i;
    var u := s.(queue := Without(s.queue, i));
    var v := u.(log := s.log + [Took(s.queue[i])]);
    SendingFate(v, s.queue[i]);
    FateDependsOn(v, DrainPaused(s), s.queue[i], u);
  }

  /** The events of a turn: accepted, over, seen busy, seen idle; the effect sets the timer, and it fires. */
  function Turn(s: State, cancelling: bool): State {
    var accepted := Next(Next(s, PausedAnswers(Accepted)), PausedFinals);
    var settled := Next(Next(accepted, Observes(false, cancelling)), Observes(true, false));
    Next(Next(settled, Schedules(true, false, false)), TimerFires)
  }

  /** When a turn of a paused message is over, the next paused message is taken, unless a deferred one comes first. */
  lemma {:induction false} AutoDrainGoesOn(es: seq<Event>, cancelling: bool, i: nat)
    requires Run(es).pausedCalls != [] && !Run(es).reviewActive && i < |Run(es).queue|
    requires forall m :: m in Run(es).queue ==> m.kind != LocalDeferredAfterEsc
    requires Run(es).queue[i].kind == LocalPausedAfterEsc
    requires forall j :: 0 <= j < i ==> Run(es).queue[j].kind != LocalPausedAfterEsc
    ensures var s, t := Run(es), Turn(Run(es), cancelling);
            var m, first := s.queue[i], s.pausedCalls[0];
            && t.log == s.log + [TurnAccepted, SeenBusy, SeenSettled, Took(m)]
            && PausedFate(s.(queue := s.queue[..i] + s.queue[i + 1..], pausedCalls := [],
                             done := s.done + [Done(first, true)]), t, m)
  {
    hide Run, PausedFate, DrainPaused, RestoreToFront;
    var s := Run(es);
    RunTurn(es);
    Settles(s, cancelling, i);
    var u := Settled(s);
    PausedDrainTakes(u, i);
    assert u.log + [Took(s.queue[i])] == s.log + [TurnAccepted, SeenBusy, SeenSettled, Took(s.queue[i])];
    FateDependsOn(u.(queue := s.queue[..i] + s.queue[i + 1..]), DrainPaused(u), s.queue[i],
                  s.(queue := s.queue[..i] + s.queue[i + 1..], pausedCalls := [],
                     done := s.done + [Done(s.pausedCalls[0], true)]));
  }

  lemma {:induction false} FateDependsOn(s: State, t: State, m: Message, u: State)
    requires PausedFate(s, t, m) && u.queue == s.queue && u.pausedCalls == s.pausedCalls && u.done == s.done
    ensures PausedFate(u, t, m)
  {}

  /** The state in which the timer fires: the call is over and the refs are free. */
  function Settled(s: State): State
    requires s.pausedCalls != []
  {
    s.(pausedCalls := s.pausedCalls[1..], done := s.done + [Done(s.pausedCalls[0], true)], armed := true,
       inFlight := false, awaiting := false, sawBusy := false, timer := NoTimer,
       log := s.log + [TurnAccepted] + [SeenBusy] + [SeenSettled])
  }

  lemma {:induction false} Settles(s: State, cancelling: bool, i: nat)
    requires TurnInv(s) && s.pausedCalls != [] && !s.reviewActive && i < |s.queue|
    requires forall m :: m in s.queue ==> m.kind != LocalDeferredAfterEsc
    requires s.queue[i].kind == LocalPausedAfterEsc
    ensures Turn(s, cancelling) == DrainPaused(Settled(s)) && Settled(s).pausedCalls == []
  {
    hide Has, Phase, TookInv, DrainPaused;
    HasIs(s.queue, LocalPausedAfterEsc);
    HasIs(s.queue, LocalDeferredAfterEsc);
    var accepted := Next(Next(s, PausedAnswers(Accepted)), PausedFinals);
    assert accepted == Settled(s).(awaiting := true, timer := s.timer, log := s.log + [TurnAccepted]);
    var busy := Next(accepted, Observes(false, cancelling));
    assert busy == Settled(s).(awaiting := true, sawBusy := true, timer := s.timer,
                               log := s.log + [TurnAccepted] + [SeenBusy]);
    var settled := Next(busy, Observes(true, false));
    assert settled == Settled(s).(timer := s.timer);
    assert Next(settled, Schedules(true, false, false)) == Settled(s).(timer := PausedTimer);
  }

  /** A refused or failed call puts its message first again, and no timer for paused messages is set until the user asks for it. */
  lemma {:induction false} FailureStopsTheAutoDrain(es: seq<Event>, v: Verdict, idle: bool, cancelling: bool, draft: bool)
    requires Run(es).pausedCalls != [] && v != Accepted
    ensures var s, t := Run(es), Next(Run(es), PausedAnswers(v));
            && t.queue == s.pausedCalls + s.queue && t.pausedCalls == [] && t.done == s.done
            && Next(t, Schedules(idle, cancelling, draft)).timer != PausedTimer
  {
    hide Run, OrderInv, OfKind, Drop, Ids, DistinctIds, Merge, Has;
    var s := Run(es);
    RunTurn(es);
    RunOrder(es);
    assert s.pausedCalls == [s.pausedCalls[0]];
    ReturnsToTheFront(s, LocalPausedAfterEsc);
  }

  lemma {:induction false} ReturnsToTheFront(s: State, k: Kind)
    requires OrderInv(s)
    ensures RestoreToFront(s.queue, Hand(s, k)) == Hand(s, k) + s.queue
  {
    hide OrderInv, OfKind, Drop, Ids, DistinctIds, Merge;
    if exists id :: id in Ids(s.queue) && id in Ids(Hand(s, k)) {
      var id :| id in Ids(s.queue) && id in Ids(Hand(s, k));
      var at := SomeKind(s.queue, id);
      PartsApart(s, k, at);
    }
    DropNothing(s.queue, Ids(Hand(s, k)));
    HandIsDistinct(s, k);
    MergeDistinct(Hand(s, k));
  }

  /**
   * Once the session is idle with no draft, the first deferred message is taken before any paused one: it is
   * sent, or skipped when it is empty.
   */
  lemma {:induction false} DeferredComesFirst(es: seq<Event>, i: nat)
    requires !Run(es).draining && i < |Run(es).queue| && Run(es).queue[i].kind == LocalDeferredAfterEsc
    requires forall j :: 0 <= j < i ==> Run(es).queue[j].kind != LocalDeferredAfterEsc
    ensures var s := Run(es);
            var t, m := Next(Next(s, Schedules(true, false, false)), TimerFires), s.queue[i];
            && t.queue == s.queue[..i] + s.queue[i + 1..] && t.pausedCalls == s.pausedCalls && t.log == s.log
            && (if HasNothing(m) then t.done == s.done + [Done(m, false)] && t.deferredCalls == s.deferredCalls
                else t.done == s.done && t.deferredCalls == s.deferredCalls + [m] && t.draining)
  {
    hide Run;
    var s := Run(es);
    FirstOfIs(s.queue, LocalDeferredAfterEsc);
    assert FirstOf(s.queue, LocalDeferredAfterEsc) == i;
  }

  /** Taking the compaction batch leaves none of its kind in the queue, and what is left of it waits for its first message. */
  lemma {:induction false} BatchTakesAll(es: seq<Event>)
    requires Run(es).batch == []
    ensures var s, t, k := Run(es), Next(Run(es), BatchTaken), LocalDeferredDuringManualCompaction;
            && OfKind(t.queue, k) == [] && (t.batch != [] ==> !HasNothing(t.batch[0]))
            && Processed(t.done, k) + t.batch == Processed(s.done, k) + OfKind(s.queue, k)
  {
    hide Run, SkipEmpty, OfKind, NotOfKind, Processed, OrderInv;
    var s, k := Run(es), LocalDeferredDuringManualCompaction;
    var u := s.(queue := NotOfKind(s.queue, k), batch := OfKind(s.queue, k));
    SkipAdds(u);
    TakeAll(s.queue, k, k);
    RunOrder(es);
    TakeBatchKeepsOrder(s);
    FifoIs(s, k);
    FifoIs(Next(s, BatchTaken), k);
    var t := Next(s, BatchTaken);
    SameLive(s, t, k);
    assert Processed(t.done, k) + t.batch + [] == Processed(t.done, k) + t.batch;
    assert Processed(s.done, k) + [] + OfKind(s.queue, k) == Processed(s.done, k) + OfKind(s.queue, k);
  }

  lemma {:induction false} FifoIs(s: State, k: Kind)
    requires OrderInv(s)
    ensures Processed(s.done, k) + Hand(s, k) + OfKind(s.queue, k) == Live(s, k)
  {
    assert Fifo(s, k);
  }

  lemma {:induction false} SendingMarksNothing(s: State, m: Message)
    ensures SendPaused(s, m).log == s.log
    ensures SendPaused(s, m).pausedCalls == s.pausedCalls || SendPaused(s, m).pausedCalls == s.pausedCalls + [m]
  {
    hide RestoreToFront, Has;
  }

  lemma {:induction false} DeferredMarksNothing(s: State, m: Message)
    ensures SendDeferred(s, m).log == s.log && SendDeferred(s, m).pausedCalls == s.pausedCalls
  {}

  lemma {:induction false} DrainsMark(s: State)
    ensures var t := DrainPaused(s);
            || (t.log == s.log && t.pausedCalls == s.pausedCalls)
            || exists m :: t.log == s.log + [Took(m)]
                           && (t.pausedCalls == s.pausedCalls || t.pausedCalls == s.pausedCalls + [m])
    ensures DrainDeferred(s).pausedCalls == s.pausedCalls && DrainDeferred(s).log == s.log
  {
    hide FirstOf, SendPaused, SendDeferred;
    var i := FirstOf(s.queue, LocalPausedAfterEsc);
    if i < |s.queue| {
      SendingMarksNothing(s.(queue := Without(s.queue, i), log := s.log + [Took(s.queue[i])]), s.queue[i]);
    }
    var j := FirstOf(s.queue, LocalDeferredAfterEsc);
    if j < |s.queue| { DeferredMarksNothing(s.(queue := Without(s.queue, j)), s.queue[j]); }
  }

  lemma {:induction false} BatchesMarkNothing(s: State, v: Verdict)
    ensures TakeBatch(s).pausedCalls == s.pausedCalls && TakeBatch(s).log == s.log
    ensures BatchThen(s, v).pausedCalls == s.pausedCalls && BatchThen(s, v).log == s.log
  {
    hide RestoreToFront, SkipEmpty;
    SkipAdds(s.(queue := NotOfKind(s.queue, LocalDeferredDuringManualCompaction),
                batch := OfKind(s.queue, LocalDeferredDuringManualCompaction)));
    if s.batch != [] {
      SkipAdds(s.(done := s.done + [Done(s.batch[0], true)], batch := s.batch[1..]));
    }
  }

  lemma {:induction false} PausedAnswersMark(s: State, v: Verdict)
    ensures |PausedThen(s, v).pausedCalls| <= |s.pausedCalls|
    ensures PausedThen(s, v).log == if s.pausedCalls != [] && v == Accepted then s.log + [TurnAccepted] else s.log
  {
    hide RestoreToFront, Has;
  }

  lemma {:induction false} DeferredAnswersMark(s: State, v: Verdict)
    ensures DeferredThen(s, v).pausedCalls == s.pausedCalls
    ensures DeferredThen(s, v).log == s.log
  {
    hide RestoreToFront, Merge, Drop, Ids;
    if s.deferredCalls != [] {
      var u := s.(deferredCalls := s.deferredCalls[1..], deferredFinals := s.deferredFinals + 1);
      if v == Accepted {
        assert DeferredThen(s, v) == u.(done := u.done + [Done(s.deferredCalls[0], true)]);
      } else {
        assert DeferredThen(s, v) == u.(queue := RestoreToFront(u.queue, [s.deferredCalls[0]]));
      }
    }
  }

  /** The marks that "one message a turn" speaks of are those of the events: every send, acceptance and observation is there. */
  lemma {:induction false} MarksTell(s: State, e: Event)
    ensures |Next(s, e).pausedCalls| > |s.pausedCalls| ==>
              e.TimerFires? && Next(s, e).log == s.log + [Took(Last(Next(s, e).pausedCalls))]
    ensures e == PausedAnswers(Accepted) && s.pausedCalls != [] ==> Next(s, e).log == s.log + [TurnAccepted]
    ensures e.Observes? ==>
              Next(s, e).log == s.log + if !e.idle then [SeenBusy] else if e.cancelling then [] else [SeenSettled]
    ensures s.log <= Next(s, e).log
  {
    hide DrainPaused, DrainDeferred, PausedThen, DeferredThen, BatchThen, TakeBatch, Enqueue, Withdraw, Observe, Schedule;
    match e
    case TimerFires => DrainsMark(s.(timer := NoTimer));
    case BatchTaken => BatchesMarkNothing(s, Accepted);
    case BatchAnswers(v) => BatchesMarkNothing(s, v);
    case PausedAnswers(v) => PausedAnswersMark(s, v);
    case DeferredAnswers(v) => DeferredAnswersMark(s, v);
    case Observes(idle, cancelling) => ObserveFrame(s, idle, cancelling);
    case _ => AsideFrame(s, e);
  }
}
