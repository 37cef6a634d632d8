/** The refs of the app and the session queue they drain, and the whole loop of one manual-compaction drain. */
module LocalQueueDrains {
  import opened Collections
  import opened QueuedMessages
  import opened SessionQueue
  import opened LocalDrains

  class App {
    const manager: SessionStateManager

    var localPausedAutoDrainArmed: bool
    var localPausedAutoDrainInFlight: bool
    var localPausedAutoDrainAwaitingTurn: bool
    var localPausedAutoDrainSawBusy: bool
    var isDrainingLocalDeferredQueue: bool
    var queuedReviewActive: bool
    var timer: Timer

    // What the JavaScript runtime keeps for the app: suspended calls of processAndRun and what follows them.
    var pausedCalls: seq<Message>
    var pausedFinals: nat
    var deferredCalls: seq<Message>
    var deferredFinals: nat
    var batch: seq<Message>

    ghost var known: seq<Message>
    ghost var withdrawn: set<nat>
    ghost var done: seq<Done>
    ghost var log: seq<Mark>

    ghost function Now(): State
      reads this, manager
    {
      State(manager.queuedMessages, localPausedAutoDrainArmed, localPausedAutoDrainInFlight,
            localPausedAutoDrainAwaitingTurn, localPausedAutoDrainSawBusy, isDrainingLocalDeferredQueue,
            queuedReviewActive, timer, pausedCalls, pausedFinals, deferredCalls, deferredFinals, batch,
            known, withdrawn, done, log)
    }

    constructor ()
      ensures fresh(manager) && Now() == INITIAL
    {
      manager := new SessionStateManager();
      localPausedAutoDrainArmed, localPausedAutoDrainInFlight := false, false;
      localPausedAutoDrainAwaitingTurn, localPausedAutoDrainSawBusy := false, false;
      isDrainingLocalDeferredQueue, queuedReviewActive := false, false;
      timer := NoTimer;
      pausedCalls, pausedFinals, deferredCalls, deferredFinals, batch := [], 0, [], 0, [];
      known, withdrawn, done, log := [], {}, [], [];
    }

    method QueueLocalPrompt(m: Message)
      requires m.requestId !in Ids(known) && Ids(manager.queuedMessages) <= Ids(known)
      modifies this, manager
      ensures Now() == Next(old(Now()), Queues(m))
    {
      manager.QueueUserMessage(m);
      known := known + [m];
    }

    method ClearQueuedMessage(requestId: nat)
      modifies this, manager
      ensures Now() == Next(old(Now()), Withdraws(requestId))
    {
      DropNothingElse(manager.queuedMessages, requestId);
      if requestId in Ids(manager.queuedMessages) {
        withdrawn := withdrawn + {requestId};
      }
      manager.ClearQueuedMessage(requestId);
    }

    lemma {:induction false} DropNothingElse(q: seq<Message>, id: nat)
      ensures id !in Ids(q) ==> Drop(q, {id}) == q
    {
      if id !in Ids(q) {
        DropNothing(q, {id});
      }
    }

    /** The effect on the session's status. */
    method ObserveStatus(idle: bool, isCancelling: bool)
      modifies this
      ensures Now() == Next(old(Now()), Observes(idle, isCancelling))
    {
      EndWaitForTurn(idle, isCancelling);
      if !Has(manager.queuedMessages, LocalPausedAfterEsc) && !localPausedAutoDrainAwaitingTurn {
        localPausedAutoDrainArmed := false;
      }
      log := log + Marks(idle, isCancelling);
    }

    method EndWaitForTurn(idle: bool, isCancelling: bool)
      modifies this
      ensures Now() == EndWait(old(Now()), idle, isCancelling)
    {
      if localPausedAutoDrainAwaitingTurn {
        if !idle {
          localPausedAutoDrainSawBusy := true;
        } else if localPausedAutoDrainSawBusy && !isCancelling {
          localPausedAutoDrainAwaitingTurn := false;
          localPausedAutoDrainSawBusy := false;
        }
      }
    }

    /** The effect that starts the drain timer, after its cleanup cleared the previous one. */
    method ScheduleDrain(idle: bool, isCancelling: bool, hasDraftText: bool)
      modifies this
      ensures Now() == Next(old(Now()), Schedules(idle, isCancelling, hasDraftText))
    {
      timer := NoTimer;
      var hasDeferred := Has(manager.queuedMessages, LocalDeferredAfterEsc);
      var hasPaused := Has(manager.queuedMessages, LocalPausedAfterEsc);
      if localPausedAutoDrainArmed && idle && !isCancelling && !hasDeferred && hasPaused && !hasDraftText
        && !queuedReviewActive && !localPausedAutoDrainInFlight && !localPausedAutoDrainAwaitingTurn
      {
        timer := PausedTimer;
        return;
      }
      if !idle || isCancelling || !hasDeferred || hasDraftText || isDrainingLocalDeferredQueue {
        return;
      }
      timer := DeferredTimer;
    }

    method DrainNextLocalPausedMessage()
      modifies this, manager
      ensures Now() == DrainPaused(old(Now()))
    {
      if localPausedAutoDrainInFlight || localPausedAutoDrainAwaitingTurn {
        return;
      }
      var taken := manager.DequeueQueuedMessage(LocalPausedAfterEsc);
      if taken.None? {
        localPausedAutoDrainArmed := false;
        return;
      }
      log := log + [Took(taken.value)];
      SendPausedMessage(taken.value);
    }

    method SendPausedMessage(m: Message)
      modifies this, manager
      ensures Now() == SendPaused(old(Now()), m)
    {
      if m.files > 0 {
        manager.RestoreQueuedMessagesToFront([m]);
        localPausedAutoDrainArmed := false;
        queuedReviewActive := true;
        return;
      }
      if m.blank && m.images == 0 {
        done := done + [Done(m, false)];
        localPausedAutoDrainArmed := Has(manager.queuedMessages, LocalPausedAfterEsc);
        return;
      }
      localPausedAutoDrainInFlight := true;
      pausedCalls := pausedCalls + [m];
    }

    method DrainNextLocalDeferredMessage()
      modifies this, manager
      ensures Now() == DrainDeferred(old(Now()))
    {
      var taken := manager.DequeueQueuedMessage(LocalDeferredAfterEsc);
      if taken.None? {
        return;
      }
      var m := taken.value;
      if m.blank && m.images == 0 && m.files == 0 {
        done := done + [Done(m, false)];
        return;
      }
      isDrainingLocalDeferredQueue := true;
      deferredCalls := deferredCalls + [m];
    }

    method OnTimer()
      modifies this, manager
      ensures Now() == Next(old(Now()), TimerFires)
    {
      var fired := timer;
      timer := NoTimer;
      match fired
      case NoTimer =>
      case PausedTimer => DrainNextLocalPausedMessage();
      case DeferredTimer => DrainNextLocalDeferredMessage();
    }

    /** The answer of the oldest suspended call: its `then`, or its `catch` when it threw. */
    method OnPausedAnswer(verdict: Verdict)
      requires pausedCalls != []
      modifies this, manager
      ensures Now() == Next(old(Now()), PausedAnswers(verdict))
    {
      if verdict == Accepted {
        OnPausedAccepted();
      } else {
        OnPausedFailed(verdict);
      }
    }

    method OnPausedAccepted()
      requires pausedCalls != []
      modifies this
      ensures Now() == PausedAccepted(old(Now()))
    {
      ghost var next := PausedAccepted(Now());
      done := done + [Done(pausedCalls[0], true)];
      assert done == next.done;
      log := log + [TurnAccepted];
      assert log == next.log;
      pausedCalls, pausedFinals := pausedCalls[1..], pausedFinals + 1;
      localPausedAutoDrainAwaitingTurn, localPausedAutoDrainSawBusy := true, false;
      localPausedAutoDrainArmed := Has(manager.queuedMessages, LocalPausedAfterEsc);
    }

    method OnPausedFailed(verdict: Verdict)
      requires pausedCalls != [] && verdict != Accepted
      modifies this, manager
      ensures Now() == PausedThen(old(Now()), verdict)
    {
      manager.RestoreQueuedMessagesToFront([pausedCalls[0]]);
      localPausedAutoDrainArmed := false;
      pausedCalls, pausedFinals := pausedCalls[1..], pausedFinals + 1;
    }

    method OnPausedFinally()
      requires pausedFinals > 0
      modifies this
      ensures Now() == Next(old(Now()), PausedFinals)
    {
      pausedFinals, localPausedAutoDrainInFlight := pausedFinals - 1, false;
    }

    method OnDeferredAnswer(verdict: Verdict)
      requires deferredCalls != []
      modifies this, manager
      ensures Now() == Next(old(Now()), DeferredAnswers(verdict))
    {
      if verdict == Accepted {
        OnDeferredAccepted();
      } else {
        OnDeferredFailed(verdict);
      }
    }

    method OnDeferredAccepted()
      requires deferredCalls != []
      modifies this
      ensures Now() == DeferredThen(old(Now()), Accepted)
    {
      ghost var next := DeferredThen(Now(), Accepted);
      done := done + [Done(deferredCalls[0], true)];
      assert done == next.done;
      deferredCalls, deferredFinals := deferredCalls[1..], deferredFinals + 1;
    }

    method OnDeferredFailed(verdict: Verdict)
      requires deferredCalls != [] && verdict != Accepted
      modifies this, manager
      ensures Now() == DeferredThen(old(Now()), verdict)
    {
      manager.RestoreQueuedMessagesToFront([deferredCalls[0]]);
      deferredCalls, deferredFinals := deferredCalls[1..], deferredFinals + 1;
    }

    method OnDeferredFinally()
      requires deferredFinals > 0
      modifies this
      ensures Now() == Next(old(Now()), DeferredFinals)
    {
      deferredFinals, isDrainingLocalDeferredQueue := deferredFinals - 1, false;
    }

    /** The loop of the manual-compaction drain up to its next await, or to its end. */
    method ContinueBatch()
      modifies this
      ensures Now() == SkipEmpty(old(Now()))
    {
      while batch != [] && IsEmpty(batch[0])
        invariant SkipEmpty(Now()) == SkipEmpty(old(Now()))
        invariant manager.queuedMessages == old(manager.queuedMessages)
        decreases |batch|
      {
        done := done + [Done(batch[0], false)];
        batch := batch[1..];
      }
    }

    method DrainManualCompactionQueue()
      requires batch == []
      modifies this, manager
      ensures Now() == Next(old(Now()), BatchTaken)
    {
      batch := manager.DequeueQueuedMessages(LocalDeferredDuringManualCompaction);
      ContinueBatch();
    }

    method OnBatchAnswer(verdict: Verdict)
      requires batch != []
      modifies this, manager
      ensures Now() == Next(old(Now()), BatchAnswers(verdict))
    {
      if verdict != Accepted {
        manager.RestoreQueuedMessagesToFront(batch);
        batch := [];
        return;
      }
      done := done + [Done(batch[0], true)];
      batch := batch[1..];
      ContinueBatch();
    }
  }

  // ----- one manual-compaction drain from beginning to end

  /** The first message that is not empty and not accepted, |ms| when there is none. */
  function FirstFailure(ms: seq<Message>, verdicts: seq<Verdict>): (n: nat)
    requires |ms| == |verdicts|
    ensures n <= |ms|
    ensures n < |ms| ==> !IsEmpty(ms[n]) && verdicts[n] != Accepted
    ensures forall i :: 0 <= i < n ==> IsEmpty(ms[i]) || verdicts[i] == Accepted
  {
    if ms == [] then 0
    else if !IsEmpty(ms[0]) && verdicts[0] != Accepted then 0
    else 1 + FirstFailure(ms[1..], verdicts[1..])
  }

  function NonEmpty(ms: seq<Message>): seq<Message> {
    if ms == [] then []
    else if IsEmpty(Last(ms)) then NonEmpty(Front(ms))
    else NonEmpty(Front(ms)) + [Last(ms)]
  }

  /** What is queued while the drain waits for its messages: an empty one makes it wait for nothing. */
  function Arrived(ms: seq<Message>, arrivals: seq<seq<Message>>): seq<Message>
    requires |ms| == |arrivals|
  {
    if ms == [] then []
    else if IsEmpty(Last(ms)) then Arrived(Front(ms), Front(arrivals))
    else Arrived(Front(ms), Front(arrivals)) + Last(arrivals)
  }

  /** Each message has an id that none has before it. */
  ghost predicate Fresh(q: seq<Message>, ms: seq<Message>) {
    forall j :: 0 <= j < |ms| ==> ms[j].requestId !in Ids(q + ms[..j])
  }

  /** The messages queued during one await. */
  method QueueAll(manager: SessionStateManager, ms: seq<Message>)
    requires Fresh(manager.queuedMessages, ms)
    modifies manager
    ensures manager.queuedMessages == old(manager.queuedMessages) + ms
  {
    for j := 0 to |ms|
      invariant manager.queuedMessages == old(manager.queuedMessages) + ms[..j]
    {
      manager.QueueUserMessage(ms[j]);
    }
    assert ms[..|ms|] == ms;
  }

  /**
   * The taken messages before the first failure are accepted in order, but for the empty ones; from the
   * failure on they are back, ahead of the old queue and of all that was queued during the drain.
   */
  method DrainManualCompactionQueuedMessages(manager: SessionStateManager, queuedMessages: seq<Message>,
                                             verdicts: seq<Verdict>, arrivals: seq<seq<Message>>)
    returns (accepted: seq<Message>)
    requires |verdicts| == |queuedMessages| == |arrivals|
    requires DistinctIds(queuedMessages)
    requires Ids(queuedMessages) !! Ids(manager.queuedMessages + Arrived(queuedMessages, arrivals))
    requires DistinctIds(manager.queuedMessages + Arrived(queuedMessages, arrivals))
    modifies manager
    ensures var n := FirstFailure(queuedMessages, verdicts);
            var waited := if n < |queuedMessages| then n + 1 else n;
            && accepted == NonEmpty(queuedMessages[..n])
            && manager.queuedMessages ==
               queuedMessages[n..] + old(manager.queuedMessages)
               + Arrived(queuedMessages[..waited], arrivals[..waited])
  {
    hide Ids, DistinctIds, FirstFailure, IsEmpty;
    accepted := [];
    ghost var q := manager.queuedMessages;
    for i := 0 to |queuedMessages|
      invariant AllPass(queuedMessages, verdicts, i)
      invariant accepted == NonEmpty(queuedMessages[..i])
      invariant manager.queuedMessages == q + Arrived(queuedMessages[..i], arrivals[..i])
    {
      OneMore(queuedMessages, arrivals, i);
      if !IsEmpty(queuedMessages[i]) {
        var ok := SendOne(manager, queuedMessages, verdicts, arrivals, i, q);
        if !ok {
          FailureIs(queuedMessages, verdicts, i);
          return;
        }
        accepted := accepted + [queuedMessages[i]];
      }
    }
    FailureIs(queuedMessages, verdicts, |queuedMessages|);
  }

  ghost predicate AllPass(ms: seq<Message>, verdicts: seq<Verdict>, n: nat)
    requires |ms| == |verdicts| && n <= |ms|
  {
    forall j :: 0 <= j < n ==> IsEmpty(ms[j]) || verdicts[j] == Accepted
  }

  lemma {:induction false} FailureIs(ms: seq<Message>, verdicts: seq<Verdict>, n: nat)
    requires |ms| == |verdicts| && n <= |ms| && AllPass(ms, verdicts, n)
    requires n < |ms| ==> !IsEmpty(ms[n]) && verdicts[n] != Accepted
    ensures FirstFailure(ms, verdicts) == n
  {}

  /** One await and what is queued during it. */
  method Await(manager: SessionStateManager, ms: seq<Message>, arrivals: seq<seq<Message>>, i: nat,
               ghost q: seq<Message>)
    requires |ms| == |arrivals| && i < |ms| && !IsEmpty(ms[i]) && DistinctIds(q + Arrived(ms, arrivals))
    requires manager.queuedMessages == q + Arrived(ms[..i], arrivals[..i])
    modifies manager
    ensures manager.queuedMessages == q + Arrived(ms[..i + 1], arrivals[..i + 1])
  {
    hide Ids, DistinctIds, IsEmpty;
    OneMore(ms, arrivals, i);
    AllFresh(q, ms, arrivals, i);
    QueueAll(manager, arrivals[i]);
  }

  /** One message: the await, what is queued during it, and the way back when it is not accepted. */
  method SendOne(manager: SessionStateManager, ms: seq<Message>, verdicts: seq<Verdict>,
                 arrivals: seq<seq<Message>>, i: nat, ghost q: seq<Message>)
    returns (ok: bool)
    requires |verdicts| == |ms| == |arrivals| && i < |ms| && !IsEmpty(ms[i])
    requires DistinctIds(ms)
    requires Ids(ms) !! Ids(q + Arrived(ms, arrivals)) && DistinctIds(q + Arrived(ms, arrivals))
    requires manager.queuedMessages == q + Arrived(ms[..i], arrivals[..i])
    modifies manager
    ensures ok <==> verdicts[i] == Accepted
    ensures var now := q + Arrived(ms[..i + 1], arrivals[..i + 1]);
            manager.queuedMessages == if ok then now else ms[i..] + now
  {
    Await(manager, ms, arrivals, i, q);
    ok := verdicts[i] == Accepted;
    if !ok {
      StaysQueued(q, ms, arrivals, i);
      manager.RestoreQueuedMessagesToFront(ms[i..]);
    }
  }

  lemma {:induction false} OneMore(ms: seq<Message>, arrivals: seq<seq<Message>>, i: nat)
    requires |ms| == |arrivals| && i < |ms|
    ensures NonEmpty(ms[..i + 1]) == if IsEmpty(ms[i]) then NonEmpty(ms[..i]) else NonEmpty(ms[..i]) + [ms[i]]
    ensures Arrived(ms[..i + 1], arrivals[..i + 1]) ==
            if IsEmpty(ms[i]) then Arrived(ms[..i], arrivals[..i])
            else Arrived(ms[..i], arrivals[..i]) + arrivals[i]
  {
    assert Front(ms[..i + 1]) == ms[..i] && Front(arrivals[..i + 1]) == arrivals[..i];
  }

  lemma {:induction false} AllFresh(q: seq<Message>, ms: seq<Message>, arrivals: seq<seq<Message>>, i: nat)
    requires |ms| == |arrivals| && i < |ms| && !IsEmpty(ms[i])
    requires DistinctIds(q + Arrived(ms, arrivals))
    ensures Fresh(q + Arrived(ms[..i], arrivals[..i]), arrivals[i])
  {
    forall j | 0 <= j < |arrivals[i]|
      ensures arrivals[i][j].requestId !in Ids(q + Arrived(ms[..i], arrivals[..i]) + arrivals[i][..j])
    {
      ArrivesFresh(q, ms, arrivals, i, j);
    }
  }

  lemma {:induction false} ArrivedSplits(ms: seq<Message>, arrivals: seq<seq<Message>>, n: nat)
    requires |ms| == |arrivals| && n <= |ms|
    ensures Arrived(ms[..n], arrivals[..n]) <= Arrived(ms, arrivals)
    ensures Ids(Arrived(ms[..n], arrivals[..n])) <= Ids(Arrived(ms, arrivals))
    decreases |ms|
  {
    if n == |ms| {
      assert ms[..n] == ms && arrivals[..n] == arrivals;
    } else {
      ArrivedSplits(Front(ms), Front(arrivals), n);
      assert Front(ms)[..n] == ms[..n] && Front(arrivals)[..n] == arrivals[..n];
      Sum(Arrived(Front(ms), Front(arrivals)), Last(arrivals), DaemonQueued, {});
    }
  }

  /** Nothing in the queue has the id of a message that goes back. */
  lemma {:induction false} StaysQueued(q: seq<Message>, ms: seq<Message>, arrivals: seq<seq<Message>>, i: nat)
    requires |ms| == |arrivals| && i < |ms| && Ids(ms) !! Ids(q + Arrived(ms, arrivals)) && DistinctIds(ms)
    ensures var now := q + Arrived(ms[..i + 1], arrivals[..i + 1]);
            RestoreToFront(now, ms[i..]) == ms[i..] + now
  {
    ArrivedSplits(ms, arrivals, i + 1);
    IdsOfSuffix(ms, i);
    var now := q + Arrived(ms[..i + 1], arrivals[..i + 1]);
    Sum(q, Arrived(ms, arrivals), DaemonQueued, {});
    Sum(q, Arrived(ms[..i + 1], arrivals[..i + 1]), DaemonQueued, {});
    DropNothing(now, Ids(ms[i..]));
    MergeDistinct(ms[i..]);
  }

  lemma {:induction false} IdsOfSuffix(ms: seq<Message>, n: nat)
    requires n <= |ms|
    ensures Ids(ms[n..]) <= Ids(ms) && (DistinctIds(ms) ==> DistinctIds(ms[n..]))
  {
    assert ms == ms[..n] + ms[n..];
    Sum(ms[..n], ms[n..], DaemonQueued, {});
  }

  /** The j-th message queued while the drain waits for the i-th has an id that the queue does not have. */
  lemma {:induction false} ArrivesFresh(q: seq<Message>, ms: seq<Message>, arrivals: seq<seq<Message>>, i: nat, j: nat)
    requires |ms| == |arrivals| && i < |ms| && j < |arrivals[i]| && !IsEmpty(ms[i])
    requires DistinctIds(q + Arrived(ms, arrivals))
    ensures arrivals[i][j].requestId !in Ids(q + Arrived(ms[..i], arrivals[..i]) + arrivals[i][..j])
  {
    ArrivedSplits(ms, arrivals, i + 1);
    var b := arrivals[i];
    var head, all := Arrived(ms[..i], arrivals[..i]), Arrived(ms, arrivals);
    assert Front(ms[..i + 1]) == ms[..i] && Front(arrivals[..i + 1]) == arrivals[..i];
    var tail := all[|head + b|..];
    assert all == head + b + tail;
    Regroup(q, head, b, tail, j);
    NextIsFresh(q + head + b[..j], b[j], b[j + 1..] + tail);
  }

  lemma {:induction false} Regroup(q: seq<Message>, head: seq<Message>, b: seq<Message>, tail: seq<Message>, j: nat)
    requires j < |b|
    ensures q + (head + b + tail) == (q + head + b[..j]) + ([b[j]] + (b[j + 1..] + tail))
  {}

  lemma {:induction false} NextIsFresh(before: seq<Message>, m: Message, after: seq<Message>)
    requires DistinctIds(before + ([m] + after))
    ensures m.requestId !in Ids(before)
  {
    Sum(before, [m] + after, DaemonQueued, {});
    Sum([m], after, DaemonQueued, {});
    Single(m, DaemonQueued, {});
  }
}
