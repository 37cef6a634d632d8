/** The drains lose no message, deliver none twice, and keep the order in which messages were queued. */
module LocalQueueOrder {
  import opened Collections
  import opened QueuedMessages
  import opened LocalDrains
  import opened LocalDrainProperties

  /** The messages of a kind that drains are finished with, in the order they finished. */
  function Processed(done: seq<Done>, k: Kind): seq<Message> {
    if done == [] then []
    else if Last(done).message.kind == k then Processed(Front(done), k) + [Last(done).message]
    else Processed(Front(done), k)
  }

  /** The messages of a kind that a drain has taken and not finished with. */
  function Hand(s: State, k: Kind): seq<Message> {
    match k
    case LocalPausedAfterEsc => s.pausedCalls
    case LocalDeferredAfterEsc => s.deferredCalls
    case LocalDeferredDuringManualCompaction => s.batch
    case DaemonQueued => []
  }

  /** The messages of a kind that were ever queued and not withdrawn by the user, in queueing order. */
  function Live(s: State, k: Kind): seq<Message> {
    Drop(OfKind(s.known, k), s.withdrawn)
  }

  /** Finished, taken and waiting messages are, in this order, exactly the live ones. */
  ghost predicate Fifo(s: State, k: Kind) {
    Processed(s.done, k) + Hand(s, k) + OfKind(s.queue, k) == Live(s, k)
  }

  ghost predicate OrderInv(s: State) {
    && DistinctIds(s.known) && s.withdrawn <= Ids(s.known)
    && (forall k :: Fifo(s, k))
    && (forall k :: OfKind(Hand(s, k), k) == Hand(s, k))
  }

  lemma {:induction false} ProcessedSnoc(done: seq<Done>, d: Done, k: Kind)
    ensures Processed(done + [d], k) ==
            if d.message.kind == k then Processed(done, k) + [d.message] else Processed(done, k)
  {
    assert Front(done + [d]) == done;
  }

  // ----- ids keep the parts apart

  lemma {:induction false} KindsApart(q: seq<Message>, k: Kind, other: Kind)
    requires DistinctIds(q)
    ensures DistinctIds(OfKind(q, k)) && Ids(OfKind(q, k)) <= Ids(q)
    ensures k != other ==> Ids(OfKind(q, k)) !! Ids(OfKind(q, other))
  {
    TakeAllIds(q, k);
    TakeAll(q, k, other);
    TakeAllIds(NotOfKind(q, k), other);
  }

  lemma {:induction false} PartsApart(s: State, k: Kind, other: Kind)
    requires OrderInv(s)
    ensures Ids(OfKind(s.queue, other)) !! Ids(Hand(s, k))
    ensures Ids(OfKind(s.queue, other)) !! Ids(Processed(s.done, k))
  {
    KindsApart(s.known, k, other);
    KindsApart(s.known, other, k);
    LiveParts(s, k);
    LiveParts(s, other);
  }

  lemma {:induction false} LiveParts(s: State, k: Kind)
    requires OrderInv(s)
    ensures var p, h, q := Processed(s.done, k), Hand(s, k), OfKind(s.queue, k);
            && Ids(p) + Ids(h) + Ids(q) <= Ids(OfKind(s.known, k))
            && Ids(p) !! Ids(q) && Ids(h) !! Ids(q)
  {
    var p, h, q := Processed(s.done, k), Hand(s, k), OfKind(s.queue, k);
    assert Fifo(s, k);
    KindsApart(s.known, k, k);
    DropOfKind(OfKind(s.known, k), k, s.withdrawn);
    Sum(p + h, q, k, {});
    Sum(p, h, k, {});
  }

  lemma {:induction false} HandIsDistinct(s: State, k: Kind)
    requires OrderInv(s)
    ensures DistinctIds(Hand(s, k))
  {
    hide Ids, DistinctIds, OfKind, Drop;
    var p, h, q := Processed(s.done, k), Hand(s, k), OfKind(s.queue, k);
    assert Fifo(s, k);
    KindsApart(s.known, k, k);
    DropOfKind(OfKind(s.known, k), k, s.withdrawn);
    Sum(p + h, q, k, {});
    Sum(p, h, k, {});
  }

  /** Putting back what a drain of kind k holds puts it ahead of the queue and drops nothing. */
  lemma {:induction false} RestoreIs(s: State, k: Kind, other: Kind)
    requires OrderInv(s)
    ensures OfKind(RestoreToFront(s.queue, Hand(s, k)), other) ==
            if other == k then Hand(s, k) + OfKind(s.queue, k) else OfKind(s.queue, other)
  {
    hide OfKind, Ids, Drop, Merge;
    var h := Hand(s, k);
    PartsApart(s, k, other);
    HandIsDistinct(s, k);
    MergeDistinct(h);
    DropOfKind(s.queue, other, Ids(h));
    DropNothing(OfKind(s.queue, other), Ids(h));
    Sum(h, Drop(s.queue, Ids(h)), other, {});
    KindsAre(h, k, other);
  }

  // ----- the moves

  lemma {:induction false} TakesFifo(s: State, t: State, k: Kind, j: Kind)
    requires Fifo(s, j) && FirstOf(s.queue, k) < |s.queue|
    requires t.queue == Without(s.queue, FirstOf(s.queue, k)) && t.done == s.done
    requires t.known == s.known && t.withdrawn == s.withdrawn
    requires if j == k then Hand(s, j) == [] && Hand(t, j) == [s.queue[FirstOf(s.queue, k)]]
             else Hand(t, j) == Hand(s, j)
    ensures Fifo(t, j)
  {
    TakeFirst(s.queue, k, j);
    var p, q, r := Processed(s.done, j), OfKind(s.queue, j), OfKind(t.queue, j);
    if j == k {
      assert p + [] + ([s.queue[FirstOf(s.queue, k)]] + r) == p + [s.queue[FirstOf(s.queue, k)]] + r;
    }
  }

  lemma {:induction false} Takes(s: State, t: State, k: Kind)
    requires OrderInv(s) && FirstOf(s.queue, k) < |s.queue| && Hand(s, k) == []
    requires t.queue == Without(s.queue, FirstOf(s.queue, k)) && t.done == s.done
    requires t.known == s.known && t.withdrawn == s.withdrawn
    requires Hand(t, k) == [s.queue[FirstOf(s.queue, k)]] && (forall j :: j != k ==> Hand(t, j) == Hand(s, j))
    ensures OrderInv(t)
  {
    FirstOfIs(s.queue, k);
    Single(s.queue[FirstOf(s.queue, k)], k, {});
    forall j ensures Fifo(t, j) { TakesFifo(s, t, k, j); }
  }

  lemma {:induction false} FinishesFifo(s: State, t: State, k: Kind, m: Message, accepted: bool, j: Kind)
    requires Fifo(s, j) && m.kind == k
    requires t.queue == s.queue && t.done == s.done + [Done(m, accepted)]
    requires t.known == s.known && t.withdrawn == s.withdrawn
    requires if j == k then Hand(s, j) == [m] + Hand(t, j) else Hand(t, j) == Hand(s, j)
    ensures Fifo(t, j)
  {
    hide Processed, OfKind, Live;
    ProcessedSnoc(s.done, Done(m, accepted), j);
    Shifted(Processed(s.done, j), m, Hand(t, j), OfKind(s.queue, j));
    assert Live(t, j) == Live(s, j) by { SameLive(s, t, j); }
  }

  lemma {:induction false} SameLive(s: State, t: State, k: Kind)
    requires t.known == s.known && t.withdrawn == s.withdrawn
    ensures Live(t, k) == Live(s, k)
  {}

  lemma {:induction false} Shifted(p: seq<Message>, m: Message, h: seq<Message>, q: seq<Message>)
    ensures p + ([m] + h) + q == (p + [m]) + h + q
  {}

  /** The head of what a drain holds is finished. */
  lemma {:induction false} Finishes(s: State, t: State, k: Kind, accepted: bool)
    requires OrderInv(s) && Hand(s, k) != []
    requires t.queue == s.queue && t.done == s.done + [Done(Hand(s, k)[0], accepted)]
    requires t.known == s.known && t.withdrawn == s.withdrawn
    requires Hand(t, k) == Hand(s, k)[1..] && (forall j :: j != k ==> Hand(t, j) == Hand(s, j))
    ensures OrderInv(t)
  {
    var m, rest := Hand(s, k)[0], Hand(t, k);
    assert Hand(s, k) == [m] + rest;
    HeadOfKind(m, rest, k);
    forall j ensures Fifo(t, j) { FinishesFifo(s, t, k, m, accepted, j); }
  }

  lemma {:induction false} HeadOfKind(m: Message, rest: seq<Message>, k: Kind)
    requires OfKind([m] + rest, k) == [m] + rest
    ensures m.kind == k && OfKind(rest, k) == rest
  {
    Sum([m], rest, k, {});
    Single(m, k, {});
    OfKindLength(rest, k);
    assert |OfKind([m] + rest, k)| == 1 + |rest|;
    assert ([m] + OfKind(rest, k))[1..] == OfKind(rest, k);
  }

  lemma {:induction false} OfKindLength(q: seq<Message>, k: Kind)
    ensures |OfKind(q, k)| <= |q|
  {
    if q != [] {
      OfKindLength(Front(q), k);
    }
  }

  /** All that a drain holds goes back to the front. */
  lemma {:induction false} Returns(s: State, t: State, k: Kind)
    requires OrderInv(s)
    requires t.queue == RestoreToFront(s.queue, Hand(s, k)) && t.done == s.done
    requires t.known == s.known && t.withdrawn == s.withdrawn
    requires Hand(t, k) == [] && (forall j :: j != k ==> Hand(t, j) == Hand(s, j))
    ensures OrderInv(t)
  {
    forall j ensures Fifo(t, j) {
      assert Fifo(s, j);
      RestoreIs(s, k, j);
    }
  }

  lemma {:induction false} Appended(p: seq<Message>, h: seq<Message>, q: seq<Message>, live: seq<Message>, m: Message)
    requires p + h + q == live
    ensures p + h + (q + [m]) == live + [m]
  {}

  lemma {:induction false} EnqueueKeepsFifo(s: State, t: State, m: Message, k: Kind)
    requires Fifo(s, k) && m.requestId !in s.withdrawn
    requires t.queue == s.queue + [m] && t.known == s.known + [m] && t.withdrawn == s.withdrawn
    requires t.done == s.done && Hand(t, k) == Hand(s, k)
    ensures Fifo(t, k)
  {
    var p, h, q, live := Processed(s.done, k), Hand(s, k), OfKind(s.queue, k), Live(s, k);
    assert OfKind(t.queue, k) == if m.kind == k then q + [m] else q by {
      SnocOfKind(s.queue, m, k, s.withdrawn);
    }
    assert Live(t, k) == if m.kind == k then live + [m] else live by {
      SnocOfKind(s.known, m, k, s.withdrawn);
    }
    Appended(p, h, q, live, m);
  }

  lemma {:induction false} SnocOfKind(q: seq<Message>, m: Message, k: Kind, ids: set<nat>)
    ensures OfKind(q + [m], k) == if m.kind == k then OfKind(q, k) + [m] else OfKind(q, k)
    ensures m.requestId !in ids ==>
              Drop(OfKind(q + [m], k), ids) ==
              if m.kind == k then Drop(OfKind(q, k), ids) + [m] else Drop(OfKind(q, k), ids)
  {
    assert Front(q + [m]) == q;
    assert Front(OfKind(q, k) + [m]) == OfKind(q, k);
  }

  lemma {:induction false} EnqueueKeepsOrder(s: State, m: Message)
    requires OrderInv(s)
    ensures OrderInv(Enqueue(s, m))
  {
    hide OfKind, Drop, Processed;
    var t := Enqueue(s, m);
    if m.requestId !in Ids(s.known) {
      Single(m, m.kind, {});
      Sum(s.known, [m], m.kind, {});
      forall k ensures Fifo(t, k) {
        assert Fifo(s, k);
        EnqueueKeepsFifo(s, t, m, k);
      }
      forall k ensures OfKind(Hand(t, k), k) == Hand(t, k) { assert OfKind(Hand(s, k), k) == Hand(s, k); }
    }
  }

  lemma {:induction false} SomeKind(q: seq<Message>, id: nat) returns (k: Kind)
    requires id in Ids(q)
    ensures id in Ids(OfKind(q, k))
  {
    if Last(q).requestId == id {
      k := Last(q).kind;
      Sum(OfKind(Front(q), k), [Last(q)], k, {});
      Single(Last(q), k, {});
    } else {
      k := SomeKind(Front(q), id);
      Sum(OfKind(Front(q), k), [Last(q)], k, {});
    }
  }

  lemma {:induction false} WithdrawKeepsOrder(s: State, id: nat)
    requires OrderInv(s)
    ensures OrderInv(Withdraw(s, id))
  {
    var t := Withdraw(s, id);
    if id in Ids(s.queue) {
      var at := SomeKind(s.queue, id);
      LiveParts(s, at);
      KindsApart(s.known, at, at);
      forall k ensures Fifo(t, k) {
        var p, h, q := Processed(s.done, k), Hand(s, k), OfKind(s.queue, k);
        assert Fifo(s, k);
        PartsApart(s, k, at);
        DropNothing(p, {id});
        DropNothing(h, {id});
        Sum(p + h, q, k, {id});
        Sum(p, h, k, {id});
        DropOfKind(s.queue, k, {id});
        DropDrop(OfKind(s.known, k), s.withdrawn, {id});
      }
      forall k ensures OfKind(Hand(t, k), k) == Hand(t, k) { assert OfKind(Hand(s, k), k) == Hand(s, k); }
    }
  }

  /** After m was taken: it is put back, skipped, or on its way. */
  ghost predicate PausedOutcome(u: State, t: State, m: Message) {
    && t.known == u.known && t.withdrawn == u.withdrawn
    && t.deferredCalls == u.deferredCalls && t.batch == u.batch
    && (|| (t.queue == RestoreToFront(u.queue, [m]) && t.pausedCalls == [] && t.done == u.done)
        || (t.queue == u.queue && t.pausedCalls == [] && t.done == u.done + [Done(m, false)])
        || (t.queue == u.queue && t.pausedCalls == [m] && t.done == u.done))
  }

  lemma {:induction false} PausedOutcomes(s: State)
    requires var i := FirstOf(s.queue, LocalPausedAfterEsc);
             !s.inFlight && !s.awaiting && s.pausedCalls == [] && i < |s.queue|
    ensures var i := FirstOf(s.queue, LocalPausedAfterEsc);
            PausedOutcome(s.(queue := Without(s.queue, i)), DrainPaused(s), s.queue[i])
  {
    hide OfKind, Ids, Drop, FirstOf, Processed;
  }

  lemma {:induction false} PausedTaken(u: State, t: State)
    requires OrderInv(u) && |u.pausedCalls| == 1 && PausedOutcome(u, t, u.pausedCalls[0])
    ensures OrderInv(t)
  {
    assert u.pausedCalls == [u.pausedCalls[0]];
    if t.pausedCalls == u.pausedCalls {
      SameParts(u, t);
    } else if t.done == u.done {
      Returns(u, t, LocalPausedAfterEsc);
    } else {
      Finishes(u, t, LocalPausedAfterEsc, false);
    }
  }

  lemma {:induction false} PausedDrainKeepsOrder(s: State)
    requires OrderInv(s) && CallsInv(s)
    ensures OrderInv(DrainPaused(s))
  {
    var i := FirstOf(s.queue, LocalPausedAfterEsc);
    if !s.inFlight && !s.awaiting && i < |s.queue| {
      var u := s.(queue := Without(s.queue, i), pausedCalls := [s.queue[i]]);
      Takes(s, u, LocalPausedAfterEsc);
      PausedOutcomes(s);
      PausedTaken(u, DrainPaused(s));
    } else {
      SameParts(s, s.(armed := false));
    }
  }

  lemma {:induction false} DeferredDrainKeepsOrder(s: State)
    requires OrderInv(s) && CallsInv(s) && !s.draining
    ensures OrderInv(DrainDeferred(s))
  {
    var i := FirstOf(s.queue, LocalDeferredAfterEsc);
    if i < |s.queue| {
      var m := s.queue[i];
      var u := s.(queue := Without(s.queue, i), deferredCalls := [m]);
      Takes(s, u, LocalDeferredAfterEsc);
      if IsEmpty(m) {
        Finishes(u, DrainDeferred(s), LocalDeferredAfterEsc, false);
      } else {
        SameParts(u, DrainDeferred(s));
      }
    }
  }

  lemma {:induction false} SameParts(s: State, t: State)
    requires OrderInv(s)
    requires t.queue == s.queue && t.done == s.done && t.known == s.known && t.withdrawn == s.withdrawn
    requires t.pausedCalls == s.pausedCalls && t.deferredCalls == s.deferredCalls && t.batch == s.batch
    ensures OrderInv(t)
  {
    forall k ensures Fifo(t, k) && Hand(t, k) == Hand(s, k) { assert Fifo(s, k); }
  }

  lemma {:induction false} PausedThenKeepsOrder(s: State, v: Verdict)
    requires OrderInv(s) && CallsInv(s)
    ensures OrderInv(PausedThen(s, v))
  {
    hide OrderInv, OfKind, Ids, Drop, Processed;
    if s.pausedCalls != [] {
      assert s.pausedCalls == [s.pausedCalls[0]];
      if v == Accepted {
        Finishes(s, PausedThen(s, v), LocalPausedAfterEsc, true);
      } else {
        Returns(s, PausedThen(s, v), LocalPausedAfterEsc);
      }
    }
  }

  lemma {:induction false} DeferredThenKeepsOrder(s: State, v: Verdict)
    requires OrderInv(s) && CallsInv(s)
    ensures OrderInv(DeferredThen(s, v))
  {
    hide OrderInv, OfKind, Ids, Drop, Processed;
    if s.deferredCalls != [] {
      assert s.deferredCalls == [s.deferredCalls[0]];
      if v == Accepted {
        Finishes(s, DeferredThen(s, v), LocalDeferredAfterEsc, true);
      } else {
        Returns(s, DeferredThen(s, v), LocalDeferredAfterEsc);
      }
    }
  }

  lemma {:induction false} SkipKeepsOrder(s: State)
    requires OrderInv(s)
    ensures OrderInv(SkipEmpty(s))
    decreases |s.batch|
  {
    if s.batch != [] && IsEmpty(s.batch[0]) {
      var t := s.(done := s.done + [Done(s.batch[0], false)], batch := s.batch[1..]);
      Finishes(s, t, LocalDeferredDuringManualCompaction, false);
      SkipKeepsOrder(t);
    }
  }

  lemma {:induction false} TakeBatchKeepsOrder(s: State)
    requires OrderInv(s)
    ensures OrderInv(TakeBatch(s))
  {
    hide Ids, DistinctIds, Drop, Processed, SkipEmpty;
    if s.batch == [] {
      var k := LocalDeferredDuringManualCompaction;
      var t := s.(queue := NotOfKind(s.queue, k), batch := OfKind(s.queue, k));
      forall j ensures Fifo(t, j) {
        assert Fifo(s, j);
        TakeAll(s.queue, k, j);
      }
      forall j ensures OfKind(Hand(t, j), j) == Hand(t, j) {
        assert OfKind(Hand(s, j), j) == Hand(s, j);
        TakeAll(s.queue, k, j);
      }
      SkipKeepsOrder(t);
    }
  }

  lemma {:induction false} BatchThenKeepsOrder(s: State, v: Verdict)
    requires OrderInv(s)
    ensures OrderInv(BatchThen(s, v))
  {
    if s.batch != [] {
      if v == Accepted {
        var t := s.(done := s.done + [Done(s.batch[0], true)], batch := s.batch[1..]);
        Finishes(s, t, LocalDeferredDuringManualCompaction, true);
        SkipKeepsOrder(t);
      } else {
        Returns(s, BatchThen(s, v), LocalDeferredDuringManualCompaction);
      }
    }
  }

  lemma {:induction false} TimerKeepsOrder(s: State)
    requires OrderInv(s) && CallsInv(s)
    ensures OrderInv(FireTimer(s))
  {
    hide OrderInv, DrainPaused, DrainDeferred;
    SameParts(s, s.(timer := NoTimer));
    if s.timer == PausedTimer { PausedDrainKeepsOrder(s.(timer := NoTimer)); }
    if s.timer == DeferredTimer { DeferredDrainKeepsOrder(s.(timer := NoTimer)); }
  }

  // The events that change refs only.

  lemma {:induction false} ObserveKeepsOrder(s: State, idle: bool, cancelling: bool)
    requires OrderInv(s)
    ensures OrderInv(Observe(s, idle, cancelling))
  {
    hide OrderInv, Has, Marks;
    var t := EndWait(s, idle, cancelling);
    SameParts(s, t);
    SameParts(t, Disarm(t));
    SameParts(Disarm(t), Observe(s, idle, cancelling));
  }

  lemma {:induction false} ScheduleKeepsOrder(s: State, idle: bool, cancelling: bool, draft: bool)
    requires OrderInv(s)
    ensures OrderInv(Schedule(s, idle, cancelling, draft))
  {
    hide OrderInv, Has, ShouldAutoDrain;
    SameParts(s, s.(timer := Schedule(s, idle, cancelling, draft).timer));
  }

  lemma {:induction false} NextKeepsOrder(s: State, e: Event)
    requires OrderInv(s) && CallsInv(s)
    ensures OrderInv(Next(s, e))
  {
    hide OrderInv, Enqueue, Withdraw, TakeBatch, BatchThen, PausedThen, DeferredThen, FireTimer, CallsInv,
      Observe, Schedule;
    match e
    case Queues(m) => EnqueueKeepsOrder(s, m);
    case Withdraws(id) => WithdrawKeepsOrder(s, id);
    case TimerFires => TimerKeepsOrder(s);
    case PausedAnswers(v) => PausedThenKeepsOrder(s, v);
    case DeferredAnswers(v) => DeferredThenKeepsOrder(s, v);
    case BatchTaken => TakeBatchKeepsOrder(s);
    case BatchAnswers(v) => BatchThenKeepsOrder(s, v);
    case Observes(idle, cancelling) => ObserveKeepsOrder(s, idle, cancelling);
    case Schedules(idle, cancelling, draft) => ScheduleKeepsOrder(s, idle, cancelling, draft);
    case _ => SameParts(s, Next(s, e));
  }

  lemma {:induction false} RunOrder(es: seq<Event>)
    ensures OrderInv(Run(es))
  {
    if es != [] {
      RunOrder(Front(es));
      RunTurn(Front(es));
      NextKeepsOrder(Run(Front(es)), Last(es));
    }
  }

  // ----- main results

  /**
   * At every moment the messages of a kind that were queued and not withdrawn are, in queueing order: those
   * accepted or skipped, those a drain holds, those in the queue. So none is lost, none is delivered twice,
   * and each drain finishes messages in the order they were queued.
   */
  lemma {:induction false} NothingLostOrReordered(es: seq<Event>, k: Kind)
    ensures var s := Run(es);
            Processed(s.done, k) + Hand(s, k) + OfKind(s.queue, k) == Drop(OfKind(s.known, k), s.withdrawn)
  {
    RunOrder(es);
    assert Fifo(Run(es), k);
  }

  /** No request id appears twice among the finished, held and waiting messages of a kind. */
  lemma {:induction false} NothingDuplicated(es: seq<Event>, k: Kind)
    ensures var s := Run(es);
            DistinctIds(Processed(s.done, k) + Hand(s, k) + OfKind(s.queue, k))
  {
    RunOrder(es);
    var s := Run(es);
    assert Fifo(s, k);
    KindsApart(s.known, k, k);
    DropOfKind(OfKind(s.known, k), k, s.withdrawn);
  }

  /** A rejected or failed batch goes back, from the failed message on, ahead of all that was queued meanwhile. */
  lemma {:induction false} FailedBatchGoesToTheFront(es: seq<Event>, v: Verdict)
    requires v != Accepted
    ensures var s := Run(es);
            var t := Next(s, BatchAnswers(v));
            && t.queue == s.batch + s.queue && t.batch == [] && t.done == s.done
  {
    hide OrderInv, OfKind, Drop, SkipEmpty, Run, Ids, DistinctIds, Merge;
    RunOrder(es);
    var s := Run(es);
    var k := LocalDeferredDuringManualCompaction;
    if exists id :: id in Ids(s.queue) && id in Ids(s.batch) {
      var id :| id in Ids(s.queue) && id in Ids(s.batch);
      var at := SomeKind(s.queue, id);
      PartsApart(s, k, at);
    }
    DropNothing(s.queue, Ids(s.batch));
    HandIsDistinct(s, k);
    MergeDistinct(s.batch);
  }
}
