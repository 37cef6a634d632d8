/** Where a submitted text goes: refused, parked in one of the local queues, or run. */
module SubmitRouting {
  import opened Collections

  /** The facts about a trimmed text. text is its identity, 0 the empty text. */
  datatype Submission = Submission(text: nat, slash: bool, deferredPrompt: bool, btw: bool, setup: bool, endOfLoop: bool)

  /** What the component sees when the text is submitted. */
  datatype View = View(modelsBlocked: bool, compacting: bool, running: bool, cancelling: bool,
                       hasPaused: bool, blocksForPaused: bool, hasDeferred: bool)

  datatype Route = Dropped | Refused | Compaction | Paused | Deferred | Run

  /** The refs: an Esc was requested and not yet consumed, and the text that was put back into the input. */
  datatype State = State(escRequested: bool, restored: Option<nat>)

  predicate BlocksQueue(sub: Submission) { sub.slash && !sub.deferredPrompt }

  predicate IsRestoredHead(s: State, sub: Submission) {
    !BlocksQueue(sub) && s.restored == Some(sub.text)
  }

  predicate ShouldQueueBehindPaused(s: State, v: View, sub: Submission) {
    && v.blocksForPaused && sub.endOfLoop && !BlocksQueue(sub) && !IsRestoredHead(s, sub)
    && (v.running || v.cancelling)
  }

  predicate ShouldDefer(s: State, v: View, sub: Submission) {
    !BlocksQueue(sub) && !IsRestoredHead(s, sub) && (v.hasDeferred || s.escRequested || v.cancelling)
  }

  function RouteOf(s: State, v: View, sub: Submission): Route {
    if sub.text == 0 then Dropped
    else if v.modelsBlocked && !sub.setup then Refused
    else if v.compacting then (if BlocksQueue(sub) then Refused else Compaction)
    else if ShouldQueueBehindPaused(s, v, sub) then Paused
    else if ShouldDefer(s, v, sub) then Deferred
    else if v.running && BlocksQueue(sub) && !sub.btw then Refused
    else Run
  }

  function Submit(s: State, v: View, sub: Submission): State {
    var route := RouteOf(s, v, sub);
    if route == Dropped || (v.modelsBlocked && !sub.setup) then s
    else if IsRestoredHead(s, sub) then State(false, None)
    else if route == Deferred then s.(escRequested := false)
    else s
  }

  class Composer {
    var escInterruptRequested: bool
    var restoredQueuedHeadText: Option<nat>

    constructor ()
      ensures Now() == State(false, None)
    {
      escInterruptRequested, restoredQueuedHeadText := false, None;
    }

    function Now(): State
      reads this
    {
      State(escInterruptRequested, restoredQueuedHeadText)
    }

    /** arm says whether an accepted run arms the auto-drain of the paused queue. */
    method HandleSubmit(sub: Submission, v: View) returns (route: Route, arm: bool)
      modifies this
      ensures route == RouteOf(old(Now()), v, sub) && Now() == Submit(old(Now()), v, sub)
      ensures arm <==> route == Run && !(sub.slash && !sub.deferredPrompt) && v.hasPaused
                       && old(restoredQueuedHeadText) == Some(sub.text)
    {
      if sub.text == 0 {
        return Dropped, false;
      }
      if v.modelsBlocked && !sub.setup {
        return Refused, false;
      }
      var blocksRunningSessionQueue := sub.slash && !sub.deferredPrompt;
      var isRestored := !blocksRunningSessionQueue && restoredQueuedHeadText == Some(sub.text);
      var shouldArmAutoDrain := isRestored && v.hasPaused;
      if isRestored {
        restoredQueuedHeadText := None;
        escInterruptRequested := false;
      }
      if v.compacting {
        return if blocksRunningSessionQueue then Refused else Compaction, false;
      }
      if v.blocksForPaused && sub.endOfLoop && !blocksRunningSessionQueue && !isRestored
        && (v.running || v.cancelling)
      {
        return Paused, false;
      }
      if !blocksRunningSessionQueue && !isRestored
        && (v.hasDeferred || escInterruptRequested || v.cancelling)
      {
        escInterruptRequested := false;
        return Deferred, false;
      }
      if v.running && blocksRunningSessionQueue && !sub.btw {
        return Refused, false;
      }
      return Run, shouldArmAutoDrain;
    }
  }

  // ----- runs

  datatype Event =
    | Esc
    | EscFailed
    | Restores(text: nat)
    | Submits(view: View, sub: Submission)

  function Next(s: State, e: Event): State {
    match e
    case Esc => s.(escRequested := true)
    case EscFailed => s.(escRequested := false)
    case Restores(text) => s.(restored := Some(text))
    case Submits(v, sub) => Submit(s, v, sub)
  }

  function After(es: seq<Event>): State {
    if es == [] then State(false, None) else Next(After(Front(es)), Last(es))
  }

  /** The text that was put back is submitted, and not refused for lack of a model. */
  predicate TakesRestored(s: State, v: View, sub: Submission) {
    sub.text != 0 && !(v.modelsBlocked && !sub.setup) && IsRestoredHead(s, sub)
  }

  /** The event uses up a request: a prompt is parked for it, the restored text is sent, or the interrupt failed. */
  predicate Consumes(s: State, e: Event) {
    || e.EscFailed?
    || (e.Submits? && (RouteOf(s, e.view, e.sub) == Deferred || TakesRestored(s, e.view, e.sub)))
  }

  /** The i-th event is an Esc that no later event has used up. */
  ghost predicate IsUnconsumed(es: seq<Event>, i: nat) {
    i < |es| && es[i] == Esc && forall k :: i < k < |es| ==> !Consumes(After(es[..k]), es[k])
  }

  lemma {:induction false} UnconsumedSnoc(es: seq<Event>, i: nat)
    requires i + 1 < |es|
    ensures IsUnconsumed(es, i) <==> IsUnconsumed(Front(es), i) && !Consumes(After(Front(es)), Last(es))
  {
    hide Consumes, After;
    var f := Front(es);
    assert forall k :: 0 <= k <= |f| ==> f[..k] == es[..k];
    assert f[..|f|] == f;
    if IsUnconsumed(es, i) {
      assert !Consumes(After(es[..|f|]), es[|f|]);
    }
  }

  /** The ref is set exactly when some Esc has not been used up. */
  lemma {:induction false} EscIsPendingExactlyWhen(es: seq<Event>)
    ensures After(es).escRequested <==> exists i: nat :: IsUnconsumed(es, i)
  {
    hide IsUnconsumed;
    if es == [] {
      NothingUnconsumed();
    } else {
      var f := Front(es);
      EscIsPendingExactlyWhen(f);
      StepKeepsRequest(After(f), Last(es));
      if exists i: nat :: IsUnconsumed(es, i) {
        var i: nat :| IsUnconsumed(es, i);
        IndexBelow(es, i);
        if i + 1 < |es| { UnconsumedSnoc(es, i); }
      }
      if exists i: nat :: IsUnconsumed(f, i) && !Consumes(After(f), Last(es)) {
        var i: nat :| IsUnconsumed(f, i);
        IndexBelow(f, i);
        UnconsumedSnoc(es, i);
      }
      if Last(es) == Esc {
        LastIsUnconsumed(es);
      }
    }
  }

  lemma {:induction false} NothingUnconsumed()
    ensures forall i: nat :: !IsUnconsumed([], i)
  {}

  lemma {:induction false} IndexBelow(es: seq<Event>, i: nat)
    requires IsUnconsumed(es, i)
    ensures i < |es| && es[i] == Esc
  {}

  lemma {:induction false} LastIsUnconsumed(es: seq<Event>)
    requires es != [] && Last(es) == Esc
    ensures IsUnconsumed(es, |es| - 1)
  {}

  lemma {:induction false} StepKeepsRequest(s: State, e: Event)
    ensures Next(s, e).escRequested <==> e == Esc || (s.escRequested && !Consumes(s, e))
  {}

  /**
   * After an Esc no prompt is run before a prompt was parked in the deferred queue, the restored text was
   * sent, or the interrupt failed: a follow-up cannot race the interrupt.
   */
  lemma {:induction false} NoPromptRacesTheInterrupt(es: seq<Event>, i: nat, j: nat)
    requires i < j < |es| && es[i] == Esc && es[j].Submits? && !BlocksQueue(es[j].sub)
    requires RouteOf(After(es[..j]), es[j].view, es[j].sub) == Run
    ensures exists k :: i < k <= j && Consumes(After(es[..k]), es[k])
  {
    var before := es[..j];
    if forall k :: i < k < j ==> !Consumes(After(es[..k]), es[k]) {
      assert forall k :: 0 <= k < j ==> before[..k] == es[..k];
      assert IsUnconsumed(before, i);
      EscIsPendingExactlyWhen(before);
      RunsOnlyWhenNothingIsAhead(After(before), es[j].view, es[j].sub);
      assert Consumes(After(es[..j]), es[j]);
    }
  }

  lemma {:induction false} RunsOnlyWhenNothingIsAhead(s: State, v: View, sub: Submission)
    ensures RouteOf(s, v, sub) == Run && !BlocksQueue(sub) && !IsRestoredHead(s, sub) ==>
              && !v.hasDeferred && !v.cancelling && !s.escRequested
              && (v.blocksForPaused && sub.endOfLoop ==> !v.running)
    ensures RouteOf(s, v, sub) == Run && BlocksQueue(sub) ==> !v.running || sub.btw
    ensures BlocksQueue(sub) ==> RouteOf(s, v, sub) !in {Compaction, Paused, Deferred}
  {}

  // ----- where each kind of text goes

  /** The text that was put back into the input last and has not been submitted since. */
  function RestoredBy(es: seq<Event>): Option<nat> {
    if es == [] then None
    else
      var before := RestoredBy(Front(es));
      match Last(es)
      case Restores(text) => Some(text)
      case Submits(v, sub) =>
        var prompt := !sub.slash || sub.deferredPrompt;
        if prompt && sub.text != 0 && (!v.modelsBlocked || sub.setup) && before == Some(sub.text) then None else before
      case _ => before
  }

  lemma {:induction false} RestoredIs(es: seq<Event>)
    ensures After(es).restored == RestoredBy(es)
  {
    if es != [] {
      RestoredIs(Front(es));
    }
  }

  /** Some Esc has not been used up. */
  ghost predicate EscIsPending(es: seq<Event>) { exists i: nat :: IsUnconsumed(es, i) }

  /**
   * A prompt that is not refused for lack of a model always has its place: while the session compacts it is
   * parked for that. Otherwise the text that was put back runs at once; any other prompt is parked behind paused
   * messages when it waits for the end of a busy loop, then behind a deferred message, a cancel or a pending
   * Esc, and runs exactly when nothing of this is ahead.
   */
  lemma {:induction false} EveryPromptHasItsPlace(es: seq<Event>, v: View, sub: Submission)
    requires sub.text != 0 && (!v.modelsBlocked || sub.setup) && (!sub.slash || sub.deferredPrompt)
    ensures var putBack := RestoredBy(es) == Some(sub.text);
            var behindPaused := v.blocksForPaused && sub.endOfLoop && (v.running || v.cancelling);
            var behindDeferred := v.hasDeferred || v.cancelling || EscIsPending(es);
            && (RouteOf(After(es), v, sub) == Compaction <==> v.compacting)
            && (RouteOf(After(es), v, sub) == Paused <==> !v.compacting && !putBack && behindPaused)
            && (RouteOf(After(es), v, sub) == Deferred <==>
                  !v.compacting && !putBack && !behindPaused && behindDeferred)
            && (RouteOf(After(es), v, sub) == Run <==>
                  !v.compacting && (putBack || (!behindPaused && !behindDeferred)))
  {
    hide IsUnconsumed;
    EscIsPendingExactlyWhen(es);
    RestoredIs(es);
  }

  /** A slash command is never parked: it runs, or is refused while the session compacts or, but for /btw, is running. */
  lemma {:induction false} CommandsAreNeverParked(es: seq<Event>, v: View, sub: Submission)
    requires sub.text != 0 && (!v.modelsBlocked || sub.setup) && sub.slash && !sub.deferredPrompt
    ensures RouteOf(After(es), v, sub) == if v.compacting || (v.running && !sub.btw) then Refused else Run
  {}

  /** An empty text goes nowhere, and without a model every other text but a setup command is refused; neither changes the refs. */
  lemma {:induction false} RefusedWithoutAModel(es: seq<Event>, v: View, sub: Submission)
    requires sub.text == 0 || (v.modelsBlocked && !sub.setup)
    ensures RouteOf(After(es), v, sub) == if sub.text == 0 then Dropped else Refused
    ensures After(es + [Submits(v, sub)]) == After(es)
  {
    assert Front(es + [Submits(v, sub)]) == es;
  }
}
