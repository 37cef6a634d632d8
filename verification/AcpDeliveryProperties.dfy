/** What holds of the ACP tool-call protocol in every interleaving. */
module AcpDeliveryProperties {
  import opened Collections
  import opened InsertionMaps
  import opened AcpToolCalls

  /** A completed or failed update for an id always comes after a tool_call for it that the client took. */
  lemma {:induction false} ResultFollowsDelivery(es: seq<Event>, i: nat)
    requires i < |Run(es).wire| && Run(es).wire[i].ResultUpdate?
    ensures ToolCallAcked(Run(es).wire[i].id, true) in Run(es).wire[..i]
  {
    RunInv(es);
  }

  /** Sends and answers of one id alternate: never are two tool_calls of an id unanswered together. */
  lemma {:induction false} OneInFlight(es: seq<Event>, id: Id)
    ensures var w := Run(es).wire;
            Tally(w, id, Acks) <= Tally(w, id, Sends) <= Tally(w, id, Acks) + 1
  {
    RunInv(es);
    assert FlightInv(Run(es), id);
  }

  /** The identity test in the `finally` of sendToolCall never fails: the entry is still the delivery's own. */
  lemma {:induction false} FinalizeOwnsItsEntry(es: seq<Event>, d: nat)
    requires d < |Run(es).deliveries| && !Run(es).deliveries[d].phase.Settled?
    ensures var s := Run(es); s.deliveries[d].id in s.starts && s.starts[s.deliveries[d].id] == d
  {
    RunInv(es);
  }

  // ----- how often a tool_call is sent

  predicate Streams(s: State, id: Id) {
    id in s.pending.at && !IsTodo(s.pending.at[id])
  }

  /** How many ToolInputComplete events found the id buffered with a name other than TodoWrite. */
  function InputCompletes(es: seq<Event>, id: Id): nat {
    if es == [] then 0
    else (if Last(es).InputComplete? && Streams(Run(Front(es)), id) then 1 else 0) + InputCompletes(Front(es), id)
  }

  function Completes(es: seq<Event>, id: Id): nat {
    if es == [] then 0
    else (if IsComplete(Last(es), id) then 1 else 0) + Completes(Front(es), id)
  }

  lemma {:induction false} SendTally(s: State, x: Id, call: Option<Call>, id: Id)
    ensures Tally(SendToolCall(s, x, call).wire, id, Sends) ==
            Tally(s.wire, id, Sends) + (if x == id && id !in s.starts then 1 else 0)
    ensures Tally(SendToolCall(s, x, call).wire, id, OkAcks) == Tally(s.wire, id, OkAcks)
  {
    TallySnoc(s.wire, ToolCallSent(x, call), id, Sends);
    TallySnoc(s.wire, ToolCallSent(x, call), id, OkAcks);
  }

  /** One ToolInputComplete sends a tool_call for an id exactly when it is buffered, not TodoWrite, and not on its way. */
  lemma {:induction false} SendEachTally(s: State, ids: seq<Id>, id: Id)
    ensures var t := SendEach(s, ids);
            var sent := id in Elements(ids) && Streams(s, id) && id !in s.starts;
            && t.pending == s.pending && t.delivered == s.delivered
            && t.embedded == s.embedded && t.completions == s.completions
            && (id in t.starts <==> id in s.starts || sent)
            && Tally(t.wire, id, Sends) == Tally(s.wire, id, Sends) + (if sent then 1 else 0)
            && Tally(t.wire, id, OkAcks) == Tally(s.wire, id, OkAcks)
  {
    if ids != [] {
      SendEachTally(s, Front(ids), id);
      var t := SendEach(s, Front(ids));
      assert ids == Front(ids) + [Last(ids)];
      if Last(ids) in t.pending.at {
        SendTally(t, Last(ids), Some(t.pending.at[Last(ids)]), id);
      }
    }
  }

  /** No event but ToolInputComplete and ToolCallComplete sends, and only an ack adds an ok ack. */
  lemma {:induction false} QuietTally(s: State, e: Event, id: Id)
    requires !e.InputComplete? && !e.Complete?
    ensures Tally(Next(s, e).wire, id, Sends) == Tally(s.wire, id, Sends)
    ensures !e.Ack? ==> Tally(Next(s, e).wire, id, OkAcks) == Tally(s.wire, id, OkAcks)
  {
    hide Tally, SendEach, BeginCompletion;
    var t := Next(s, e);
    if t.wire != s.wire {
      assert t.wire == s.wire + [Last(t.wire)];
      TallySnoc(s.wire, Last(t.wire), id, Sends);
      TallySnoc(s.wire, Last(t.wire), id, OkAcks);
    }
  }

  lemma {:induction false} BeginTally(s: State, x: Id, isError: bool, id: Id)
    ensures var t := BeginCompletion(s, x, isError);
            var sends := x == id && !(id in s.pending.at && IsTodo(s.pending.at[id]))
                         && id !in s.delivered && id !in s.starts;
            && Tally(t.wire, id, Sends) == Tally(s.wire, id, Sends) + (if sends then 1 else 0)
            && Tally(t.wire, id, OkAcks) == Tally(s.wire, id, OkAcks)
            && (id in t.starts <==> id in s.starts || sends)
  {
    var t := s.(pending := s.pending.Delete(x), embedded := s.embedded - {x});
    SendTally(t, x, s.pending.Get(x), id);
  }

  /** Every tool_call of an id is owed to a ToolInputComplete that found it buffered or to a ToolCallComplete of its own. */
  lemma {:induction false} SendsAreOwed(es: seq<Event>, id: Id)
    ensures Tally(Run(es).wire, id, Sends) <= InputCompletes(es, id) + Completes(es, id)
  {
    if es != [] {
      var s, e := Run(Front(es)), Last(es);
      SendsAreOwed(Front(es), id);
      match e
      case InputComplete => SendEachTally(s, s.pending.order, id);
      case Complete(x, isError) => BeginTally(s, x, isError, id);
      case _ => QuietTally(s, e, id);
    }
  }

  // ----- ids that live once

  predicate IsStart(e: Event, id: Id) { e.Start? && e.id == id }
  predicate IsComplete(e: Event, id: Id) { e.Complete? && e.id == id }
  predicate IsEmbed(e: Event, id: Id) { e.Streaming? && e.id == id && e.terminalId != "" }

  /** After its ToolCallComplete an id is neither started nor completed again. */
  predicate EndsOnce(es: seq<Event>, id: Id) {
    es != [] ==>
      && EndsOnce(Front(es), id)
      && (Completes(Front(es), id) > 0 ==> !IsStart(Last(es), id) && !IsComplete(Last(es), id))
  }

  ghost predicate OnceInv(s: State, inputCompletes: nat, completes: nat, id: Id) {
    var sends, oks := Tally(s.wire, id, Sends), Tally(s.wire, id, OkAcks);
    if completes == 0 then
      && sends <= inputCompletes
      && (oks > 0 ==> id in s.delivered)
    else
      && id !in s.pending.at
      && (sends <= inputCompletes ||
          (sends <= inputCompletes + 1 && oks + (if InFlight(s, id) then 1 else 0) <= 1))
  }

  lemma {:induction false} AckTally(s: State, d: nat, ok: bool, id: Id)
    requires Inv(s)
    ensures var t := AckDelivery(s, d, ok);
            var now := d < |s.deliveries| && s.deliveries[d].phase == Sent && s.deliveries[d].id == id;
            && (InFlight(t, id) <==> InFlight(s, id) && !now)
            && (now ==> InFlight(s, id))
            && Tally(t.wire, id, OkAcks) == Tally(s.wire, id, OkAcks) + (if now && ok then 1 else 0)
            && t.delivered == s.delivered + (if AckDelivery(s, d, ok) != s && ok then {s.deliveries[d].id} else {})
  {
    if d < |s.deliveries| && s.deliveries[d].phase == Sent {
      TallySnoc(s.wire, ToolCallAcked(s.deliveries[d].id, ok), id, OkAcks);
      assert AckDelivery(s, d, ok).deliveries[d].phase == Acked(ok);
    }
  }

  /** Only the delete after a completion takes an id out of `delivered`, and that needs a completion of its own. */
  ghost predicate CompletionsInv(s: State, completes: nat, id: Id) {
    forall n :: 0 <= n < |s.completions| && s.completions[n].id == id ==> completes > 0
  }

  lemma {:induction false} OnceInput(s: State, k: nat, c: nat, id: Id)
    requires Inv(s) && OnceInv(s, k, c, id)
    ensures OnceInv(Next(s, InputComplete), k + (if Streams(s, id) then 1 else 0), c, id)
  {
    hide Tally, SendEach, StartsInv, SuccessInv, ResultsInv;
    assert FlightInv(s, id);
    SendEachTally(s, s.pending.order, id);
    SendEachFlight(s, s.pending.order, id);
  }

  lemma {:induction false} OnceComplete(s: State, x: Id, isError: bool, k: nat, c: nat, id: Id)
    requires Inv(s) && OnceInv(s, k, c, id) && (c > 0 ==> x != id)
    ensures OnceInv(BeginCompletion(s, x, isError), k, if x == id then c + 1 else c, id)
  {
    hide Tally, SuccessInv, ResultsInv;
    assert FlightInv(s, id);
    BeginTally(s, x, isError, id);
  }

  lemma {:induction false} OnceAck(s: State, d: nat, ok: bool, k: nat, c: nat, id: Id)
    requires Inv(s) && OnceInv(s, k, c, id)
    ensures OnceInv(AckDelivery(s, d, ok), k, c, id)
  {
    hide Tally, SuccessInv, ResultsInv;
    assert FlightInv(s, id);
    AckTally(s, d, ok, id);
    QuietTally(s, Ack(d, ok), id);
  }

  lemma {:induction false} OnceQuiet(s: State, e: Event, k: nat, c: nat, id: Id)
    requires Inv(s) && OnceInv(s, k, c, id) && CompletionsInv(s, c, id)
    requires !e.InputComplete? && !e.Complete? && !e.Ack? && (c > 0 ==> !IsStart(e, id))
    ensures OnceInv(Next(s, e), k, c, id)
  {
    hide Tally, SuccessInv, ResultsInv;
    assert FlightInv(s, id);
    QuietTally(s, e, id);
  }

  lemma {:induction false} OnceStep(s: State, e: Event, k: nat, c: nat, id: Id)
    requires Inv(s) && OnceInv(s, k, c, id) && CompletionsInv(s, c, id)
    requires c > 0 ==> !IsStart(e, id) && !IsComplete(e, id)
    ensures OnceInv(Next(s, e), k + (if e.InputComplete? && Streams(s, id) then 1 else 0),
                    c + (if IsComplete(e, id) then 1 else 0), id)
  {
    hide Inv, OnceInv, CompletionsInv, BeginCompletion, AckDelivery, SendEach, Streams;
    match e
    case InputComplete => OnceInput(s, k, c, id);
    case Complete(x, isError) => OnceComplete(s, x, isError, k, c, id);
    case Ack(d, ok) => OnceAck(s, d, ok, k, c, id);
    case _ => OnceQuiet(s, e, k, c, id);
  }

  /** An id that is not buffered is left alone by ToolInputComplete. */
  lemma {:induction false} SendEachFlight(s: State, ids: seq<Id>, id: Id)
    requires Inv(s)
    ensures id !in s.pending.at ==> (InFlight(SendEach(s, ids), id) <==> InFlight(s, id))
    ensures |s.deliveries| <= |SendEach(s, ids).deliveries|
  {
    if ids != [] {
      SendEachFlight(s, Front(ids), id);
      SendEachTally(s, Front(ids), id);
      SendEachKeepsInv(s, Front(ids));
    }
  }

  lemma {:induction false} CompletionsStep(s: State, e: Event, c: nat, id: Id)
    requires CompletionsInv(s, c, id)
    ensures CompletionsInv(Next(s, e), c + (if IsComplete(e, id) then 1 else 0), id)
  {
    if e.InputComplete? {
      SendEachTally(s, s.pending.order, id);
    }
  }

  lemma {:induction false} RunOnce(es: seq<Event>, id: Id)
    requires EndsOnce(es, id)
    ensures OnceInv(Run(es), InputCompletes(es, id), Completes(es, id), id)
    ensures CompletionsInv(Run(es), Completes(es, id), id)
  {
    if es != [] {
      RunOnce(Front(es), id);
      RunInv(Front(es));
      OnceStep(Run(Front(es)), Last(es), InputCompletes(Front(es), id), Completes(Front(es), id), id);
      CompletionsStep(Run(Front(es)), Last(es), Completes(Front(es), id), id);
    }
  }

  /**
   * An id with k ToolInputCompletes while buffered and one end of life is sent at most k + 1 times, and at
   * most max(1, k) of the sends succeed. For k <= 1 that is two sends and one success.
   */
  lemma {:induction false} SendsOfOneLife(es: seq<Event>, id: Id)
    requires EndsOnce(es, id)
    ensures Tally(Run(es).wire, id, Sends) <= InputCompletes(es, id) + 1
    ensures Tally(Run(es).wire, id, OkAcks) <= if InputCompletes(es, id) <= 1 then 1 else InputCompletes(es, id)
  {
    RunOnce(es, id);
    RunInv(es);
    assert FlightInv(Run(es), id);
  }

  // ----- nothing is left behind

  predicate Started(es: seq<Event>, id: Id) {
    es != [] && (IsStart(Last(es), id) || Started(Front(es), id))
  }

  predicate Embedded(es: seq<Event>, id: Id) {
    es != [] && (IsEmbed(Last(es), id) || Embedded(Front(es), id))
  }

  /** The id is started at most once, ends once, and its terminal is not streamed after the end. */
  predicate LivesOnce(es: seq<Event>, id: Id) {
    EndsOnce(es, id) && (es != [] ==>
      && LivesOnce(Front(es), id)
      && (Completes(Front(es), id) > 0 ==> !IsEmbed(Last(es), id))
      && (Started(Front(es), id) ==> !IsStart(Last(es), id)))
  }

  /** A ToolCallComplete handler of the id has not returned. */
  ghost predicate Live(s: State, id: Id) {
    exists n :: 0 <= n < |s.completions| && s.completions[n].id == id && !s.completions[n].stage.Finished?
  }

  /** The event is a successful answer to a tool_call of the id. */
  predicate Accepts(s: State, e: Event, id: Id) {
    e.Ack? && e.ok && e.delivery < |s.deliveries| && s.deliveries[e.delivery] == Delivery(id, Sent)
  }

  /** A tool_call of the id was accepted after the id had completed and its handler had returned. */
  ghost predicate AnsweredLate(es: seq<Event>, id: Id) {
    es != [] &&
    var s := Run(Front(es));
    AnsweredLate(Front(es), id) || (Completes(Front(es), id) > 0 && !Live(s, id) && Accepts(s, Last(es), id))
  }

  ghost predicate LifeInv(s: State, started: bool, streamed: bool, ended: bool, id: Id) {
    && (id in s.pending.at ==> started && !ended)
    && (id in s.embedded ==> streamed && !ended)
    && (!ended && Tally(s.wire, id, Sends) > 0 ==> Streams(s, id))
  }

  /** While a handler runs no answer is late; once none does, the id is delivered exactly when one was. */
  ghost predicate LateInv(s: State, ended: bool, late: bool, id: Id) {
    (late ==> ended) && (ended ==> if Live(s, id) then !late else (id in s.delivered <==> late))
  }

  lemma {:induction false} LifeInput(s: State, id: Id, started: bool, streamed: bool, ended: bool)
    requires Inv(s) && LifeInv(s, started, streamed, ended, id)
    ensures LifeInv(Next(s, InputComplete), started, streamed, ended, id)
  {
    hide Tally, SendEach, Inv;
    SendEachTally(s, s.pending.order, id);
  }

  lemma {:induction false} LifeComplete(s: State, x: Id, isError: bool, id: Id, started: bool, streamed: bool,
                                        ended: bool)
    requires LifeInv(s, started, streamed, ended, id) && s.pending.Valid() && (ended ==> x != id)
    ensures LifeInv(BeginCompletion(s, x, isError), started, streamed, ended || x == id, id)
  {
    hide Tally;
    BeginTally(s, x, isError, id);
  }

  lemma {:induction false} LifeQuiet(s: State, e: Event, id: Id, started: bool, streamed: bool, ended: bool)
    requires LifeInv(s, started, streamed, ended, id) && !e.Complete? && !e.InputComplete?
    requires (ended ==> !IsStart(e, id) && !IsEmbed(e, id)) && (started ==> !IsStart(e, id))
    ensures LifeInv(Next(s, e), started || IsStart(e, id), streamed || IsEmbed(e, id), ended, id)
  {
    hide Tally, SendEach;
    QuietTally(s, e, id);
  }

  lemma {:induction false} LifeStep(s: State, e: Event, id: Id, started: bool, streamed: bool, ended: bool)
    requires Inv(s) && LifeInv(s, started, streamed, ended, id)
    requires ended ==> !IsStart(e, id) && !IsEmbed(e, id) && !IsComplete(e, id)
    requires started ==> !IsStart(e, id)
    ensures LifeInv(Next(s, e), started || IsStart(e, id), streamed || IsEmbed(e, id), ended || IsComplete(e, id), id)
  {
    hide LifeInv, Inv, SendEach, BeginCompletion, AckDelivery, FinalizeDelivery, ResumeCompletion, FinishCompletion;
    PendingValid(s);
    match e
    case InputComplete => LifeInput(s, id, started, streamed, ended);
    case Complete(x, isError) => LifeComplete(s, x, isError, id, started, streamed, ended);
    case _ => LifeQuiet(s, e, id, started, streamed, ended);
  }

  /** The handlers of an id that run: its completion starts one, and the end of one forgets the id. */
  lemma {:induction false} LiveStep(s: State, e: Event, id: Id)
    requires !e.Complete? && !e.InputComplete?
    ensures var t := Next(s, e);
            && (Live(t, id) ==> Live(s, id))
            && (Live(s, id) && !Live(t, id) ==> id !in t.delivered)
            && (Live(s, id) == Live(t, id) && !Live(s, id) ==>
                  (id in t.delivered <==> id in s.delivered || Accepts(s, e, id)))
  {
    hide *;
    var t := Next(s, e);
    if Live(t, id) {
      LiveBefore(s, e, id);
    }
    if Live(s, id) && !Live(t, id) {
      LiveEnds(s, e, id);
    }
    if !Live(s, id) {
      DeadStep(s, e, id);
    }
  }

  lemma {:induction false} LiveBefore(s: State, e: Event, id: Id)
    requires !e.Complete? && !e.InputComplete? && Live(Next(s, e), id)
    ensures Live(s, id)
  {
    var t := Next(s, e);
    var n :| 0 <= n < |t.completions| && t.completions[n].id == id && !t.completions[n].stage.Finished?;
    assert s.completions[n].id == id && !s.completions[n].stage.Finished?;
  }

  lemma {:induction false} LiveEnds(s: State, e: Event, id: Id)
    requires !e.Complete? && !e.InputComplete? && Live(s, id) && !Live(Next(s, e), id)
    ensures id !in Next(s, e).delivered
  {
    var t := Next(s, e);
    var n :| 0 <= n < |s.completions| && s.completions[n].id == id && !s.completions[n].stage.Finished?;
    assert |t.completions| == |s.completions| && t.completions[n].id == id;
  }

  lemma {:induction false} DeadStep(s: State, e: Event, id: Id)
    requires !e.Complete? && !e.InputComplete? && !Live(s, id)
    ensures id in Next(s, e).delivered <==> id in s.delivered || Accepts(s, e, id)
  {
    if e.Resume? && e.completion < |s.completions| && s.completions[e.completion].id == id {
      assert s.completions[e.completion].stage.Finished?;
    }
    if e.UpdateDone? && e.completion < |s.completions| && s.completions[e.completion].id == id {
      assert s.completions[e.completion].stage.Finished?;
    }
  }

  /** A ToolCallComplete of another id leaves its handlers and its mark alone. */
  lemma {:induction false} OtherBegins(s: State, x: Id, isError: bool, id: Id)
    requires x != id
    ensures var t := BeginCompletion(s, x, isError);
            t.delivered == s.delivered && (Live(t, id) <==> Live(s, id))
  {
    var t := BeginCompletion(s, x, isError);
    assert t.completions == s.completions || t.completions == s.completions + [Last(t.completions)];
    if Live(s, id) {
      var n :| 0 <= n < |s.completions| && s.completions[n].id == id && !s.completions[n].stage.Finished?;
      assert t.completions[n] == s.completions[n];
    }
  }

  /** Its own starts a handler, or finds an id that was never sent. */
  lemma {:induction false} OwnBegins(s: State, isError: bool, id: Id, started: bool, streamed: bool)
    requires Inv(s) && LifeInv(s, started, streamed, false, id)
    ensures Live(BeginCompletion(s, id, isError), id) || id !in BeginCompletion(s, id, isError).delivered
  {
    hide Tally, ResultsInv;
    assert FlightInv(s, id);
    var t := BeginCompletion(s, id, isError);
    if |t.completions| > |s.completions| {
      assert Last(t.completions).id == id && !Last(t.completions).stage.Finished?;
      assert Live(t, id);
    }
  }

  lemma {:induction false} InputsAside(s: State, id: Id)
    ensures var t := SendEach(s, s.pending.order);
            t.completions == s.completions && t.delivered == s.delivered
  {
    SendEachTally(s, s.pending.order, id);
  }

  lemma {:induction false} LateStep(s: State, e: Event, id: Id, started: bool, streamed: bool, ended: bool, late: bool)
    requires Inv(s) && LifeInv(s, started, streamed, ended, id) && LateInv(s, ended, late, id)
    requires ended ==> !IsComplete(e, id)
    ensures LateInv(Next(s, e), ended || IsComplete(e, id),
                    late || (ended && !Live(s, id) && Accepts(s, e, id)), id)
  {
    hide Inv, LifeInv, SendEach, BeginCompletion, AckDelivery, FinalizeDelivery, ResumeCompletion, FinishCompletion;
    match e
    case InputComplete =>
      InputsAside(s, id);
      assert Live(Next(s, e), id) <==> Live(s, id);
    case Complete(x, isError) =>
      if x == id {
        OwnBegins(s, isError, id, started, streamed);
      } else {
        OtherBegins(s, x, isError, id);
      }
    case _ => LiveStep(s, e, id);
  }

  lemma {:induction false} RunLife(es: seq<Event>, id: Id)
    requires LivesOnce(es, id)
    ensures LifeInv(Run(es), Started(es, id), Embedded(es, id), Completes(es, id) > 0, id)
    ensures LateInv(Run(es), Completes(es, id) > 0, AnsweredLate(es, id), id)
  {
    if es != [] {
      hide LifeInv, LateInv, Next, Accepts, Live;
      var s, e := Run(Front(es)), Last(es);
      RunLife(Front(es), id);
      RunInv(Front(es));
      LifeStep(s, e, id, Started(Front(es), id), Embedded(Front(es), id), Completes(Front(es), id) > 0);
      LateStep(s, e, id, Started(Front(es), id), Embedded(Front(es), id), Completes(Front(es), id) > 0,
               AnsweredLate(Front(es), id));
    }
  }

  /** Every send is answered and its `finally` has run, and every ToolCallComplete handler has returned. */
  ghost predicate Quiet(s: State) {
    && (forall d :: 0 <= d < |s.deliveries| ==> s.deliveries[d].phase.Settled?)
    && (forall n :: 0 <= n < |s.completions| ==> s.completions[n].stage.Finished?)
  }

  lemma {:induction false} QuietMeansNoHandler(s: State, id: Id)
    requires Quiet(s)
    ensures !Live(s, id)
  {}

  /** Once nothing is suspended, a completed id is still marked delivered exactly when a tool_call was answered late. */
  lemma {:induction false} LeaksExactlyWhenAnsweredLate(es: seq<Event>, id: Id)
    requires LivesOnce(es, id) && Completes(es, id) > 0 && Quiet(Run(es))
    ensures id in Run(es).delivered <==> AnsweredLate(es, id)
  {
    hide Quiet, AnsweredLate, Live, LifeInv;
    RunLife(es, id);
    QuietMeansNoHandler(Run(es), id);
  }

  lemma {:induction false} QuietTracksNothingElse(es: seq<Event>, id: Id)
    requires LivesOnce(es, id) && Quiet(Run(es))
    requires Started(es, id) || Embedded(es, id) ==> Completes(es, id) > 0
    ensures var s := Run(es); id !in s.pending.at && id !in s.starts && id !in s.embedded
  {
    RunInv(es);
    RunLife(es, id);
  }

  /** An id that has not completed was never started, so it was never sent. */
  lemma {:induction false} NeverSent(es: seq<Event>, id: Id)
    requires LivesOnce(es, id) && Completes(es, id) == 0 && !Started(es, id)
    ensures id !in Run(es).delivered
  {
    hide Tally, StartsInv, ResultsInv, LateInv;
    RunInv(es);
    RunLife(es, id);
    assert FlightInv(Run(es), id);
  }

  /**
   * When ids live once, every id that was started or got a terminal has completed, and nothing is suspended
   * any more, the adapter tracks nothing but the ids whose tool_call was answered late: so nothing at all
   * exactly when none was.
   */
  lemma {:induction false} NothingLeftBehind(es: seq<Event>)
    requires forall id :: LivesOnce(es, id)
    requires forall id :: Started(es, id) || Embedded(es, id) ==> Completes(es, id) > 0
    requires Quiet(Run(es))
    ensures var s := Run(es); s.pending.at == map[] && s.starts == map[] && s.embedded == {}
    ensures forall id :: id in Run(es).delivered <==> AnsweredLate(es, id)
  {
    hide Quiet, LivesOnce, Run, Live;
    var s := Run(es);
    forall id ensures id !in s.pending.at && id !in s.starts && id !in s.embedded {
      QuietTracksNothingElse(es, id);
    }
    assert s.starts.Keys == {} && s.pending.at.Keys == {};
    forall id ensures id in s.delivered <==> AnsweredLate(es, id) {
      if Completes(es, id) > 0 {
        LeaksExactlyWhenAnsweredLate(es, id);
      } else {
        NeverSent(es, id);
        NotLateYet(es, id);
      }
    }
  }

  lemma {:induction false} NotLateYet(es: seq<Event>, id: Id)
    requires Completes(es, id) == 0
    ensures !AnsweredLate(es, id)
  {
    if es != [] {
      NotLateYet(Front(es), id);
    }
  }

  // ----- a guard that a caller can keep

  /** No ToolCallComplete of the id meets it delivered while a second tool_call for it is unanswered. */
  predicate NeverOvertaken(es: seq<Event>, id: Id) {
    es != [] ==>
      && NeverOvertaken(Front(es), id)
      && (IsComplete(Last(es), id) ==>
            var s := Run(Front(es)); !(id in s.delivered && InFlight(s, id)))
  }

  /** A handler of the id waits for the delivery that is in flight. */
  ghost predicate Awaited(s: State, id: Id) {
    id in s.starts &&
    exists n :: 0 <= n < |s.completions| && s.completions[n].id == id
                && s.completions[n].stage == WaitingFor(s.starts[id])
  }

  ghost predicate AwaitInv(s: State, ended: bool, id: Id) {
    InFlight(s, id) && ended ==> Awaited(s, id)
  }

  /** A tool_call that is in flight stays in flight under the same number until its answer, and its handler waits. */
  lemma {:induction false} AwaitStays(s: State, t: State, id: Id)
    requires Awaited(s, id) && id in t.starts && t.starts[id] == s.starts[id]
    requires |s.completions| <= |t.completions|
    requires forall n :: 0 <= n < |s.completions| && s.completions[n].stage == WaitingFor(s.starts[id]) ==>
               t.completions[n] == s.completions[n]
    ensures Awaited(t, id)
  {
    var n :| 0 <= n < |s.completions| && s.completions[n].id == id
             && s.completions[n].stage == WaitingFor(s.starts[id]);
    assert t.completions[n] == s.completions[n];
  }

  lemma {:induction false} AwaitQuiet(s: State, e: Event, id: Id)
    requires Inv(s) && AwaitInv(s, true, id) && !e.Complete? && !e.InputComplete?
    ensures AwaitInv(Next(s, e), true, id)
  {
    hide Tally, ResultsInv, SuccessInv;
    var t := Next(s, e);
    if InFlight(t, id) {
      assert InFlight(s, id);
      AwaitStays(s, t, id);
    }
  }

  lemma {:induction false} AwaitInput(s: State, id: Id)
    requires Inv(s) && AwaitInv(s, true, id) && id !in s.pending.at
    ensures AwaitInv(Next(s, InputComplete), true, id)
  {
    hide Tally;
    var t := Next(s, InputComplete);
    SendEachTally(s, s.pending.order, id);
    SendEachFlight(s, s.pending.order, id);
    if InFlight(t, id) {
      SendEachStarts(s, s.pending.order, id);
      AwaitStays(s, t, id);
    }
  }

  lemma {:induction false} SendEachStarts(s: State, ids: seq<Id>, id: Id)
    requires id in s.starts
    ensures id in SendEach(s, ids).starts && SendEach(s, ids).starts[id] == s.starts[id]
  {
    if ids != [] {
      SendEachStarts(s, Front(ids), id);
    }
  }

  lemma {:induction false} AwaitOther(s: State, x: Id, isError: bool, id: Id)
    requires Inv(s) && AwaitInv(s, true, id) && x != id
    ensures AwaitInv(BeginCompletion(s, x, isError), true, id)
  {
    hide Tally, ResultsInv, SuccessInv;
    var t := BeginCompletion(s, x, isError);
    if InFlight(t, id) {
      assert InFlight(s, id);
      AwaitStays(s, t, id);
    }
  }

  lemma {:induction false} AwaitOwn(s: State, isError: bool, id: Id, started: bool, streamed: bool)
    requires Inv(s) && LifeInv(s, started, streamed, false, id) && !(id in s.delivered && InFlight(s, id))
    ensures AwaitInv(BeginCompletion(s, id, isError), true, id)
  {
    hide Tally, ResultsInv;
    assert FlightInv(s, id);
    var t := BeginCompletion(s, id, isError);
    if InFlight(t, id) {
      assert |t.completions| > |s.completions|;
      assert Last(t.completions).id == id && Last(t.completions).stage == WaitingFor(t.starts[id]);
    }
  }

  lemma {:induction false} RunAwaits(es: seq<Event>, id: Id)
    requires LivesOnce(es, id) && NeverOvertaken(es, id)
    ensures AwaitInv(Run(es), Completes(es, id) > 0, id)
  {
    if es != [] {
      hide LifeInv, LateInv, Inv, InFlight, Awaited, SendEach, BeginCompletion, AnsweredLate;
      var s, e := Run(Front(es)), Last(es);
      RunAwaits(Front(es), id);
      RunLife(Front(es), id);
      RunInv(Front(es));
      if Completes(Front(es), id) > 0 {
        match e
        case InputComplete =>
          assert id !in s.pending.at by { NotPending(s, Started(Front(es), id), Embedded(Front(es), id), id); }
          AwaitInput(s, id);
        case Complete(x, isError) => AwaitOther(s, x, isError, id);
        case _ => AwaitQuiet(s, e, id);
      } else if IsComplete(e, id) {
        AwaitOwn(s, e.isError, id, Started(Front(es), id), Embedded(Front(es), id));
      }
    }
  }

  lemma {:induction false} NotPending(s: State, started: bool, streamed: bool, id: Id)
    requires LifeInv(s, started, streamed, true, id)
    ensures id !in s.pending.at
  {}

  /** An id that is not overtaken is not answered late. */
  lemma {:induction false} NotOvertakenIsNotLate(es: seq<Event>, id: Id)
    requires LivesOnce(es, id) && NeverOvertaken(es, id)
    ensures !AnsweredLate(es, id)
  {
    if es != [] {
      hide Inv, AwaitInv, Live, Accepts, Next;
      NotOvertakenIsNotLate(Front(es), id);
      RunAwaits(Front(es), id);
      RunInv(Front(es));
      if Completes(Front(es), id) > 0 && Accepts(Run(Front(es)), Last(es), id) {
        AcceptedInFlight(Run(Front(es)), Last(es), id);
      }
    }
  }

  lemma {:induction false} AcceptedInFlight(s: State, e: Event, id: Id)
    requires Inv(s) && Accepts(s, e, id) && AwaitInv(s, true, id)
    ensures Live(s, id)
  {}

  /** One ToolInputComplete per buffered id is enough for it not to be overtaken. */
  lemma {:induction false} SingleInputNeverOvertaken(es: seq<Event>, id: Id)
    requires EndsOnce(es, id) && InputCompletes(es, id) <= 1
    ensures NeverOvertaken(es, id)
  {
    if es != [] {
      SingleInputNeverOvertaken(Front(es), id);
      RunOnce(Front(es), id);
      RunInv(Front(es));
      assert FlightInv(Run(Front(es)), id);
    }
  }

  /** So an id that lives once with one ToolInputComplete leaves nothing behind. */
  lemma {:induction false} SingleInputIsNeverLate(es: seq<Event>, id: Id)
    requires LivesOnce(es, id) && InputCompletes(es, id) <= 1
    ensures !AnsweredLate(es, id)
  {
    SingleInputNeverOvertaken(es, id);
    NotOvertakenIsNotLate(es, id);
  }

  // ----- the run that shows what a second ToolInputComplete can do

  function Buffered(id: Id, call: Call): State {
    INITIAL.(pending := InsertionMap([id], map[id := call]))
  }

  lemma {:induction false} SendSingle(s: State, id: Id)
    ensures SendEach(s, [id]) == SendOne(s, id)
  {
    assert Front([id]) == [];
  }

  lemma {:induction false} SentOnce(id: Id, call: Call)
    requires !IsTodo(call)
    ensures var es := [Start(id, call)] + [InputComplete];
            && LivesOnce(es, id) && Completes(es, id) == 0
            && Run(es) == Buffered(id, call).(starts := map[id := 0], deliveries := [Delivery(id, Sent)],
                                              wire := [ToolCallSent(id, Some(call))])
  {
    var e1 := [Start(id, call)];
    StartedOnce(id, call);
    RunSnoc(e1, InputComplete, id);
    SendSingle(Buffered(id, call), id);
    assert Run(e1 + [InputComplete]) == SendOne(Buffered(id, call), id);
  }

  lemma {:induction false} StartedOnce(id: Id, call: Call)
    ensures LivesOnce([Start(id, call)], id) && Completes([Start(id, call)], id) == 0
    ensures Run([Start(id, call)]) == Buffered(id, call)
  {
    assert [] + [Start(id, call)] == [Start(id, call)];
    RunSnoc([], Start(id, call), id);
  }

  lemma {:induction false} AckedOnce(id: Id, call: Call, es: seq<Event>)
    requires !IsTodo(call) && LivesOnce(es, id) && Completes(es, id) == 0
    requires Run(es) == Buffered(id, call).(starts := map[id := 0], deliveries := [Delivery(id, Sent)],
                                            wire := [ToolCallSent(id, Some(call))])
    ensures var fs := es + [Ack(0, true)] + [Finalize(0)];
            && LivesOnce(fs, id) && Completes(fs, id) == 0
            && Run(fs) == Buffered(id, call).(delivered := {id}, deliveries := [Delivery(id, Settled(true))],
                                              wire := [ToolCallSent(id, Some(call)), ToolCallAcked(id, true)])
  {
    RunSnoc(es, Ack(0, true), id);
    RunSnoc(es + [Ack(0, true)], Finalize(0), id);
  }

  lemma {:induction false} ResentAndOvertaken(id: Id, call: Call, es: seq<Event>)
    requires !IsTodo(call) && LivesOnce(es, id) && Completes(es, id) == 0
    requires Run(es) == Buffered(id, call).(delivered := {id}, deliveries := [Delivery(id, Settled(true))],
                                            wire := [ToolCallSent(id, Some(call)), ToolCallAcked(id, true)])
    ensures var fs := es + [InputComplete] + [Complete(id, false)];
            && LivesOnce(fs, id) && Completes(fs, id) == 1
            && Run(fs) == State(EmptyMap(), {id}, map[id := 1], {}, [Delivery(id, Settled(true)), Delivery(id, Sent)],
                                [Completion(id, Some(call), false, false, Ready)],
                                [ToolCallSent(id, Some(call)), ToolCallAcked(id, true), ToolCallSent(id, Some(call))])
  {
    RunSnoc(es, InputComplete, id);
    SendSingle(Run(es), id);
    RunSnoc(es + [InputComplete], Complete(id, false), id);
    assert Minus([id], {id}) == [];
    assert map[id := call] - {id} == map[];
  }

  lemma {:induction false} LateAckLeaks(s: State, id: Id)
    requires |s.completions| == 1 && s.completions[0].id == id && s.completions[0].stage == Ready
    requires s.delivered == {id} && s.starts == map[id := 1]
    requires s.deliveries == [Delivery(id, Settled(true)), Delivery(id, Sent)]
    requires Tally(s.wire, id, OkAcks) == 1
    ensures var t := Next(Next(Next(Next(s, Resume(0)), UpdateDone(0)), Ack(1, true)), Finalize(1));
            Quiet(t) && t.delivered == {id} && Tally(t.wire, id, OkAcks) == 2
  {
    hide Tally;
    var done := s.completions[0];
    var t := Next(Next(s, Resume(0)), UpdateDone(0));
    assert t == s.(completions := [done.(stage := Finished)], delivered := {}, wire := s.wire + [ResultOf(done)]);
    TallySnoc(s.wire, ResultOf(done), id, OkAcks);
    TallySnoc(t.wire, ToolCallAcked(id, true), id, OkAcks);
  }

  /**
   * Late answers happen: with two ToolInputCompletes while an id is buffered the client can get the tool_call
   * twice, and the id can stay in `delivered` although it has completed and nothing is suspended.
   */
  lemma {:induction false} ResentCallLeaks(id: Id, call: Call)
    requires !IsTodo(call)
    ensures var es := [Start(id, call)] + [InputComplete] + [Ack(0, true)] + [Finalize(0)] + [InputComplete]
                      + [Complete(id, false)] + [Resume(0)] + [UpdateDone(0)] + [Ack(1, true)] + [Finalize(1)];
            && Quiet(Run(es)) && Run(es).delivered == {id}
            && Tally(Run(es).wire, id, OkAcks) == 2
            && LivesOnce(es, id) && AnsweredLate(es, id)
  {
    var e2 := [Start(id, call)] + [InputComplete];
    SentOnce(id, call);
    AckedOnce(id, call, e2);
    var e4 := e2 + [Ack(0, true)] + [Finalize(0)];
    ResentAndOvertaken(id, call, e4);
    var e6 := e4 + [InputComplete] + [Complete(id, false)];
    assert Tally(Run(e6).wire, id, OkAcks) == 1 by {
      var sent, acked := ToolCallSent(id, Some(call)), ToolCallAcked(id, true);
      assert [sent, acked, sent] == [] + [sent] + [acked] + [sent];
      TallySnoc([], sent, id, OkAcks);
      TallySnoc([] + [sent], acked, id, OkAcks);
      TallySnoc([] + [sent] + [acked], sent, id, OkAcks);
    }
    LateAckLeaks(Run(e6), id);
    RunSnoc(e6, Resume(0), id);
    RunSnoc(e6 + [Resume(0)], UpdateDone(0), id);
    RunSnoc(e6 + [Resume(0)] + [UpdateDone(0)], Ack(1, true), id);
    RunSnoc(e6 + [Resume(0)] + [UpdateDone(0)] + [Ack(1, true)], Finalize(1), id);
    LeaksExactlyWhenAnsweredLate(e6 + [Resume(0)] + [UpdateDone(0)] + [Ack(1, true)] + [Finalize(1)], id);
  }

  lemma {:induction false} RunSnoc(es: seq<Event>, e: Event, id: Id)
    ensures Run(es + [e]) == Next(Run(es), e)
    ensures LivesOnce(es + [e], id) ==
            (LivesOnce(es, id) && (Started(es, id) ==> !IsStart(e, id))
             && (Completes(es, id) > 0 ==> !IsStart(e, id) && !IsComplete(e, id) && !IsEmbed(e, id)))
    ensures Completes(es + [e], id) == Completes(es, id) + (if IsComplete(e, id) then 1 else 0)
  {
    assert Front(es + [e]) == es;
    if LivesOnce(es, id) {
      LivesEndsOnce(es, id);
    }
  }

  lemma {:induction false} LivesEndsOnce(es: seq<Event>, id: Id)
    requires LivesOnce(es, id)
    ensures EndsOnce(es, id)
  {}
}
