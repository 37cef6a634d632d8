/** What the client gets to see of one tool call: its terminal, then its result, once and with the right status. */
module AcpResults {
  import opened Collections
  import opened InsertionMaps
  import opened AcpToolCalls
  import opened AcpDeliveryProperties

  // ----- what the events say of an id

  /** The name the id was started with. */
  function NameOf(es: seq<Event>, id: Id): Option<string> {
    if es == [] then None
    else if IsStart(Last(es), id) then Some(Last(es).call.name)
    else NameOf(Front(es), id)
  }

  /** The first terminal that was streamed for the id, "" when none was. */
  function TerminalOf(es: seq<Event>, id: Id): string {
    if es == [] then ""
    else if TerminalOf(Front(es), id) == "" && IsEmbed(Last(es), id) then Last(es).terminalId
    else TerminalOf(Front(es), id)
  }

  /** Whether the id completed with an error. */
  predicate Failed(es: seq<Event>, id: Id) {
    es != [] && if IsComplete(Last(es), id) then Last(es).isError else Failed(Front(es), id)
  }

  /** A tool_call of the id was accepted before its completion, or while the completion's handler was running. */
  ghost predicate AcceptedInTime(es: seq<Event>, id: Id) {
    es != [] &&
    var s := Run(Front(es));
    AcceptedInTime(Front(es), id) || ((Completes(Front(es), id) == 0 || Live(s, id)) && Accepts(s, Last(es), id))
  }

  /** How many handlers had been suspended when the id completed. */
  function HandlerOf(es: seq<Event>, id: Id): nat {
    if es == [] then 0
    else if IsComplete(Last(es), id) then |Run(Front(es)).completions|
    else HandlerOf(Front(es), id)
  }

  datatype Life = Life(name: Option<string>, terminal: string, ended: bool, failed: bool, inTime: bool, handler: nat)

  ghost function LifeOf(es: seq<Event>, id: Id): Life {
    Life(NameOf(es, id), TerminalOf(es, id), Completes(es, id) > 0, Failed(es, id), AcceptedInTime(es, id),
         HandlerOf(es, id))
  }

  ghost function NextLife(l: Life, s: State, e: Event, id: Id): Life {
    Life(if IsStart(e, id) then Some(e.call.name) else l.name,
         if l.terminal == "" && IsEmbed(e, id) then e.terminalId else l.terminal,
         l.ended || IsComplete(e, id),
         if IsComplete(e, id) then e.isError else l.failed,
         l.inTime || ((!l.ended || Live(s, id)) && Accepts(s, e, id)),
         if IsComplete(e, id) then |s.completions| else l.handler)
  }

  // ----- what the wire shows of an id

  /** The updates of the id on the wire, in order. */
  function Updates(wire: seq<Wire>, id: Id): seq<Wire> {
    if wire == [] then []
    else if (Last(wire).TerminalUpdate? || Last(wire).ResultUpdate?) && Last(wire).id == id
    then Updates(Front(wire), id) + [Last(wire)]
    else Updates(Front(wire), id)
  }

  lemma {:induction false} UpdatesSnoc(wire: seq<Wire>, w: Wire, id: Id)
    ensures Updates(wire + [w], id) ==
            if (w.TerminalUpdate? || w.ResultUpdate?) && w.id == id then Updates(wire, id) + [w] else Updates(wire, id)
  {
    assert Front(wire + [w]) == wire;
  }

  function TerminalDue(l: Life, id: Id): seq<Wire> {
    if l.terminal == "" then [] else [TerminalUpdate(id, l.terminal)]
  }

  /** With a terminal the status alone; else the content, and the raw output unless a diff was shown already. */
  function ResultDue(l: Life, id: Id): Wire {
    var plain := l.terminal == "";
    ResultUpdate(id, l.failed, plain, plain && l.name != Some("Create") && l.name != Some("Edit"))
  }

  predicate IsTodoName(name: Option<string>) { name == Some(TODO_WRITE) }

  // ----- the invariant

  /** A delivery of the id was sent. */
  ghost predicate SentInv(s: State, id: Id) {
    (exists d :: 0 <= d < |s.deliveries| && s.deliveries[d].id == id) ==> Tally(s.wire, id, Sends) > 0
  }

  ghost predicate BeforeEnd(s: State, l: Life, id: Id) {
    && (id in s.pending.at <==> l.name.Some?)
    && (id in s.pending.at ==> Some(s.pending.at[id].name) == l.name)
    && (id in s.embedded <==> l.terminal != "")
    && (id in s.delivered <==> l.inTime)
    && (forall d :: 0 <= d < |s.deliveries| && s.deliveries[d] == Delivery(id, Acked(true)) ==> l.inTime)
    && (forall n :: 0 <= n < |s.completions| ==> s.completions[n].id != id)
    && Updates(s.wire, id) == TerminalDue(l, id)
  }

  /** The result is owed to a delivery that has been accepted, or to the one the handler waits for. */
  ghost predicate StageInv(s: State, l: Life, c: Completion) {
    match c.stage
    case Ready => l.inTime && Updates(s.wire, c.id) == TerminalDue(l, c.id)
    case WaitingFor(d) =>
      && d < |s.deliveries| && s.deliveries[d].id == c.id
      && (l.inTime <==> s.deliveries[d].phase != Sent && s.deliveries[d].phase.ok)
      && (c.id in s.starts ==> s.starts[c.id] == d)
      && Updates(s.wire, c.id) == TerminalDue(l, c.id)
    case Updating => l.inTime && Updates(s.wire, c.id) == TerminalDue(l, c.id) + [ResultDue(l, c.id)]
    case Finished =>
      Updates(s.wire, c.id) == TerminalDue(l, c.id) + if l.inTime then [ResultDue(l, c.id)] else []
  }

  ghost predicate HandlerInv(s: State, l: Life, id: Id) {
    && l.handler < |s.completions|
    && s.completions[l.handler].id == id
    && ResultOf(s.completions[l.handler]) == ResultDue(l, id)
    && StageInv(s, l, s.completions[l.handler])
    && Tally(s.wire, id, Sends) > 0
  }

  ghost predicate AfterEnd(s: State, l: Life, id: Id) {
    && id !in s.pending.at
    && (forall n :: 0 <= n < |s.completions| && s.completions[n].id == id ==> !IsTodoName(l.name) && n == l.handler)
    && if IsTodoName(l.name) then Updates(s.wire, id) == TerminalDue(l, id) else HandlerInv(s, l, id)
  }

  ghost predicate ResultInv(s: State, l: Life, id: Id) {
    SentInv(s, id) && if l.ended then AfterEnd(s, l, id) else BeforeEnd(s, l, id)
  }

  // ----- the steps

  /** More tool_calls were sent. */
  ghost predicate Extends(before: seq<Delivery>, after: seq<Delivery>) {
    && |before| <= |after|
    && (forall d :: 0 <= d < |before| ==> after[d] == before[d])
    && (forall d :: |before| <= d < |after| ==> after[d].phase == Sent)
  }

  lemma {:induction false} SendFrame(s: State, x: Id, call: Option<Call>, id: Id)
    requires SentInv(s, id)
    ensures var t := SendToolCall(s, x, call);
            && SentInv(t, id) && Updates(t.wire, id) == Updates(s.wire, id)
            && Extends(s.deliveries, t.deliveries)
            && (id in s.starts ==> id in t.starts && t.starts[id] == s.starts[id])
            && Tally(t.wire, id, Sends) >= Tally(s.wire, id, Sends)
  {
    var t := SendToolCall(s, x, call);
    UpdatesSnoc(s.wire, ToolCallSent(x, call), id);
    SendTally(s, x, call, id);
    if x !in s.starts {
      forall d | 0 <= d < |t.deliveries| && t.deliveries[d].id == id ensures Tally(t.wire, id, Sends) > 0 {
        assert d < |s.deliveries| ==> s.deliveries[d].id == id;
      }
    }
  }

  lemma {:induction false} SendEachFrame(s: State, ids: seq<Id>, id: Id)
    requires SentInv(s, id)
    ensures var t := SendEach(s, ids);
            && SentInv(t, id) && Updates(t.wire, id) == Updates(s.wire, id)
            && Extends(s.deliveries, t.deliveries)
            && (id in s.starts ==> id in t.starts && t.starts[id] == s.starts[id])
            && Tally(t.wire, id, Sends) >= Tally(s.wire, id, Sends)
  {
    hide SentInv, Tally, Updates, SendToolCall;
    if ids != [] {
      SendEachFrame(s, Front(ids), id);
      var t := SendEach(s, Front(ids));
      if Last(ids) in t.pending.at {
        SendFrame(t, Last(ids), Some(t.pending.at[Last(ids)]), id);
      }
    }
  }

  lemma {:induction false} InputKeeps(s: State, l: Life, id: Id)
    requires ResultInv(s, l, id)
    ensures ResultInv(Next(s, InputComplete), l, id)
  {
    hide SentInv, Tally, Updates, SendEach;
    var t := Next(s, InputComplete);
    SendEachFrame(s, s.pending.order, id);
    SendEachTally(s, s.pending.order, id);
  }

  /** Start and Progress. */
  lemma {:induction false} BufferKeeps(s: State, l: Life, e: Event, id: Id)
    requires ResultInv(s, l, id) && (e.Start? || e.Progress?)
    requires l.ended || l.name.Some? ==> !IsStart(e, id)
    ensures ResultInv(Next(s, e), NextLife(l, s, e, id), id)
  {
    hide Tally, Updates;
  }

  lemma {:induction false} StreamKeeps(s: State, l: Life, x: Id, terminalId: string, id: Id)
    requires ResultInv(s, l, id) && (l.ended ==> !IsEmbed(Streaming(x, terminalId), id))
    ensures ResultInv(StreamTerminal(s, x, terminalId), NextLife(l, s, Streaming(x, terminalId), id), id)
  {
    hide Tally, Updates;
    var t := StreamTerminal(s, x, terminalId);
    if t != s {
      UpdatesSnoc(s.wire, TerminalUpdate(x, terminalId), id);
      TallySnoc(s.wire, TerminalUpdate(x, terminalId), id, Sends);
    }
  }

  lemma {:induction false} LiveIs(s: State, l: Life, id: Id)
    requires l.ended && AfterEnd(s, l, id)
    ensures Live(s, id) <==> !IsTodoName(l.name) && !s.completions[l.handler].stage.Finished?
  {}

  lemma {:induction false} AckKeeps(s: State, l: Life, d: nat, ok: bool, id: Id)
    requires Inv(s) && ResultInv(s, l, id)
    ensures ResultInv(AckDelivery(s, d, ok), NextLife(l, s, Ack(d, ok), id), id)
  {
    hide Tally, Updates, Live, ResultsInv;
    var t := AckDelivery(s, d, ok);
    if l.ended { LiveIs(s, l, id); }
    if d < |s.deliveries| && s.deliveries[d].phase == Sent {
      var w := ToolCallAcked(s.deliveries[d].id, ok);
      UpdatesSnoc(s.wire, w, id);
      TallySnoc(s.wire, w, id, Sends);
      assert SentInv(t, id) by { assert forall k :: 0 <= k < |t.deliveries| ==> t.deliveries[k].id == s.deliveries[k].id; }
    }
  }

  lemma {:induction false} FinalizeKeeps(s: State, l: Life, d: nat, id: Id)
    requires ResultInv(s, l, id)
    ensures ResultInv(FinalizeDelivery(s, d), l, id)
  {
    hide Tally, Updates;
    var t := FinalizeDelivery(s, d);
    assert forall k :: 0 <= k < |t.deliveries| ==> t.deliveries[k].id == s.deliveries[k].id;
  }

  /** Nothing of the id differs but the handlers and updates of others. */
  ghost predicate Aside(s: State, t: State, id: Id) {
    && t.pending == s.pending && t.embedded == s.embedded && t.starts == s.starts && t.deliveries == s.deliveries
    && (id in t.delivered <==> id in s.delivered)
    && Updates(t.wire, id) == Updates(s.wire, id) && Tally(t.wire, id, Sends) == Tally(s.wire, id, Sends)
    && |t.completions| == |s.completions|
    && forall n :: 0 <= n < |s.completions| ==>
         if s.completions[n].id == id then t.completions[n] == s.completions[n] else t.completions[n].id != id
  }

  lemma {:induction false} AsideKeeps(s: State, t: State, l: Life, id: Id)
    requires ResultInv(s, l, id) && Aside(s, t, id)
    ensures ResultInv(t, l, id)
  {
    hide Tally, Updates, ResultOf, ResultDue;
  }

  lemma {:induction false} ResumeOther(s: State, n: nat, id: Id)
    requires n < |s.completions| && s.completions[n].id != id
    ensures Aside(s, ResumeCompletion(s, n), id)
  {
    hide Tally, Updates, ResultOf, StartOutcome;
    var w := ResultOf(s.completions[n]);
    assert w.ResultUpdate? && w.id == s.completions[n].id by { ResultIsOf(s.completions[n]); }
    UpdatesSnoc(s.wire, w, id);
    TallySnoc(s.wire, w, id, Sends);
  }

  lemma {:induction false} ResumeOwn(s: State, l: Life, n: nat)
    requires n < |s.completions| && ResultInv(s, l, s.completions[n].id)
    ensures ResultInv(ResumeCompletion(s, n), l, s.completions[n].id)
  {
    hide Tally, Updates, ResultOf, ResultDue;
    var c, id := s.completions[n], s.completions[n].id;
    var t := ResumeCompletion(s, n);
    if t != s {
      var w := ResultOf(c);
      assert w.ResultUpdate? && w.id == id by { ResultIsOf(c); }
      UpdatesSnoc(s.wire, w, id);
      TallySnoc(s.wire, w, id, Sends);
      SameResult(c, t.completions[n].stage);
    }
  }

  lemma {:induction false} ResumeKeeps(s: State, l: Life, n: nat, id: Id)
    requires ResultInv(s, l, id)
    ensures ResultInv(ResumeCompletion(s, n), l, id)
  {
    hide ResultInv, Aside, ResumeCompletion;
    if n >= |s.completions| {
      NoSuchHandler(s, n);
    } else if s.completions[n].id == id {
      ResumeOwn(s, l, n);
    } else {
      ResumeOther(s, n, id);
      AsideKeeps(s, ResumeCompletion(s, n), l, id);
    }
  }

  lemma {:induction false} NoSuchHandler(s: State, n: nat)
    requires n >= |s.completions|
    ensures ResumeCompletion(s, n) == s
  {}

  lemma {:induction false} ResultIsOf(c: Completion)
    ensures ResultOf(c).ResultUpdate? && ResultOf(c).id == c.id
  {}

  lemma {:induction false} SameResult(c: Completion, stage: Stage)
    ensures ResultOf(c.(stage := stage)) == ResultOf(c)
  {}

  lemma {:induction false} FinishKeeps(s: State, l: Life, n: nat, id: Id)
    requires ResultInv(s, l, id)
    ensures ResultInv(FinishCompletion(s, n), l, id)
  {
    hide Tally, Updates;
  }

  lemma {:induction false} OtherCompletes(s: State, l: Life, x: Id, isError: bool, id: Id)
    requires ResultInv(s, l, id) && x != id
    ensures ResultInv(BeginCompletion(s, x, isError), l, id)
  {
    hide Tally, Updates, SendToolCall, ResultOf, ResultDue;
    var call := s.pending.Get(x);
    var t := s.(pending := s.pending.Delete(x), embedded := s.embedded - {x});
    SendFrame(t, x, call, id);
    SendTracks(t, x, call);
    var u := SendToolCall(t, x, call);
    if l.ended && !IsTodoName(l.name) && s.completions[l.handler].stage.WaitingFor? {
      assert id in u.starts ==> id in s.starts by { SendStarts(t, x, call, id); }
    }
  }

  lemma {:induction false} SendTracks(s: State, x: Id, call: Option<Call>)
    ensures var t := SendToolCall(s, x, call);
            t == s.(starts := t.starts, deliveries := t.deliveries, wire := t.wire) && x in t.starts
  {}

  lemma {:induction false} SendStarts(s: State, x: Id, call: Option<Call>, id: Id)
    requires x != id
    ensures id in SendToolCall(s, x, call).starts <==> id in s.starts
  {}

  /** Whoever waits for a delivery of an id, it was sent. */
  lemma {:induction false} WaitedForIsSent(s: State, x: Id, call: Option<Call>)
    requires Inv(s) && SentInv(s, x)
    ensures var t := SendToolCall(s, x, call);
            && t.starts[x] < |t.deliveries| && t.deliveries[t.starts[x]].id == x
            && Tally(t.wire, x, Sends) > 0
            && (x !in s.delivered ==>
                  t.deliveries[t.starts[x]].phase == Sent
                  || (t == s && s.deliveries[s.starts[x]].phase.Acked?))
  {
    hide ResultsInv, SuccessInv, FlightInv;
    SendFrame(s, x, call, x);
    SendTally(s, x, call, x);
  }

  lemma {:induction false} AcceptedIsDelivered(s: State, id: Id)
    requires Inv(s) && id in s.delivered
    ensures Tally(s.wire, id, Sends) > 0
  {
    assert FlightInv(s, id);
  }

  /** One more handler, of an id whose call is no longer tracked: the one that the id's life speaks of. */
  lemma {:induction false} HandlerStarts(s: State, u: State, l: Life, c: Completion, isError: bool, id: Id)
    requires BeforeEnd(s, l, id) && SentInv(u, id) && !IsTodoName(l.name)
    requires u.completions == s.completions && Updates(u.wire, id) == Updates(s.wire, id) && id !in u.pending.at
    requires Tally(u.wire, id, Sends) > 0
    requires c.id == id && c.isError == isError && c.terminal == (l.terminal != "")
    requires if l.name.Some? then c.call.Some? && c.call.value.name == l.name.value else c.call.None?
    requires || (c.stage == Ready && l.inTime)
             || (c.stage.WaitingFor? && c.stage.delivery < |u.deliveries|
                 && u.deliveries[c.stage.delivery].id == id
                 && (l.inTime <==> u.deliveries[c.stage.delivery].phase != Sent && u.deliveries[c.stage.delivery].phase.ok)
                 && (id in u.starts ==> u.starts[id] == c.stage.delivery))
    ensures ResultInv(u.(completions := u.completions + [c]),
                      l.(ended := true, failed := isError, handler := |s.completions|), id)
  {
    hide Tally, Updates;
  }

  lemma {:induction false} TodoEnds(s: State, t: State, l: Life, isError: bool, id: Id)
    requires BeforeEnd(s, l, id) && SentInv(s, id) && IsTodoName(l.name) && id !in t.pending.at
    requires t == s.(pending := t.pending, embedded := t.embedded)
    ensures ResultInv(t, l.(ended := true, failed := isError, handler := |s.completions|), id)
  {
    hide Tally, Updates;
  }

  lemma {:induction false} OwnCompletes(s: State, l: Life, isError: bool, id: Id)
    requires Inv(s) && ResultInv(s, l, id) && !l.ended
    ensures ResultInv(BeginCompletion(s, id, isError), NextLife(l, s, Complete(id, isError), id), id)
  {
    hide Tally, Updates, SendToolCall, Inv, ResultInv, SentInv;
    assert SentInv(s, id) && BeforeEnd(s, l, id) by { BeforeIs(s, l, id); }
    var call := s.pending.Get(id);
    var t := s.(pending := s.pending.Delete(id), embedded := s.embedded - {id});
    assert Inv(t) by { UntrackKeepsInv(s, id); }
    SentDependsOn(s, t, id);
    if call.Some? && IsTodo(call.value) {
      TodoEnds(s, t, l, isError, id);
    } else if id in t.delivered {
      AcceptedIsDelivered(t, id);
      HandlerStarts(s, t, l, Completion(id, call, id in s.embedded, isError, Ready), isError, id);
    } else {
      var u := SendToolCall(t, id, call);
      SendFrame(t, id, call, id);
      SendTracks(t, id, call);
      WaitedForIsSent(t, id, call);
      HandlerStarts(s, u, l, Completion(id, call, id in s.embedded, isError, WaitingFor(u.starts[id])), isError, id);
    }
  }

  lemma {:induction false} BeforeIs(s: State, l: Life, id: Id)
    requires ResultInv(s, l, id) && !l.ended
    ensures SentInv(s, id) && BeforeEnd(s, l, id)
  {}

  lemma {:induction false} SentDependsOn(s: State, t: State, id: Id)
    requires SentInv(s, id) && t.deliveries == s.deliveries && t.wire == s.wire
    ensures SentInv(t, id)
  {}

  lemma {:induction false} StepKeeps(s: State, l: Life, e: Event, id: Id)
    requires Inv(s) && ResultInv(s, l, id)
    requires l.ended ==> !IsStart(e, id) && !IsEmbed(e, id) && !IsComplete(e, id)
    requires l.name.Some? ==> !IsStart(e, id)
    ensures ResultInv(Next(s, e), NextLife(l, s, e, id), id)
  {
    hide Inv, ResultInv, SendEach, BeginCompletion, AckDelivery, FinalizeDelivery, ResumeCompletion, FinishCompletion,
      StreamTerminal, Live;
    match e
    case InputComplete => InputKeeps(s, l, id);
    case Complete(x, isError) =>
      if x == id {
        OwnCompletes(s, l, isError, id);
      } else {
        OtherCompletes(s, l, x, isError, id);
      }
    case Streaming(x, terminalId) => StreamKeeps(s, l, x, terminalId, id);
    case Ack(d, ok) => AckKeeps(s, l, d, ok, id);
    case Finalize(d) => FinalizeKeeps(s, l, d, id);
    case Resume(n) => ResumeKeeps(s, l, n, id);
    case UpdateDone(n) => FinishKeeps(s, l, n, id);
    case _ => BufferKeeps(s, l, e, id);
  }

  lemma {:induction false} LifeSnoc(es: seq<Event>, id: Id)
    requires es != []
    ensures LifeOf(es, id) == NextLife(LifeOf(Front(es), id), Run(Front(es)), Last(es), id)
    ensures NameOf(es, id).Some? <==> Started(es, id)
  {
    hide Run, Live, Accepts;
    StartedHasName(es, id);
  }

  lemma {:induction false} StartedHasName(es: seq<Event>, id: Id)
    ensures NameOf(es, id).Some? <==> Started(es, id)
    ensures TerminalOf(es, id) != "" <==> Embedded(es, id)
  {
    if es != [] {
      StartedHasName(Front(es), id);
    }
  }

  lemma {:induction false} RunKeeps(es: seq<Event>, id: Id)
    requires LivesOnce(es, id)
    ensures ResultInv(Run(es), LifeOf(es, id), id)
  {
    if es != [] {
      hide Inv, ResultInv, LifeOf, NextLife, Next;
      RunKeeps(Front(es), id);
      RunInv(Front(es));
      LifeSnoc(es, id);
      StartedHasName(Front(es), id);
      LifeFields(Front(es), id);
      StepKeeps(Run(Front(es)), LifeOf(Front(es), id), Last(es), id);
    } else {
      NothingYet(id);
    }
  }

  lemma {:induction false} LifeFields(es: seq<Event>, id: Id)
    ensures LifeOf(es, id).ended == (Completes(es, id) > 0) && LifeOf(es, id).name == NameOf(es, id)
  {}

  lemma {:induction false} NothingYet(id: Id)
    ensures ResultInv(Run([]), LifeOf([], id), id)
  {}

  // ----- main results

  /**
   * Once nothing is suspended, the client has seen of a call that lived once and completed: the first
   * terminal that was streamed for it, if any, and then one result with the status of the completion exactly
   * when a tool_call of it was accepted before its handler returned. The result has the content exactly when
   * there was no terminal, and then the raw output unless Create or Edit had shown a diff.
   */
  lemma {:induction false} ResultIsSentExactlyWhen(es: seq<Event>, id: Id)
    requires LivesOnce(es, id) && Completes(es, id) > 0 && Quiet(Run(es)) && NameOf(es, id) != Some(TODO_WRITE)
    ensures var terminal, name := TerminalOf(es, id), NameOf(es, id);
            var shown := name == Some("Create") || name == Some("Edit");
            Updates(Run(es).wire, id) ==
              (if terminal == "" then [] else [TerminalUpdate(id, terminal)])
              + (if AcceptedInTime(es, id)
                 then [ResultUpdate(id, Failed(es, id), terminal == "", terminal == "" && !shown)]
                 else [])
    ensures Tally(Run(es).wire, id, Sends) > 0
  {
    hide Run, Updates, Tally, LivesOnce, AcceptedInTime, Failed, TerminalOf;
    RunKeeps(es, id);
    QuietFinishes(Run(es), LifeOf(es, id), id);
  }

  lemma {:induction false} QuietFinishes(s: State, l: Life, id: Id)
    requires l.ended && AfterEnd(s, l, id) && Quiet(s) && !IsTodoName(l.name)
    ensures Updates(s.wire, id) == TerminalDue(l, id) + if l.inTime then [ResultDue(l, id)] else []
    ensures Tally(s.wire, id, Sends) > 0
  {
    hide Updates, Tally, ResultDue, TerminalDue;
  }

  /** Before its completion a call has no result, and a TodoWrite never has one and is never sent. */
  lemma {:induction false} NoResultBeforeTheEnd(es: seq<Event>, id: Id)
    requires LivesOnce(es, id) && (Completes(es, id) == 0 || NameOf(es, id) == Some(TODO_WRITE))
    ensures Updates(Run(es).wire, id) == if TerminalOf(es, id) == "" then [] else [TerminalUpdate(id, TerminalOf(es, id))]
  {
    hide Run, Updates, Tally, LivesOnce, AcceptedInTime, Failed, TerminalOf;
    RunKeeps(es, id);
  }

  lemma {:induction false} OkAcksStep(s: State, e: Event, id: Id)
    requires Inv(s)
    ensures Tally(Next(s, e).wire, id, OkAcks) == Tally(s.wire, id, OkAcks) + if Accepts(s, e, id) then 1 else 0
  {
    hide Tally, SendEach, BeginCompletion, AckDelivery, Inv;
    match e
    case InputComplete => SendEachTally(s, s.pending.order, id);
    case Complete(x, isError) => BeginTally(s, x, isError, id);
    case Ack(d, ok) => AckTally(s, d, ok, id);
    case _ => QuietTally(s, e, id);
  }

  /** The client accepted a tool_call of an id exactly when it did so in time or late. */
  lemma {:induction false} AcceptedInTimeOrLate(es: seq<Event>, id: Id)
    ensures Tally(Run(es).wire, id, OkAcks) > 0 <==> AcceptedInTime(es, id) || AnsweredLate(es, id)
  {
    if es != [] {
      hide Tally, Live, Next, Inv, Accepts;
      AcceptedInTimeOrLate(Front(es), id);
      RunInv(Front(es));
      OkAcksStep(Run(Front(es)), Last(es), id);
    } else {
      NoAcks(id);
    }
  }

  lemma {:induction false} NoAcks(id: Id)
    ensures Tally(Run([]).wire, id, OkAcks) == 0
  {}

  /** A call that is accepted and never late gets its result: nothing that the client took is left hanging. */
  lemma {:induction false} AcceptedCallsEnd(es: seq<Event>, id: Id)
    requires LivesOnce(es, id) && Completes(es, id) > 0 && Quiet(Run(es)) && InputCompletes(es, id) <= 1
    requires NameOf(es, id) != Some(TODO_WRITE) && ToolCallAcked(id, true) in Run(es).wire
    ensures Updates(Run(es).wire, id) != [] && Last(Updates(Run(es).wire, id)).ResultUpdate?
  {
    hide Run, Updates, Tally, LivesOnce, AcceptedInTime, Failed, TerminalOf, Quiet, InputCompletes, AnsweredLate;
    RunInv(es);
    assert FlightInv(Run(es), id);
    AcceptedInTimeOrLate(es, id);
    SingleInputIsNeverLate(es, id);
    ResultIsSentExactlyWhen(es, id);
  }

  // ----- what a tool_call carries

  /** The call as the events since its start have made it; its completion ends it. */
  function Buffered(es: seq<Event>, id: Id): Option<Call> {
    if es == [] then None
    else
      var before := Buffered(Front(es), id);
      match Last(es)
      case Start(x, call) => if x == id then Some(call) else before
      case Progress(x, more) =>
        if x == id && before.Some? then Some(Call(before.value.name, before.value.input + more)) else before
      case Complete(x, _) => if x == id then None else before
      case _ => before
  }

  /** The buffered ids in the order in which they were first started. */
  function BufferedIds(es: seq<Event>): seq<Id> {
    if es == [] then []
    else
      var before := BufferedIds(Front(es));
      match Last(es)
      case Start(x, _) => if Buffered(Front(es), x).Some? then before else before + [x]
      case Complete(x, _) => Minus(before, {x})
      case _ => before
  }

  lemma {:induction false} BufferIs(es: seq<Event>, id: Id)
    ensures Run(es).pending.Get(id) == Buffered(es, id)
    ensures Run(es).pending.order == BufferedIds(es)
  {
    if es != [] {
      hide Next, Inv;
      var s, e := Run(Front(es)), Last(es);
      BufferIs(Front(es), id);
      RunInv(Front(es));
      PendingValid(s);
      PendingStep(s, e);
      if e.Start? || e.Complete? { BufferIs(Front(es), e.id); }
      if e.Complete? && e.id !in s.pending.at { MinusNothing(s.pending.order, {e.id}); }
    }
  }

  lemma {:induction false} PendingStep(s: State, e: Event)
    requires s.pending.Valid()
    ensures Next(s, e).pending ==
            match e
            case Start(x, call) => s.pending.Set(x, call)
            case Progress(x, more) =>
              if x in s.pending.at
              then s.pending.Set(x, Call(s.pending.at[x].name, s.pending.at[x].input + more))
              else s.pending
            case Complete(x, _) => s.pending.Delete(x)
            case _ => s.pending
  {
    hide SendEach;
    if e.InputComplete? { SendEachTally(s, s.pending.order, ""); }
  }

  /** A tool_call of the id has been sent and its delivery has not ended. */
  ghost predicate OnItsWay(s: State, id: Id) {
    exists d :: 0 <= d < |s.deliveries| && s.deliveries[d].id == id && !s.deliveries[d].phase.Settled?
  }

  lemma {:induction false} OnItsWayIs(s: State, id: Id)
    requires Inv(s)
    ensures OnItsWay(s, id) <==> id in s.starts
  {
    hide ResultsInv, SuccessInv, FlightInv;
  }

  /** The tool_calls due for buffered ids: one for each that is not TodoWrite and not on its way, as it is buffered. */
  ghost function Due(es: seq<Event>, ids: seq<Id>): seq<Wire> {
    if ids == [] then []
    else
      var id := Last(ids);
      var call := Buffered(es, id);
      Due(es, Front(ids)) + if call.Some? && call.value.name != TODO_WRITE && !OnItsWay(Run(es), id)
                            then [ToolCallSent(id, call)]
                            else []
  }

  lemma {:induction false} SendEachWire(es: seq<Event>, ids: seq<Id>)
    requires Distinct(ids)
    ensures SendEach(Run(es), ids).wire == Run(es).wire + Due(es, ids)
  {
    hide Run, OnItsWay, Buffered, Tally;
    if ids != [] {
      var s, id := Run(es), Last(ids);
      SendEachWire(es, Front(ids));
      SendEachTally(s, Front(ids), id);
      RunInv(es);
      OnItsWayIs(s, id);
      BufferIs(es, id);
    }
  }

  /** ToolInputComplete sends exactly what is due, in buffering order. */
  lemma {:induction false} InputCompleteSendsWhatIsDue(es: seq<Event>)
    ensures Run(es + [InputComplete]).wire == Run(es).wire + Due(es, BufferedIds(es))
  {
    hide Run, Due, BufferedIds;
    RunInv(es);
    BufferIs(es, "");
    SendEachWire(es, BufferedIds(es));
    RunSnoc(es, InputComplete, "");
  }

  /** ToolCallComplete sends what was buffered, unless that is a TodoWrite, or was accepted, or is on its way. */
  lemma {:induction false} CompleteSendsWhatIsMissing(es: seq<Event>, id: Id, isError: bool)
    ensures var s, call := Run(es), Buffered(es, id);
            var missing := !(call.Some? && call.value.name == TODO_WRITE) && id !in s.delivered && !OnItsWay(s, id);
            Run(es + [Complete(id, isError)]).wire == s.wire + if missing then [ToolCallSent(id, call)] else []
  {
    hide Run, OnItsWay, Buffered;
    RunInv(es);
    BufferIs(es, id);
    OnItsWayIs(Run(es), id);
    RunSnoc(es, Complete(id, isError), id);
  }
}
