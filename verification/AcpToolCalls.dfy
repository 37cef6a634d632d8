/**
 * The tool-call delivery protocol of the ACP adapter as a transition system.
 *
 * A handler of the adapter runs without interruption up to its next await. Each such segment is one
 * event here, and so is each outcome of a send, so a sequence of events is one interleaving. Next is
 * total: an event that is not possible in a state leaves it alone, so every sequence is a run.
 */
module AcpToolCalls {
  import opened Collections
  import opened InsertionMaps

  type Id = string

  datatype Call = Call(name: string, input: map<string, string>)

  const TODO_WRITE := "TodoWrite"

  predicate IsTodo(c: Call) { c.name == TODO_WRITE }

  /** How far the promise of one tool_call send has come: Acked is before its `finally`, Settled after. */
  datatype Phase = Sent | Acked(ok: bool) | Settled(ok: bool)

  datatype Delivery = Delivery(id: Id, phase: Phase)

  /** Where a ToolCallComplete handler is suspended. */
  datatype Stage = Ready | WaitingFor(delivery: nat) | Updating | Finished

  datatype Completion =
    Completion(id: Id, call: Option<Call>, terminal: bool, isError: bool, stage: Stage)

  /** What the client sees, and the answers to the tool_call sends. */
  datatype Wire =
    | ToolCallSent(id: Id, call: Option<Call>)
    | ToolCallAcked(id: Id, ok: bool)
    | TerminalUpdate(id: Id, terminalId: string)
    | ResultUpdate(id: Id, isError: bool, withContent: bool, withRawOutput: bool)

  /**
   * The four collections of the adapter, then the suspended promises and handlers (numbered in the
   * order they were created) and the wire.
   */
  datatype State = State(
    pending: InsertionMap<Id, Call>,
    delivered: set<Id>,
    starts: map<Id, nat>,
    embedded: set<Id>,
    deliveries: seq<Delivery>,
    completions: seq<Completion>,
    wire: seq<Wire>)

  const INITIAL := State(EmptyMap(), {}, map[], {}, [], [], [])

  datatype Event =
    | Start(id: Id, call: Call)
    | Progress(id: Id, partialInput: map<string, string>)
    | InputComplete
    | Complete(id: Id, isError: bool)
    | Streaming(id: Id, terminalId: string)
    | Ack(delivery: nat, ok: bool)
    | Finalize(delivery: nat)
    | Resume(completion: nat)
    | UpdateDone(completion: nat)

  // ----- the segments

  function SendToolCall(s: State, id: Id, call: Option<Call>): State {
    if id in s.starts then s
    else s.(starts := s.starts[id := |s.deliveries|],
            deliveries := s.deliveries + [Delivery(id, Sent)],
            wire := s.wire + [ToolCallSent(id, call)])
  }

  function SendOne(s: State, id: Id): State {
    if id in s.pending.at && !IsTodo(s.pending.at[id]) then SendToolCall(s, id, Some(s.pending.at[id]))
    else s
  }

  function SendEach(s: State, ids: seq<Id>): State {
    if ids == [] then s else SendOne(SendEach(s, Front(ids)), Last(ids))
  }

  function BeginCompletion(s: State, id: Id, isError: bool): State {
    var call := s.pending.Get(id);
    var terminal := id in s.embedded;
    var t := s.(pending := s.pending.Delete(id), embedded := s.embedded - {id});
    if call.Some? && IsTodo(call.value) then t
    else if id in t.delivered then
      t.(completions := t.completions + [Completion(id, call, terminal, isError, Ready)])
    else
      var u := SendToolCall(t, id, call);
      u.(completions := u.completions + [Completion(id, call, terminal, isError, WaitingFor(u.starts[id]))])
  }

  function StreamTerminal(s: State, id: Id, terminalId: string): State {
    if terminalId != "" && id !in s.embedded
    then s.(embedded := s.embedded + {id}, wire := s.wire + [TerminalUpdate(id, terminalId)])
    else s
  }

  function AckDelivery(s: State, d: nat, ok: bool): State {
    if d < |s.deliveries| && s.deliveries[d].phase == Sent then
      var id := s.deliveries[d].id;
      s.(delivered := if ok then s.delivered + {id} else s.delivered,
         deliveries := s.deliveries[d := Delivery(id, Acked(ok))],
         wire := s.wire + [ToolCallAcked(id, ok)])
    else s
  }

  function FinalizeDelivery(s: State, d: nat): State {
    if d < |s.deliveries| && s.deliveries[d].phase.Acked? then
      var id := s.deliveries[d].id;
      s.(starts := if id in s.starts && s.starts[id] == d then s.starts - {id} else s.starts,
         deliveries := s.deliveries[d := Delivery(id, Settled(s.deliveries[d].phase.ok))])
    else s
  }

  /** The answer ensureToolCallDelivered has for a suspended completion, None while it has none. */
  function StartOutcome(s: State, c: Completion): Option<bool> {
    match c.stage
    case Ready => Some(true)
    case WaitingFor(d) =>
      if d < |s.deliveries| && s.deliveries[d].phase.Settled? then Some(s.deliveries[d].phase.ok) else None
    case _ => None
  }

  function ResultOf(c: Completion): Wire {
    ResultUpdate(c.id, c.isError, !c.terminal,
                 !c.terminal && !(c.call.Some? && c.call.value.name in {"Create", "Edit"}))
  }

  function ResumeCompletion(s: State, n: nat): State {
    if n < |s.completions| && StartOutcome(s, s.completions[n]).Some? then
      var c := s.completions[n];
      if StartOutcome(s, c).value
      then s.(completions := s.completions[n := c.(stage := Updating)], wire := s.wire + [ResultOf(c)])
      else s.(completions := s.completions[n := c.(stage := Finished)], delivered := s.delivered - {c.id})
    else s
  }

  function FinishCompletion(s: State, n: nat): State {
    if n < |s.completions| && s.completions[n].stage == Updating then
      var c := s.completions[n];
      s.(completions := s.completions[n := c.(stage := Finished)], delivered := s.delivered - {c.id})
    else s
  }

  function Next(s: State, e: Event): State {
    match e
    case Start(id, call) => s.(pending := s.pending.Set(id, call))
    case Progress(id, p) =>
      if id in s.pending.at
      then s.(pending := s.pending.Set(id, s.pending.at[id].(input := s.pending.at[id].input + p)))
      else s
    case InputComplete => SendEach(s, s.pending.order)
    case Complete(id, isError) => BeginCompletion(s, id, isError)
    case Streaming(id, terminalId) => StreamTerminal(s, id, terminalId)
    case Ack(d, ok) => AckDelivery(s, d, ok)
    case Finalize(d) => FinalizeDelivery(s, d)
    case Resume(n) => ResumeCompletion(s, n)
    case UpdateDone(n) => FinishCompletion(s, n)
  }

  function Run(es: seq<Event>): State {
    if es == [] then INITIAL else Next(Run(Front(es)), Last(es))
  }

  // ----- what is counted on the wire

  datatype Kind = Sends | Acks | OkAcks

  predicate Is(w: Wire, id: Id, kind: Kind) {
    match kind
    case Sends => w.ToolCallSent? && w.id == id
    case Acks => w.ToolCallAcked? && w.id == id
    case OkAcks => w == ToolCallAcked(id, true)
  }

  function Tally(wire: seq<Wire>, id: Id, kind: Kind): nat {
    if wire == [] then 0 else Tally(Front(wire), id, kind) + (if Is(Last(wire), id, kind) then 1 else 0)
  }

  lemma {:induction false} TallySnoc(wire: seq<Wire>, w: Wire, id: Id, kind: Kind)
    ensures Tally(wire + [w], id, kind) == Tally(wire, id, kind) + (if Is(w, id, kind) then 1 else 0)
  {
    assert Front(wire + [w]) == wire;
  }

  ghost predicate Succeeded(wire: seq<Wire>, id: Id) { ToolCallAcked(id, true) in wire }

  predicate InFlight(s: State, id: Id) {
    id in s.starts && s.starts[id] < |s.deliveries| && s.deliveries[s.starts[id]].phase == Sent
  }

  // ----- the invariant of every run

  ghost predicate StartsInv(s: State) {
    && s.pending.Valid()
    && (forall id :: id in s.starts ==>
      && s.starts[id] < |s.deliveries|
      && s.deliveries[s.starts[id]].id == id
      && !s.deliveries[s.starts[id]].phase.Settled?)
    && (forall d :: 0 <= d < |s.deliveries| && !s.deliveries[d].phase.Settled? ==>
      s.deliveries[d].id in s.starts && s.starts[s.deliveries[d].id] == d)
  }

  ghost predicate SuccessInv(s: State) {
    && (forall d :: 0 <= d < |s.deliveries| && s.deliveries[d].phase != Sent && s.deliveries[d].phase.ok ==>
      Succeeded(s.wire, s.deliveries[d].id))
    && (forall id :: id in s.delivered ==> Succeeded(s.wire, id))
    && (forall n :: 0 <= n < |s.completions| && s.completions[n].stage.Ready? ==>
      Succeeded(s.wire, s.completions[n].id))
    && (forall n :: 0 <= n < |s.completions| && s.completions[n].stage.WaitingFor? ==>
      && s.completions[n].stage.delivery < |s.deliveries|
      && s.deliveries[s.completions[n].stage.delivery].id == s.completions[n].id)
  }

  ghost predicate ResultsInv(s: State) {
    forall i :: 0 <= i < |s.wire| && s.wire[i].ResultUpdate? ==> Succeeded(s.wire[..i], s.wire[i].id)
  }

  ghost predicate FlightInv(s: State, id: Id) {
    && Tally(s.wire, id, Sends) == Tally(s.wire, id, Acks) + (if InFlight(s, id) then 1 else 0)
    && Tally(s.wire, id, OkAcks) <= Tally(s.wire, id, Acks)
    && (Tally(s.wire, id, OkAcks) > 0 <==> Succeeded(s.wire, id))
  }

  ghost predicate Inv(s: State) {
    StartsInv(s) && SuccessInv(s) && ResultsInv(s) && forall id :: FlightInv(s, id)
  }

  /** The wire grew by one element w; the rest of FlightInv follows from what w is. */
  lemma {:induction false} WireSnoc(s: State, t: State, w: Wire, id: Id)
    requires t.wire == s.wire + [w]
    ensures forall kind :: Tally(t.wire, id, kind) == Tally(s.wire, id, kind) + (if Is(w, id, kind) then 1 else 0)
    ensures Succeeded(t.wire, id) <==> Succeeded(s.wire, id) || w == ToolCallAcked(id, true)
    ensures ResultsInv(s) && (w.ResultUpdate? ==> Succeeded(s.wire, w.id)) ==> ResultsInv(t)
  {
    forall kind {
      TallySnoc(s.wire, w, id, kind);
    }
    if ResultsInv(s) && (w.ResultUpdate? ==> Succeeded(s.wire, w.id)) {
      forall i | 0 <= i < |t.wire| && t.wire[i].ResultUpdate? ensures Succeeded(t.wire[..i], t.wire[i].id) {
        assert t.wire[..i] == s.wire[..i];
        assert i == |s.wire| ==> s.wire[..i] == s.wire;
      }
    }
  }

  lemma {:induction false} SendKeepsInv(s: State, id: Id, call: Option<Call>)
    requires Inv(s)
    ensures Inv(SendToolCall(s, id, call))
  {
    hide Tally;
    var t := SendToolCall(s, id, call);
    if id !in s.starts {
      forall x ensures FlightInv(t, x) {
        assert FlightInv(s, x);
        WireSnoc(s, t, ToolCallSent(id, call), x);
      }
      forall x | Succeeded(s.wire, x) ensures Succeeded(t.wire, x) {}
      WireSnoc(s, t, ToolCallSent(id, call), id);
    }
  }

  lemma {:induction false} SendEachKeepsInv(s: State, ids: seq<Id>)
    requires Inv(s)
    ensures Inv(SendEach(s, ids))
  {
    if ids != [] {
      SendEachKeepsInv(s, Front(ids));
      var t := SendEach(s, Front(ids));
      if Last(ids) in t.pending.at {
        SendKeepsInv(t, Last(ids), Some(t.pending.at[Last(ids)]));
      }
    }
  }

  /** One more suspended completion, of an id that is delivered or on its way. */
  lemma {:induction false} SuspendKeepsInv(s: State, c: Completion)
    requires Inv(s)
    requires (c.stage == Ready && c.id in s.delivered) || (c.id in s.starts && c.stage == WaitingFor(s.starts[c.id]))
    ensures Inv(s.(completions := s.completions + [c]))
  {
    hide Tally, ResultsInv;
    var t := s.(completions := s.completions + [c]);
    forall x ensures FlightInv(t, x) { assert FlightInv(s, x); }
    assert ResultsInv(t) by { SameResults(s, t); }
  }

  lemma {:induction false} SameResults(s: State, t: State)
    requires ResultsInv(s) && t.wire == s.wire
    ensures ResultsInv(t)
  {}

  lemma {:induction false} UntrackKeepsInv(s: State, id: Id)
    requires Inv(s)
    ensures Inv(s.(pending := s.pending.Delete(id), embedded := s.embedded - {id}))
  {
    hide Tally, ResultsInv, SuccessInv;
    var t := s.(pending := s.pending.Delete(id), embedded := s.embedded - {id});
    forall x ensures FlightInv(t, x) { assert FlightInv(s, x); }
    assert ResultsInv(t) by { SameResults(s, t); }
    assert SuccessInv(t) by { SameSuccess(s, t); }
  }

  lemma {:induction false} SameSuccess(s: State, t: State)
    requires SuccessInv(s) && t == s.(pending := t.pending, embedded := t.embedded)
    ensures SuccessInv(t)
  {}

  lemma {:induction false} BeginKeepsInv(s: State, id: Id, isError: bool)
    requires Inv(s)
    ensures Inv(BeginCompletion(s, id, isError))
  {
    hide Inv;
    var call, terminal := s.pending.Get(id), id in s.embedded;
    var t := s.(pending := s.pending.Delete(id), embedded := s.embedded - {id});
    UntrackKeepsInv(s, id);
    if !(call.Some? && IsTodo(call.value)) {
      if id in t.delivered {
        SuspendKeepsInv(t, Completion(id, call, terminal, isError, Ready));
      } else {
        var u := SendToolCall(t, id, call);
        SendKeepsInv(t, id, call);
        SuspendKeepsInv(u, Completion(id, call, terminal, isError, WaitingFor(u.starts[id])));
      }
    }
  }

  lemma {:induction false} AckKeepsInv(s: State, d: nat, ok: bool)
    requires Inv(s)
    ensures Inv(AckDelivery(s, d, ok))
  {
    hide Tally;
    var t := AckDelivery(s, d, ok);
    if d < |s.deliveries| && s.deliveries[d].phase == Sent {
      var w := ToolCallAcked(s.deliveries[d].id, ok);
      forall x ensures FlightInv(t, x) {
        assert FlightInv(s, x);
        WireSnoc(s, t, w, x);
      }
      forall x | Succeeded(s.wire, x) ensures Succeeded(t.wire, x) {}
      WireSnoc(s, t, w, w.id);
    }
  }

  lemma {:induction false} FinalizeKeepsInv(s: State, d: nat)
    requires Inv(s)
    ensures Inv(FinalizeDelivery(s, d))
  {
    var t := FinalizeDelivery(s, d);
    forall x ensures FlightInv(t, x) { assert FlightInv(s, x); }
  }

  lemma {:induction false} ResumeKeepsInv(s: State, n: nat)
    requires Inv(s)
    ensures Inv(ResumeCompletion(s, n))
  {
    var t := ResumeCompletion(s, n);
    if n < |s.completions| && StartOutcome(s, s.completions[n]) == Some(true) {
      var w := ResultOf(s.completions[n]);
      forall x ensures FlightInv(t, x) {
        assert FlightInv(s, x);
        WireSnoc(s, t, w, x);
      }
      forall x | Succeeded(s.wire, x) ensures Succeeded(t.wire, x) {}
      WireSnoc(s, t, w, w.id);
    } else {
      forall x ensures FlightInv(t, x) { assert FlightInv(s, x); }
    }
  }

  lemma {:induction false} StreamKeepsInv(s: State, id: Id, terminalId: string)
    requires Inv(s)
    ensures Inv(StreamTerminal(s, id, terminalId))
  {
    hide Tally;
    var t := StreamTerminal(s, id, terminalId);
    if t != s {
      forall x ensures FlightInv(t, x) {
        assert FlightInv(s, x);
        WireSnoc(s, t, TerminalUpdate(id, terminalId), x);
      }
      WireSnoc(s, t, TerminalUpdate(id, terminalId), id);
      forall x | Succeeded(s.wire, x) ensures Succeeded(t.wire, x) {}
    }
  }

  /** Only the buffered input differs. */
  lemma {:induction false} BufferKeepsInv(s: State, pending: InsertionMap<Id, Call>)
    requires Inv(s) && pending.Valid()
    ensures Inv(s.(pending := pending))
  {
    hide Tally, ResultsInv, SuccessInv;
    var t := s.(pending := pending);
    forall x ensures FlightInv(t, x) { assert FlightInv(s, x); }
    assert ResultsInv(t) by { SameResults(s, t); }
    assert SuccessInv(t) by { SameSuccess(s, t); }
  }

  lemma {:induction false} FinishKeepsInv(s: State, n: nat)
    requires Inv(s)
    ensures Inv(FinishCompletion(s, n))
  {
    hide Tally, ResultsInv;
    var t := FinishCompletion(s, n);
    forall x ensures FlightInv(t, x) { assert FlightInv(s, x); }
    assert ResultsInv(t) by { SameResults(s, t); }
  }

  lemma {:induction false} PendingValid(s: State)
    requires Inv(s)
    ensures s.pending.Valid()
  {}

  lemma {:induction false} NextKeepsInv(s: State, e: Event)
    requires Inv(s)
    ensures Inv(Next(s, e))
  {
    hide Inv, SendEach, BeginCompletion, AckDelivery, FinalizeDelivery, ResumeCompletion, FinishCompletion,
      StreamTerminal;
    PendingValid(s);
    match e
    case Start(id, call) => BufferKeepsInv(s, s.pending.Set(id, call));
    case Progress(id, p) =>
      if id in s.pending.at {
        BufferKeepsInv(s, s.pending.Set(id, s.pending.at[id].(input := s.pending.at[id].input + p)));
      }
    case InputComplete => SendEachKeepsInv(s, s.pending.order);
    case Complete(id, isError) => BeginKeepsInv(s, id, isError);
    case Streaming(id, terminalId) => StreamKeepsInv(s, id, terminalId);
    case Ack(d, ok) => AckKeepsInv(s, d, ok);
    case Finalize(d) => FinalizeKeepsInv(s, d);
    case Resume(n) => ResumeKeepsInv(s, n);
    case UpdateDone(n) => FinishKeepsInv(s, n);
  }

  lemma {:induction false} RunInv(es: seq<Event>)
    ensures Inv(Run(es))
  {
    if es != [] {
      RunInv(Front(es));
      NextKeepsInv(Run(Front(es)), Last(es));
    }
  }
}
