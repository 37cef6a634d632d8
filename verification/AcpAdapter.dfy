/** The ACP adapter itself: its fields, and one method for each handler segment between awaits. */
module AcpAdapter {
  import opened Collections
  import opened InsertionMaps
  import opened AcpToolCalls

  class AcpProtocolAdapter {
    var pendingToolCalls: InsertionMap<Id, Call>
    var deliveredToolCalls: set<Id>
    var toolCallStartDeliveries: map<Id, nat>
    var embeddedTerminals: set<Id>

    // What the JavaScript runtime keeps for the adapter: its suspended promises and handlers, and the connection.
    var deliveries: seq<Delivery>
    var completions: seq<Completion>
    var wire: seq<Wire>

    function Now(): State
      reads this
    {
      State(pendingToolCalls, deliveredToolCalls, toolCallStartDeliveries, embeddedTerminals,
            deliveries, completions, wire)
    }

    constructor ()
      ensures Now() == INITIAL
    {
      pendingToolCalls := EmptyMap();
      deliveredToolCalls, embeddedTerminals := {}, {};
      toolCallStartDeliveries := map[];
      deliveries, completions, wire := [], [], [];
    }

    method OnToolCallStart(id: Id, call: Call)
      modifies this
      ensures Now() == Next(old(Now()), Start(id, call))
    {
      pendingToolCalls := pendingToolCalls.Set(id, call);
    }

    method OnToolCallProgress(id: Id, partialInput: map<string, string>)
      modifies this
      ensures Now() == Next(old(Now()), Progress(id, partialInput))
    {
      var pending := pendingToolCalls.Get(id);
      if pending.Some? {
        pendingToolCalls := pendingToolCalls.Set(id, pending.value.(input := pending.value.input + partialInput));
      }
    }

    method OnToolInputComplete()
      requires pendingToolCalls.Valid()
      modifies this
      ensures Now() == Next(old(Now()), InputComplete)
    {
      ghost var was := Now();
      var ids := pendingToolCalls.order;
      for i := 0 to |ids|
        invariant Now() == SendEach(was, ids[..i])
        invariant pendingToolCalls == was.pending
      {
        assert ids[..i + 1] == ids[..i] + [ids[i]] && Front(ids[..i + 1]) == ids[..i];
        ElementsAre(ids, ids[i]);
        var call := pendingToolCalls.at[ids[i]];
        if call.name != TODO_WRITE {
          var _ := SendToolCallStart(ids[i], Some(call));
        }
      }
      assert ids[..|ids|] == ids;
    }

    /** Up to the await on the delivery; the answer says what the handler waits for, None when it has returned. */
    method OnToolCallComplete(id: Id, isError: bool) returns (suspended: Option<nat>)
      modifies this
      ensures Now() == Next(old(Now()), Complete(id, isError))
      ensures suspended == if |completions| == |old(completions)| then None else Some(|old(completions)|)
    {
      var pending := pendingToolCalls.Get(id);
      var hasEmbeddedTerminal := id in embeddedTerminals;
      pendingToolCalls := pendingToolCalls.Delete(id);
      embeddedTerminals := embeddedTerminals - {id};
      if pending.Some? && pending.value.name == TODO_WRITE {
        return None;
      }
      var stage := EnsureToolCallDelivered(id, pending);
      completions := completions + [Completion(id, pending, hasEmbeddedTerminal, isError, stage)];
      suspended := Some(|completions| - 1);
    }

    method EnsureToolCallDelivered(id: Id, pending: Option<Call>) returns (stage: Stage)
      modifies this
      ensures id in old(deliveredToolCalls) ==> stage == Ready && Now() == old(Now())
      ensures id !in old(deliveredToolCalls) ==>
        && Now() == SendToolCall(old(Now()), id, pending)
        && stage == WaitingFor(toolCallStartDeliveries[id])
    {
      if id in deliveredToolCalls {
        return Ready;
      }
      if id in toolCallStartDeliveries {
        return WaitingFor(toolCallStartDeliveries[id]);
      }
      var delivery := SendToolCallStart(id, pending);
      stage := WaitingFor(delivery);
    }

    /** sendToolCall up to its return: the number of the delivery whose promise it hands out. */
    method SendToolCallStart(id: Id, call: Option<Call>) returns (delivery: nat)
      modifies this
      ensures Now() == SendToolCall(old(Now()), id, call)
      ensures id in toolCallStartDeliveries && delivery == toolCallStartDeliveries[id]
    {
      if id in toolCallStartDeliveries {
        return toolCallStartDeliveries[id];
      }
      delivery := |deliveries|;
      wire := wire + [ToolCallSent(id, call)];
      deliveries := deliveries + [Delivery(id, Sent)];
      toolCallStartDeliveries := toolCallStartDeliveries[id := delivery];
    }

    /** deliverToolCallStart after its await. */
    method DeliverToolCallStartResumes(delivery: nat, ok: bool)
      requires delivery < |deliveries| && deliveries[delivery].phase == Sent
      modifies this
      ensures Now() == Next(old(Now()), Ack(delivery, ok))
    {
      var id := deliveries[delivery].id;
      wire := wire + [ToolCallAcked(id, ok)];
      if ok {
        deliveredToolCalls := deliveredToolCalls + {id};
      }
      deliveries := deliveries[delivery := Delivery(id, Acked(ok))];
    }

    /** The `finally` of sendToolCall. */
    method SendToolCallFinally(delivery: nat)
      requires delivery < |deliveries| && deliveries[delivery].phase.Acked?
      modifies this
      ensures Now() == Next(old(Now()), Finalize(delivery))
    {
      var id := deliveries[delivery].id;
      if id in toolCallStartDeliveries && toolCallStartDeliveries[id] == delivery {
        toolCallStartDeliveries := toolCallStartDeliveries - {id};
      }
      deliveries := deliveries[delivery := Delivery(id, Settled(deliveries[delivery].phase.ok))];
    }

    /** ToolCallComplete after the await on the delivery, up to the await on its update. */
    method ToolCallCompleteResumes(n: nat)
      requires n < |completions| && StartOutcome(Now(), completions[n]).Some?
      modifies this
      ensures Now() == Next(old(Now()), Resume(n))
    {
      var c := completions[n];
      var hasStartNotification := match c.stage
        case WaitingFor(d) => deliveries[d].phase.ok
        case _ => true;
      if !hasStartNotification {
        deliveredToolCalls := deliveredToolCalls - {c.id};
        completions := completions[n := c.(stage := Finished)];
        return;
      }
      if c.terminal {
        wire := wire + [ResultUpdate(c.id, c.isError, false, false)];
      } else {
        var shouldOmitRawOutput := c.call.Some? && (c.call.value.name == "Create" || c.call.value.name == "Edit");
        wire := wire + [ResultUpdate(c.id, c.isError, true, !shouldOmitRawOutput)];
      }
      completions := completions[n := c.(stage := Updating)];
    }

    /** The `finally` of ToolCallComplete, whether its update arrived or not. */
    method ToolCallCompleteFinally(n: nat)
      requires n < |completions| && completions[n].stage == Updating
      modifies this
      ensures Now() == Next(old(Now()), UpdateDone(n))
    {
      deliveredToolCalls := deliveredToolCalls - {completions[n].id};
      completions := completions[n := completions[n].(stage := Finished)];
    }

    method OnToolStreamingUpdate(id: Id, terminalId: string)
      modifies this
      ensures Now() == Next(old(Now()), Streaming(id, terminalId))
    {
      if terminalId != "" && id !in embeddedTerminals {
        embeddedTerminals := embeddedTerminals + {id};
        wire := wire + [TerminalUpdate(id, terminalId)];
      }
    }
  }
}
