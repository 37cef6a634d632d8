/** ChildProcessHandler: the pending-request table of one child process. */
module ChildProcess {
  import opened Collections
  import opened InsertionMaps
  import opened Decimals
  import opened ChildRequests

  class ChildProcessHandler {
    var pendingRequests: InsertionMap<string, nat>
    var requestIdCounter: nat
    var isSetup: bool

    // The promises handed out so far that have an answer.
    var settled: map<nat, Settlement>

    function Now(): State
      reads this
    {
      State(requestIdCounter, isSetup, pendingRequests, settled)
    }

    constructor ()
      ensures Now() == INITIAL
    {
      pendingRequests, requestIdCounter, isSetup := EmptyMap(), 0, false;
      settled := map[];
    }

    method EnsureSetup()
      modifies this`isSetup
      ensures isSetup
    {
      if !isSetup {
        isSetup := true;
      }
    }

    method SettlePromise(n: nat, o: Settlement)
      modifies this`settled
      ensures Now() == Settle(old(Now()), n, o)
    {
      if n !in settled {
        settled := settled[n := o];
      }
    }

    /** sendRequest up to its return; the answer is the id on the wire. */
    method SendRequestStart() returns (id: string)
      modifies this
      ensures Now() == Next(old(Now()), SendRequest)
      ensures id == Decimal(requestIdCounter)
    {
      EnsureSetup();
      requestIdCounter := requestIdCounter + 1;
      id := Decimal(requestIdCounter);
      pendingRequests := pendingRequests.Set(id, requestIdCounter);
    }

    /** The `catch` of the send of request n. */
    method SendCatch(n: nat)
      requires 1 <= n <= requestIdCounter
      modifies this
      ensures Now() == Next(old(Now()), SendFails(n))
    {
      pendingRequests := pendingRequests.Delete(Decimal(n));
      SettlePromise(n, SendFailed);
    }

    method OnMessage(m: Message)
      requires isSetup
      modifies this
      ensures Now() == Next(old(Now()), Receives(m))
    {
      if m.Unparsable? { return; }
      if m.id.Some? && (m.result.Some? || m.error.Some?) {
        var pending := pendingRequests.Get(m.id.value);
        if pending.Some? {
          pendingRequests := pendingRequests.Delete(m.id.value);
          if m.error.Some? {
            SettlePromise(pending.value, RpcError(if m.error.value != "" then m.error.value else "RPC error"));
          } else {
            SettlePromise(pending.value, Result(m.result.value));
          }
        }
      }
    }

    method RejectAll(o: Settlement)
      requires pendingRequests.Valid()
      modifies this
      ensures Now() == SettleAll(old(Now()), o)
    {
      ghost var was := Now();
      var ids := pendingRequests.order;
      for i := 0 to |ids|
        invariant Now() == SettleEach(was, ids[..i], o)
        invariant pendingRequests == was.pending
      {
        assert Front(ids[..i + 1]) == ids[..i];
        ElementsAre(ids, ids[i]);
        SettlePromise(pendingRequests.at[ids[i]], o);
      }
      assert ids[..|ids|] == ids;
      pendingRequests := EmptyMap();
    }

    method OnProcessError()
      requires isSetup && pendingRequests.Valid()
      modifies this
      ensures Now() == Next(old(Now()), ProcessError)
    {
      RejectAll(ProcessFailed);
    }

    method CloseHandler()
      requires pendingRequests.Valid()
      modifies this
      ensures Now() == Next(old(Now()), Close)
    {
      RejectAll(Closing);
    }
  }
}
