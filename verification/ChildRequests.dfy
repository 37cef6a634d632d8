/**
 * The request table of ChildProcessHandler as a transition system: requests to the child process, its
 * messages, failed sends, process errors and close, in any order.
 */
module ChildRequests {
  import opened Collections
  import opened InsertionMaps
  import opened Decimals

  datatype Settlement = Result(payload: string) | RpcError(message: string) | SendFailed | ProcessFailed | Closing

  /** A message of the child after JSON.parse; text that is not a JSON object is Unparsable. */
  datatype Message =
    | Unparsable
    | Parsed(id: Option<string>, hasMethod: bool, error: Option<string>, result: Option<string>)

  /** Request number n travels under the id String(n); the table leads from the id back to n. */
  datatype State = State(
    counter: nat,
    isSetup: bool,
    pending: InsertionMap<string, nat>,
    settled: map<nat, Settlement>)

  const INITIAL := State(0, false, EmptyMap(), map[])

  /** Resolving or rejecting a promise a second time does nothing. */
  function Settle(s: State, n: nat, o: Settlement): State {
    if n in s.settled then s else s.(settled := s.settled[n := o])
  }

  function Issue(s: State): State {
    var n := s.counter + 1;
    s.(counter := n, isSetup := true, pending := s.pending.Set(Decimal(n), n))
  }

  function FailSend(s: State, n: nat): State {
    if 1 <= n <= s.counter then Settle(s.(pending := s.pending.Delete(Decimal(n))), n, SendFailed) else s
  }

  predicate IsResponse(m: Message) {
    m.Parsed? && m.id.Some? && (m.result.Some? || m.error.Some?)
  }

  function Outcome(m: Message): Settlement
    requires IsResponse(m)
  {
    if m.error.Some? then RpcError(if m.error.value == "" then "RPC error" else m.error.value)
    else Result(m.result.value)
  }

  function Receive(s: State, m: Message): State {
    if s.isSetup && IsResponse(m) && m.id.value in s.pending.at then
      Settle(s.(pending := s.pending.Delete(m.id.value)), s.pending.at[m.id.value], Outcome(m))
    else s
  }

  function SettleEach(s: State, ids: seq<string>, o: Settlement): State {
    if ids == [] then s
    else
      var t := SettleEach(s, Front(ids), o);
      if Last(ids) in s.pending.at then Settle(t, s.pending.at[Last(ids)], o) else t
  }

  function SettleAll(s: State, o: Settlement): State {
    SettleEach(s, s.pending.order, o).(pending := EmptyMap())
  }

  datatype Event = SendRequest | SendFails(request: nat) | Receives(message: Message) | ProcessError | Close

  function Next(s: State, e: Event): State {
    match e
    case SendRequest => Issue(s)
    case SendFails(n) => FailSend(s, n)
    case Receives(m) => Receive(s, m)
    case ProcessError => if s.isSetup then SettleAll(s, ProcessFailed) else s
    case Close => SettleAll(s, Closing)
  }

  function RunFrom(s: State, es: seq<Event>): State {
    if es == [] then s else Next(RunFrom(s, Front(es)), Last(es))
  }

  function Run(es: seq<Event>): State { RunFrom(INITIAL, es) }

  // ----- the invariant

  ghost predicate Inv(s: State) {
    && s.pending.Valid()
    && (!s.isSetup ==> s.counter == 0)
    && (forall id :: id in s.pending.at ==>
      1 <= s.pending.at[id] <= s.counter && id == Decimal(s.pending.at[id]))
    && (forall n :: n in s.settled ==> 1 <= n <= s.counter)
    && (forall n :: 1 <= n <= s.counter ==> (Decimal(n) in s.pending.at <==> n !in s.settled))
  }

  lemma {:induction false} NewIdIsUnused(s: State)
    requires Inv(s)
    ensures Decimal(s.counter + 1) !in s.pending.at
    ensures forall n :: 1 <= n <= s.counter ==> Decimal(n) != Decimal(s.counter + 1)
  {
    forall n | 1 <= n <= s.counter ensures Decimal(n) != Decimal(s.counter + 1) {
      if Decimal(n) == Decimal(s.counter + 1) { DecimalInjective(n, s.counter + 1); }
    }
  }

  lemma {:induction false} IssueKeepsInv(s: State)
    requires Inv(s)
    ensures Inv(Issue(s))
  {
    NewIdIsUnused(s);
    var n, t := s.counter + 1, Issue(s);
    assert t.pending.at == s.pending.at[Decimal(n) := n] && t.settled == s.settled;
  }

  /** Taking one request out of the table and settling it. */
  lemma {:induction false} SettleKeepsInv(s: State, n: nat, o: Settlement)
    requires Inv(s) && 1 <= n <= s.counter
    ensures Inv(Settle(s.(pending := s.pending.Delete(Decimal(n))), n, o))
  {
    var t := Settle(s.(pending := s.pending.Delete(Decimal(n))), n, o);
    forall m | 1 <= m <= t.counter ensures Decimal(m) in t.pending.at <==> m !in t.settled {
      if Decimal(m) == Decimal(n) { DecimalInjective(m, n); }
    }
  }

  lemma {:induction false} SettleEachFacts(s: State, ids: seq<string>, o: Settlement)
    ensures var t := SettleEach(s, ids, o);
            && t == s.(settled := t.settled)
            && (forall n :: n in t.settled <==>
                  n in s.settled || exists id :: id in Elements(ids) && id in s.pending.at && s.pending.at[id] == n)
            && (forall n :: n in t.settled ==> t.settled[n] == if n in s.settled then s.settled[n] else o)
  {
    if ids != [] {
      SettleEachFacts(s, Front(ids), o);
      var t := SettleEach(s, ids, o);
      forall n ensures n in t.settled <==>
        n in s.settled || exists id :: id in Elements(ids) && id in s.pending.at && s.pending.at[id] == n {}
    }
  }

  lemma {:induction false} SettleAllFacts(s: State, o: Settlement)
    requires Inv(s)
    ensures var t := SettleAll(s, o);
            && Inv(t) && t.counter == s.counter && t.pending == EmptyMap()
            && (forall n :: 1 <= n <= s.counter ==>
                  n in t.settled && t.settled[n] == if n in s.settled then s.settled[n] else o)
  {
    SettleEachFacts(s, s.pending.order, o);
    var t := SettleAll(s, o);
    forall n | 1 <= n <= s.counter ensures n in t.settled {
      if n !in s.settled {
        var id := Decimal(n);
        assert id in Elements(s.pending.order) && id in s.pending.at;
        if Decimal(s.pending.at[id]) == Decimal(n) { DecimalInjective(s.pending.at[id], n); }
      }
    }
  }

  /** Nothing settled changes, and what is newly pending is new. */
  ghost predicate Extends(s: State, t: State) {
    && s.counter <= t.counter
    && (forall n :: n in s.settled ==> n in t.settled && t.settled[n] == s.settled[n])
    && (forall id :: id in t.pending.at ==>
      if id in s.pending.at then t.pending.at[id] == s.pending.at[id] else t.pending.at[id] > s.counter)
  }

  lemma {:induction false} IssueExtends(s: State)
    requires Inv(s)
    ensures Inv(Issue(s)) && Extends(s, Issue(s))
  {
    hide Decimal;
    IssueKeepsInv(s);
    NewIdIsUnused(s);
  }

  lemma {:induction false} SettleExtends(s: State, n: nat, o: Settlement)
    requires Inv(s) && 1 <= n <= s.counter
    ensures var t := Settle(s.(pending := s.pending.Delete(Decimal(n))), n, o); Inv(t) && Extends(s, t)
  {
    hide Decimal;
    SettleKeepsInv(s, n, o);
  }

  lemma {:induction false} SettleAllExtends(s: State, o: Settlement)
    requires Inv(s)
    ensures Inv(SettleAll(s, o)) && Extends(s, SettleAll(s, o))
  {
    hide Decimal, SettleAll;
    SettleAllFacts(s, o);
  }

  lemma {:induction false} ReceiveExtends(s: State, m: Message)
    requires Inv(s)
    ensures Inv(Receive(s, m)) && Extends(s, Receive(s, m))
  {
    hide Decimal;
    if s.isSetup && IsResponse(m) && m.id.value in s.pending.at {
      SettleExtends(s, s.pending.at[m.id.value], Outcome(m));
    }
  }

  lemma {:induction false} NextKeepsInv(s: State, e: Event)
    requires Inv(s)
    ensures Inv(Next(s, e)) && Extends(s, Next(s, e))
  {
    hide Inv, Issue, SettleAll, Receive, Decimal;
    match e
    case SendRequest => IssueExtends(s);
    case SendFails(n) => if 1 <= n <= s.counter { SettleExtends(s, n, SendFailed); }
    case Receives(m) => ReceiveExtends(s, m);
    case ProcessError => SettleAllExtends(s, ProcessFailed);
    case Close => SettleAllExtends(s, Closing);
  }

  lemma {:induction false} RunInv(es: seq<Event>)
    ensures Inv(Run(es))
  {
    if es != [] {
      RunInv(Front(es));
      NextKeepsInv(Run(Front(es)), Last(es));
    }
  }

  // ----- main results

  /** Every request issued so far is either pending under its id or settled, and never both. */
  lemma {:induction false} IssuedIsPendingOrSettled(es: seq<Event>, n: nat)
    requires 1 <= n <= Run(es).counter
    ensures var s := Run(es);
            && (n in s.settled <==> Decimal(n) !in s.pending.at)
            && (n !in s.settled ==> s.pending.at[Decimal(n)] == n)
  {
    RunInv(es);
    var s := Run(es);
    if n !in s.settled && Decimal(s.pending.at[Decimal(n)]) == Decimal(n) {
      DecimalInjective(s.pending.at[Decimal(n)], n);
    }
  }

  lemma {:induction false} RunFromKeeps(s: State, es: seq<Event>)
    requires Inv(s)
    ensures var t := RunFrom(s, es);
            && Inv(t) && s.counter <= t.counter
            && (forall n :: n in s.settled ==> n in t.settled && t.settled[n] == s.settled[n])
            && (forall id :: id in t.pending.at && id !in s.pending.at ==> t.pending.at[id] > s.counter)
  {
    if es != [] {
      RunFromKeeps(s, Front(es));
      NextKeepsInv(RunFrom(s, Front(es)), Last(es));
    }
  }

  lemma {:induction false} RunSplits(es: seq<Event>, more: seq<Event>)
    ensures Run(es + more) == RunFrom(Run(es), more)
  {
    if more == [] {
      assert es + more == es;
    } else {
      RunSplits(es, Front(more));
      assert Front(es + more) == es + Front(more);
    }
  }

  /** The first settlement of a request stands, whatever comes later. */
  lemma {:induction false} FirstSettlementWins(es: seq<Event>, more: seq<Event>, n: nat)
    requires n in Run(es).settled
    ensures n in Run(es + more).settled && Run(es + more).settled[n] == Run(es).settled[n]
  {
    RunInv(es);
    RunFromKeeps(Run(es), more);
    RunSplits(es, more);
  }

  /** A new request has a number above all earlier ones and an id that none of them has. */
  lemma {:induction false} IdsAreNeverReused(es: seq<Event>, more: seq<Event>, m: nat)
    requires m <= Run(es).counter
    ensures var n := Run(es + more + [SendRequest]).counter;
            n > m && Decimal(n) != Decimal(m)
  {
    RunInv(es);
    RunFromKeeps(Run(es), more);
    RunSplits(es, more);
    assert Front(es + more + [SendRequest]) == es + more;
    var n := Run(es + more + [SendRequest]).counter;
    if Decimal(n) == Decimal(m) { DecimalInjective(n, m); }
  }

  /** A message settles at most the pending request whose id it carries. */
  lemma {:induction false} ResponseSettlesItsOwn(es: seq<Event>, m: Message, n: nat)
    requires n !in Run(es).settled && n in Run(es + [Receives(m)]).settled
    ensures IsResponse(m) && m.id.value == Decimal(n)
    ensures Run(es + [Receives(m)]).settled == Run(es).settled[n := Outcome(m)]
    ensures Run(es + [Receives(m)]).pending == Run(es).pending.Delete(Decimal(n))
  {
    RunInv(es);
    assert Front(es + [Receives(m)]) == es;
  }

  /** After close, or an error of the process, no request issued before it is ever pending again. */
  lemma {:induction false} NothingPendingAfterClose(es: seq<Event>, e: Event, more: seq<Event>, n: nat)
    requires e.Close? || e.ProcessError?
    requires 1 <= n <= Run(es).counter
    ensures n in Run(es + [e]).settled
    ensures Decimal(n) !in Run(es + [e] + more).pending.at
  {
    hide Inv, Next;
    RunInv(es);
    assert Front(es + [e]) == es;
    EndSettles(Run(es), e, n);
    RunFromKeeps(Run(es + [e]), more);
    RunSplits(es + [e], more);
    if Decimal(n) in Run(es + [e] + more).pending.at {
      PendingUnderItsOwn(es + [e] + more, n);
    }
  }

  lemma {:induction false} EndSettles(s: State, e: Event, n: nat)
    requires Inv(s) && (e.Close? || e.ProcessError?) && 1 <= n <= s.counter
    ensures var t := Next(s, e); Inv(t) && t.counter == s.counter && t.pending == EmptyMap() && n in t.settled
  {
    SettleAllFacts(s, if e.Close? then Closing else ProcessFailed);
  }

  lemma {:induction false} PendingUnderItsOwn(es: seq<Event>, n: nat)
    requires Decimal(n) in Run(es).pending.at
    ensures Run(es).pending.at[Decimal(n)] == n
  {
    hide Decimal, Run;
    RunInv(es);
    DecimalInjective(Run(es).pending.at[Decimal(n)], n);
  }
}
