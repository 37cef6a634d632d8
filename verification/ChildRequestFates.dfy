/** Each request to the child process is settled as if it were the only one, by the first event that can settle it. */
module ChildRequestFates {
  import opened Collections
  import opened InsertionMaps
  import opened Decimals
  import opened ChildRequests

  datatype Fate = NotIssued | Pending | Settled(with: Settlement)

  function Requests(es: seq<Event>): nat {
    if es == [] then 0 else Requests(Front(es)) + if Last(es).SendRequest? then 1 else 0
  }

  /** What a message says to the request whose id it carries, None when it is no response. */
  function Says(m: Message): Option<Settlement> {
    if m.Unparsable? || m.id.None? then None
    else if m.error.Some? then Some(RpcError(if m.error.value == "" then "RPC error" else m.error.value))
    else if m.result.Some? then Some(Result(m.result.value))
    else None
  }

  /** What becomes of request n, which is issued by the n-th SendRequest. */
  function FateOf(es: seq<Event>, n: nat): Fate {
    if es == [] then NotIssued
    else
      var before := FateOf(Front(es), n);
      match before
      case NotIssued => if Last(es).SendRequest? && Requests(es) == n then Pending else NotIssued
      case Settled(_) => before
      case Pending =>
        match Last(es)
        case SendRequest => Pending
        case SendFails(m) => if m == n then Settled(SendFailed) else Pending
        case Receives(m) =>
          if Says(m).Some? && m.id.value == Decimal(n) then Settled(Says(m).value) else Pending
        case ProcessError => Settled(ProcessFailed)
        case Close => Settled(Closing)
  }

  ghost predicate Shows(s: State, f: Fate, n: nat) {
    && (n in s.settled <==> f.Settled?)
    && (f.Settled? ==> s.settled[n] == f.with)
    && (Decimal(n) in s.pending.at <==> f.Pending?)
    && (f.NotIssued? <==> n == 0 || s.counter < n)
  }

  lemma {:induction false} NotYet(es: seq<Event>, n: nat)
    ensures FateOf(es, n).NotIssued? <==> n == 0 || Requests(es) < n
  {
    if es != [] {
      NotYet(Front(es), n);
    }
  }

  lemma {:induction false} CounterStep(s: State, e: Event)
    requires Inv(s)
    ensures Next(s, e).counter == s.counter + if e.SendRequest? then 1 else 0
  {
    hide SettleAll, Decimal, Inv;
    SettleAllFacts(s, ProcessFailed);
    SettleAllFacts(s, Closing);
  }

  lemma {:induction false} CounterCounts(es: seq<Event>)
    ensures Run(es).counter == Requests(es)
  {
    if es != [] {
      hide Next, Inv;
      CounterCounts(Front(es));
      RunInv(Front(es));
      CounterStep(Run(Front(es)), Last(es));
    }
  }

  lemma {:induction false} SettledShows(s: State, f: Fate, x: nat, o: Settlement, n: nat)
    requires Inv(s) && Shows(s, f, n) && 1 <= x <= s.counter
    ensures Shows(Settle(s.(pending := s.pending.Delete(Decimal(x))), x, o),
                  if x == n && f.Pending? then Settled(o) else f, n)
  {
    hide Decimal;
    if Decimal(x) == Decimal(n) { DecimalInjective(x, n); }
  }

  lemma {:induction false} ReceivedShows(s: State, f: Fate, m: Message, n: nat)
    requires Inv(s) && Shows(s, f, n)
    ensures Shows(Receive(s, m),
                  if f.Pending? && Says(m).Some? && m.id.value == Decimal(n) then Settled(Says(m).value) else f, n)
  {
    hide Decimal;
    if Says(m).Some? && m.id.value in s.pending.at {
      SettledShows(s, f, s.pending.at[m.id.value], Says(m).value, n);
      if m.id.value == Decimal(n) { DecimalInjective(s.pending.at[m.id.value], n); }
    }
  }

  lemma {:induction false} EndedShows(s: State, f: Fate, o: Settlement, n: nat)
    requires Inv(s) && Shows(s, f, n)
    ensures Shows(SettleAll(s, o), if f.Pending? then Settled(o) else f, n)
  {
    hide Decimal, SettleAll;
    SettleAllFacts(s, o);
  }

  lemma {:induction false} IssuedShows(s: State, f: Fate, n: nat)
    requires Inv(s) && Shows(s, f, n)
    ensures Shows(Issue(s), if f.NotIssued? && n == s.counter + 1 then Pending else f, n)
  {
    hide Decimal;
    if Decimal(s.counter + 1) == Decimal(n) { DecimalInjective(s.counter + 1, n); }
  }

  /**
   * In every run the table and the promises show of each request exactly what the events make of it alone:
   * pending from its issue to the first failure of its own send, response under its own id, error of the
   * process or close, and settled with that from then on.
   */
  lemma {:induction false} EachRequestByItself(es: seq<Event>, n: nat)
    ensures Shows(Run(es), FateOf(es, n), n)
  {
    hide Shows, Inv, Decimal, Receive, Issue, SettleAll;
    if es == [] {
      NothingIssued(n);
    } else {
      var s, f := Run(Front(es)), FateOf(Front(es), n);
      EachRequestByItself(Front(es), n);
      RunInv(Front(es));
      CounterCounts(Front(es));
      match Last(es)
      case SendRequest => IssuedShows(s, f, n);
      case SendFails(m) => if 1 <= m <= s.counter { SettledShows(s, f, m, SendFailed, n); } else { Unissued(s, f, n); }
      case Receives(m) => ReceivedShows(s, f, m, n);
      case ProcessError => if s.isSetup { EndedShows(s, f, ProcessFailed, n); } else { Unissued(s, f, n); }
      case Close => EndedShows(s, f, Closing, n);
    }
  }

  lemma {:induction false} NothingIssued(n: nat)
    ensures Shows(Run([]), FateOf([], n), n)
  {}

  /** A pending request has been issued, by an adapter that was set up. */
  lemma {:induction false} Unissued(s: State, f: Fate, n: nat)
    requires Inv(s) && Shows(s, f, n)
    ensures f.Pending? ==> 1 <= n <= s.counter && s.isSetup
  {
    hide Decimal;
  }
}
