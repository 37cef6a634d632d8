/** The ordered list of queued user messages that the session state manager keeps. */
module QueuedMessages {
  import opened Collections

  datatype Kind =
    | LocalDeferredAfterEsc
    | LocalPausedAfterEsc
    | LocalDeferredDuringManualCompaction
    | DaemonQueued

  /** requestId is the number of the UUID; blank says that the trimmed text is empty. */
  datatype Message = Message(requestId: nat, kind: Kind, blank: bool, images: nat, files: nat)

  predicate IsEmpty(m: Message) { m.blank && m.images == 0 && m.files == 0 }

  function Ids(q: seq<Message>): set<nat> {
    if q == [] then {} else Ids(Front(q)) + {Last(q).requestId}
  }

  predicate DistinctIds(q: seq<Message>) {
    q == [] || (DistinctIds(Front(q)) && Last(q).requestId !in Ids(Front(q)))
  }

  function OfKind(q: seq<Message>, k: Kind): seq<Message> {
    if q == [] then []
    else if Last(q).kind == k then OfKind(Front(q), k) + [Last(q)]
    else OfKind(Front(q), k)
  }

  function NotOfKind(q: seq<Message>, k: Kind): seq<Message> {
    if q == [] then []
    else if Last(q).kind == k then NotOfKind(Front(q), k)
    else NotOfKind(Front(q), k) + [Last(q)]
  }

  /** q without the messages of the given ids. */
  function Drop(q: seq<Message>, ids: set<nat>): seq<Message> {
    if q == [] then []
    else if Last(q).requestId in ids then Drop(Front(q), ids)
    else Drop(Front(q), ids) + [Last(q)]
  }

  /** The position of the first message of a kind, |q| when there is none. */
  function FirstOf(q: seq<Message>, k: Kind): (i: nat)
    ensures i <= |q|
  {
    if q == [] || q[0].kind == k then 0 else 1 + FirstOf(q[1..], k)
  }

  lemma {:induction false} FirstOfIs(q: seq<Message>, k: Kind)
    ensures var i := FirstOf(q, k);
            (forall j :: 0 <= j < i ==> q[j].kind != k) && (i < |q| ==> q[i].kind == k)
  {
    if q != [] && q[0].kind != k {
      FirstOfIs(q[1..], k);
    }
  }

  function Without(q: seq<Message>, i: nat): seq<Message>
    requires i < |q|
  {
    q[..i] + q[i + 1..]
  }

  /** Map.set: a message of a known id takes the place of the old one, any other goes to the end. */
  function Put(q: seq<Message>, m: Message): seq<Message> {
    if q == [] then [m]
    else if Last(q).requestId == m.requestId then Front(q) + [m]
    else if m.requestId in Ids(Front(q)) then Put(Front(q), m) + [Last(q)]
    else q + [m]
  }

  /** The messages as a map by id, in the order of their first occurrence. */
  function Merge(ms: seq<Message>): seq<Message> {
    if ms == [] then [] else Put(Merge(Front(ms)), Last(ms))
  }

  function RestoreToFront(q: seq<Message>, ms: seq<Message>): seq<Message> {
    Merge(ms) + Drop(q, Ids(ms))
  }

  lemma {:induction false} PutNew(q: seq<Message>, m: Message)
    requires m.requestId !in Ids(q)
    ensures Put(q, m) == q + [m]
  {}

  /** Messages of different ids are merged into themselves. */
  lemma {:induction false} MergeDistinct(ms: seq<Message>)
    requires DistinctIds(ms)
    ensures Merge(ms) == ms
  {
    if ms != [] {
      MergeDistinct(Front(ms));
      PutNew(Front(ms), Last(ms));
      assert ms == Front(ms) + [Last(ms)];
    }
  }

  lemma {:induction false} PutKeepsIds(q: seq<Message>, m: Message)
    requires DistinctIds(q)
    ensures Ids(Put(q, m)) == Ids(q) + {m.requestId} && DistinctIds(Put(q, m))
  {
    hide OfKind, Drop;
    if q == [] {
      Single(m, m.kind, {});
    } else {
      Sum(Front(q), [m], m.kind, {});
      Single(m, m.kind, {});
      Single(Last(q), m.kind, {});
      if Last(q).requestId != m.requestId && m.requestId in Ids(Front(q)) {
        PutKeepsIds(Front(q), m);
        Sum(Put(Front(q), m), [Last(q)], m.kind, {});
      } else if Last(q).requestId != m.requestId {
        Sum(q, [m], m.kind, {});
      }
    }
  }

  /** A message of a known id takes exactly the place of the old one; the others keep theirs. */
  lemma {:induction false} PutReplaces(q: seq<Message>, m: Message, i: nat)
    requires DistinctIds(q) && i < |q| && m.requestId in Ids(q)
    ensures |Put(q, m)| == |q| && Put(q, m)[i] == if q[i].requestId == m.requestId then m else q[i]
  {
    IdsAre(Front(q), m.requestId);
    if Last(q).requestId != m.requestId {
      PutReplaces(Front(q), m, if i < |q| - 1 then i else 0);
    } else if i < |q| - 1 {
      assert Front(q)[i] == q[i];
    }
  }

  lemma {:induction false} IdsAre(q: seq<Message>, id: nat)
    ensures id in Ids(q) <==> exists i :: 0 <= i < |q| && q[i].requestId == id
  {
    if q != [] {
      IdsAre(Front(q), id);
      assert forall i :: 0 <= i < |q| ==> q[i] == if i < |q| - 1 then Front(q)[i] else Last(q);
    }
  }

  /** Of several messages of one id the last one is kept. */
  lemma {:induction false} MergeKeepsTheLast(ms: seq<Message>, i: nat)
    requires i < |ms| && forall j :: i < j < |ms| ==> ms[j].requestId != ms[i].requestId
    ensures ms[i] in Merge(ms) && DistinctIds(Merge(ms)) && Ids(Merge(ms)) == Ids(ms)
  {
    MergeIds(ms);
    var f := Merge(Front(ms));
    MergeIds(Front(ms));
    if i < |ms| - 1 {
      MergeKeepsTheLast(Front(ms), i);
      var k :| 0 <= k < |f| && f[k] == ms[i];
      if Last(ms).requestId in Ids(f) {
        PutReplaces(f, Last(ms), k);
      } else {
        PutNew(f, Last(ms));
      }
    } else if Last(ms).requestId in Ids(f) {
      IdsAre(f, Last(ms).requestId);
      var k :| 0 <= k < |f| && f[k].requestId == Last(ms).requestId;
      PutReplaces(f, Last(ms), k);
    } else {
      PutNew(f, Last(ms));
    }
  }

  lemma {:induction false} MergeIds(ms: seq<Message>)
    ensures DistinctIds(Merge(ms)) && Ids(Merge(ms)) == Ids(ms)
  {
    if ms != [] {
      MergeIds(Front(ms));
      PutKeepsIds(Merge(Front(ms)), Last(ms));
    }
  }

  /** Dropping takes out the messages of the given ids and no others. */
  lemma {:induction false} DropIs(q: seq<Message>, ids: set<nat>, m: Message)
    ensures m in Drop(q, ids) <==> m in q && m.requestId !in ids
  {
    if q != [] {
      DropIs(Front(q), ids, m);
      assert q == Front(q) + [Last(q)];
    }
  }

  // ----- how these combine

  lemma {:induction false} Sum(a: seq<Message>, b: seq<Message>, k: Kind, ids: set<nat>)
    ensures OfKind(a + b, k) == OfKind(a, k) + OfKind(b, k)
    ensures Drop(a + b, ids) == Drop(a, ids) + Drop(b, ids)
    ensures Ids(a + b) == Ids(a) + Ids(b)
    ensures DistinctIds(a + b) <==> DistinctIds(a) && DistinctIds(b) && Ids(a) !! Ids(b)
  {
    if b == [] {
      assert a + b == a;
    } else {
      Sum(a, Front(b), k, ids);
      assert Front(a + b) == a + Front(b);
    }
  }

  lemma {:induction false} Single(m: Message, k: Kind, ids: set<nat>)
    ensures OfKind([m], k) == if m.kind == k then [m] else []
    ensures Drop([m], ids) == if m.requestId in ids then [] else [m]
    ensures Ids([m]) == {m.requestId}
    ensures DistinctIds([m])
  {
    var q := [m];
    assert Front(q) == [] && Last(q) == m;
    assert OfKind([], k) == [] && Drop([], ids) == [] && Ids([]) == {};
  }

  /** Taking the first message of a kind out takes the head of that kind's sequence and nothing else. */
  lemma {:induction false} TakeFirst(q: seq<Message>, k: Kind, other: Kind)
    requires FirstOf(q, k) < |q|
    ensures var i := FirstOf(q, k);
            && OfKind(q, k) == [q[i]] + OfKind(Without(q, i), k)
            && (other != k ==> OfKind(Without(q, i), other) == OfKind(q, other))
            && Ids(q) == Ids(Without(q, i)) + {q[i].requestId}
            && (DistinctIds(q) ==> DistinctIds(Without(q, i)) && q[i].requestId !in Ids(Without(q, i)))
  {
    hide OfKind, Ids, DistinctIds, Drop, FirstOf;
    FirstOfIs(q, k);
    var i := FirstOf(q, k);
    var a, m, b := q[..i], q[i], q[i + 1..];
    assert q == a + ([m] + b);
    Sum(a, [m] + b, k, {}); Sum(a, [m] + b, other, {});
    Sum([m], b, k, {}); Sum([m], b, other, {});
    Sum(a, b, k, {}); Sum(a, b, other, {});
    Single(m, k, {}); Single(m, other, {});
    NoneOfKind(a, k);
  }

  lemma {:induction false} NoneOfKind(q: seq<Message>, k: Kind)
    requires forall j :: 0 <= j < |q| ==> q[j].kind != k
    ensures OfKind(q, k) == []
  {
    if q != [] {
      NoneOfKind(Front(q), k);
    }
  }

  lemma {:induction false} DropNothing(q: seq<Message>, ids: set<nat>)
    requires Ids(q) !! ids
    ensures Drop(q, ids) == q
  {
    if q != [] {
      DropNothing(Front(q), ids);
      assert q == Front(q) + [Last(q)];
    }
  }

  lemma {:induction false} DropOfKind(q: seq<Message>, k: Kind, ids: set<nat>)
    ensures OfKind(Drop(q, ids), k) == Drop(OfKind(q, k), ids)
    ensures Ids(Drop(q, ids)) == Ids(q) - ids
    ensures DistinctIds(q) ==> DistinctIds(Drop(q, ids))
  {
    if q != [] {
      DropOfKind(Front(q), k, ids);
      Sum(Drop(Front(q), ids), [Last(q)], k, ids);
      Single(Last(q), k, ids);
      Sum(OfKind(Front(q), k), [Last(q)], k, ids);
    }
  }

  lemma {:induction false} DropDrop(q: seq<Message>, a: set<nat>, b: set<nat>)
    ensures Drop(Drop(q, a), b) == Drop(q, a + b)
  {
    if q != [] {
      DropDrop(Front(q), a, b);
      Sum(Drop(Front(q), a), [Last(q)], DaemonQueued, b);
      Single(Last(q), DaemonQueued, b);
    }
  }

  lemma {:induction false} TakeAll(q: seq<Message>, k: Kind, other: Kind)
    ensures OfKind(OfKind(q, k), k) == OfKind(q, k)
    ensures OfKind(NotOfKind(q, k), other) == if other == k then [] else OfKind(q, other)
  {
    if q != [] {
      TakeAll(Front(q), k, other);
      var m := Last(q);
      if m.kind == k {
        Sum(OfKind(Front(q), k), [m], k, {});
        Single(m, k, {});
      } else {
        Sum(NotOfKind(Front(q), k), [m], other, {});
        Single(m, other, {});
      }
    }
  }

  lemma {:induction false} TakeAllIds(q: seq<Message>, k: Kind)
    ensures Ids(OfKind(q, k)) + Ids(NotOfKind(q, k)) == Ids(q)
    ensures DistinctIds(q) ==>
              DistinctIds(OfKind(q, k)) && DistinctIds(NotOfKind(q, k)) && Ids(OfKind(q, k)) !! Ids(NotOfKind(q, k))
  {
    if q != [] {
      TakeAllIds(Front(q), k);
      var m := Last(q);
      Single(m, k, {});
      if m.kind == k {
        Sum(OfKind(Front(q), k), [m], k, {});
      } else {
        Sum(NotOfKind(Front(q), k), [m], k, {});
      }
    }
  }

  lemma {:induction false} KindsAre(q: seq<Message>, k: Kind, other: Kind)
    ensures forall m :: m in OfKind(q, k) ==> m.kind == k
    ensures other != k ==> OfKind(OfKind(q, k), other) == []
  {
    if q != [] {
      KindsAre(Front(q), k, other);
      Sum(OfKind(Front(q), k), [Last(q)], other, {});
      Single(Last(q), other, {});
    }
  }
}

module SessionQueue {
  import opened Collections
  import opened QueuedMessages

  /** The queue part of SessionStateManager, whose Map is keyed by request id and keeps insertion order. */
  class SessionStateManager {
    var queuedMessages: seq<Message>

    constructor ()
      ensures queuedMessages == []
    {
      queuedMessages := [];
    }

    /** A new id, as generateUUID makes them, goes to the end; a known one keeps its place. */
    method QueueUserMessage(m: Message)
      modifies this
      ensures queuedMessages == Put(old(queuedMessages), m)
      ensures m.requestId !in Ids(old(queuedMessages)) ==> queuedMessages == old(queuedMessages) + [m]
      ensures DistinctIds(old(queuedMessages)) ==>
                DistinctIds(queuedMessages) && Ids(queuedMessages) == Ids(old(queuedMessages)) + {m.requestId}
    {
      if DistinctIds(queuedMessages) {
        PutKeepsIds(queuedMessages, m);
      }
      queuedMessages := Put(queuedMessages, m);
    }

    method ClearQueuedMessage(requestId: nat)
      modifies this
      ensures queuedMessages == Drop(old(queuedMessages), {requestId})
    {
      var kept: seq<Message> := [];
      var q := queuedMessages;
      for i := 0 to |q|
        invariant kept == Drop(q[..i], {requestId})
        invariant queuedMessages == q
      {
        assert Front(q[..i + 1]) == q[..i];
        if q[i].requestId != requestId {
          kept := kept + [q[i]];
        }
      }
      assert q[..|q|] == q;
      queuedMessages := kept;
    }

    /** The first message of the kind leaves the queue. */
    method DequeueQueuedMessage(kind: Kind) returns (taken: Option<Message>)
      modifies this
      ensures var q := old(queuedMessages);
              var i := FirstOf(q, kind);
              if i < |q| then taken == Some(q[i]) && queuedMessages == Without(q, i)
              else taken == None && queuedMessages == q
    {
      var q := queuedMessages;
      for i := 0 to |q|
        invariant queuedMessages == q
        invariant forall j :: 0 <= j < i ==> q[j].kind != kind
      {
        if q[i].kind == kind {
          FirstOfIs(q, kind);
          queuedMessages := q[..i] + q[i + 1..];
          return Some(q[i]);
        }
      }
      FirstOfIs(q, kind);
      taken := None;
    }

    /** All messages of the kind leave the queue, in their order. */
    method DequeueQueuedMessages(kind: Kind) returns (taken: seq<Message>)
      modifies this
      ensures taken == OfKind(old(queuedMessages), kind)
      ensures queuedMessages == NotOfKind(old(queuedMessages), kind)
    {
      var q := queuedMessages;
      var kept: seq<Message> := [];
      taken := [];
      for i := 0 to |q|
        invariant taken == OfKind(q[..i], kind) && kept == NotOfKind(q[..i], kind)
      {
        assert Front(q[..i + 1]) == q[..i];
        if q[i].kind == kind {
          taken := taken + [q[i]];
        } else {
          kept := kept + [q[i]];
        }
      }
      assert q[..|q|] == q;
      queuedMessages := kept;
    }

    /** The messages go ahead of everything queued; an entry of the same id goes away. */
    method RestoreQueuedMessagesToFront(messages: seq<Message>)
      modifies this
      ensures queuedMessages == RestoreToFront(old(queuedMessages), messages)
    {
      if messages == [] {
        AllStay(queuedMessages);
        return;
      }
      var rest := queuedMessages;
      var restored: seq<Message> := [];
      DropNothing(rest, {});
      for i := 0 to |messages|
        invariant restored == Merge(messages[..i])
        invariant rest == Drop(queuedMessages, Ids(messages[..i]))
        invariant queuedMessages == old(queuedMessages)
      {
        assert Front(messages[..i + 1]) == messages[..i];
        DropDrop(queuedMessages, Ids(messages[..i]), {messages[i].requestId});
        var kept: seq<Message> := [];
        for j := 0 to |rest|
          invariant kept == Drop(rest[..j], {messages[i].requestId})
          invariant queuedMessages == old(queuedMessages)
        {
          assert Front(rest[..j + 1]) == rest[..j];
          if rest[j].requestId != messages[i].requestId {
            kept := kept + [rest[j]];
          }
        }
        assert rest[..|rest|] == rest;
        rest := kept;
        restored := Put(restored, messages[i]);
      }
      assert messages[..|messages|] == messages;
      queuedMessages := restored + rest;
    }

    lemma {:induction false} AllStay(q: seq<Message>)
      ensures RestoreToFront(q, []) == q
    {
      DropNothing(q, {});
    }
  }
}
