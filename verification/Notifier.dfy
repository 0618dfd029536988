/** Fan-out of captured requests to live subscribers (postgres_notifier.py): a registry
    of queues by endpoint, fed by a reader and drained by the subscribers. */
module Notifier {
  import opened Text

  datatype Notice = Notice(endpoint: Uuid, request: Uuid)

  /** The payload `save` sends with the insert. */
  function Payload(n: Notice): string {
    UuidText(n.endpoint) + ":" + UuidText(n.request)
  }

  /** The reader's parse: split at the first colon, both halves must be UUIDs. */
  function ParsePayload(s: string): Option<Notice> {
    var i := Find(s, ':');
    if i == |s| then None else
      var endpoint, request := ParseUuid(s[..i]), ParseUuid(s[i + 1..]);
      if endpoint.None? || request.None? then None else Some(Notice(endpoint.value, request.value))
  }

  /** The reader understands everything `save` sends. */
  lemma PayloadParsed(n: Notice)
    ensures ParsePayload(Payload(n)) == Some(n)
  {
    var s, left := Payload(n), UuidText(n.endpoint);
    assert s[..36] == left && s[37..] == UuidText(n.request);
    FindUnique(s, ':', 36);
    ParseUuidText(n.endpoint);
    ParseUuidText(n.request);
  }

  /** A text that spells a UUID: dashes anywhere, 32 digits in any letter case. */
  ghost predicate Spells(s: string, u: Uuid) {
    SameDigits(DropDashes(s), Hex(u, 32))
  }

  /** A payload reads as a notice exactly when it has a colon, its part before the first
      colon spells the endpoint and its part after it the request. */
  lemma ParsedExactly(s: string, n: Notice)
    ensures ParsePayload(s) == Some(n) <==>
              exists i :: 0 <= i < |s| && s[i] == ':' && ':' !in s[..i]
                && Spells(s[..i], n.endpoint) && Spells(s[i + 1..], n.request)
  {
    var i := Find(s, ':');
    if i < |s| {
      ParseUuidExactly(s[..i], n.endpoint);
      ParseUuidExactly(s[i + 1..], n.request);
    }
    forall j | 0 <= j < |s| && s[j] == ':' && ':' !in s[..j] ensures i == j {
      FindUnique(s, ':', j);
    }
  }

  /** The requests of an endpoint among some notices, in order. */
  function For(notices: seq<Notice>, endpoint: Uuid): seq<Uuid> {
    if notices == [] then [] else
      var last := notices[|notices| - 1];
      For(notices[..|notices| - 1], endpoint) + if last.endpoint == endpoint then [last.request] else []
  }

  lemma ForPush(notices: seq<Notice>, from: nat, n: Notice, endpoint: Uuid)
    requires from <= |notices|
    ensures For((notices + [n])[from..], endpoint)
         == For(notices[from..], endpoint) + if n.endpoint == endpoint then [n.request] else []
  {
    var tail := (notices + [n])[from..];
    assert tail == notices[from..] + [n];
    assert tail[..|tail| - 1] == notices[from..];
  }

  /** A subscriber: the endpoint it watches, how many notices had been read when it
      registered, and what it has taken so far. */
  datatype Subscription = Subscription(endpoint: Uuid, joinedAt: nat, received: seq<Uuid>)

  /** The notices a subscription is owed, received or not. */
  function Due(s: Subscription, history: seq<Notice>): seq<Uuid> {
    if s.joinedAt <= |history| then For(history[s.joinedAt..], s.endpoint) else []
  }

  /** Endpoint to its subscribers' queues. */
  type Registry = map<Uuid, map<nat, seq<Uuid>>>

  predicate Live(queues: Registry, endpoint: Uuid, id: nat) {
    endpoint in queues && id in queues[endpoint]
  }

  /** What a subscriber took and what waits in its queue are together exactly the
      notices for its endpoint since it registered, in order. */
  ghost predicate UpToDate(waiting: seq<Uuid>, s: Subscription, history: seq<Notice>) {
    s.joinedAt <= |history| && s.received + waiting == Due(s, history)
  }

  /** Subscriber `id` of `endpoint` is served. */
  ghost predicate Served(queues: Registry, subscriptions: map<nat, Subscription>, history: seq<Notice>, endpoint: Uuid, id: nat)
    requires Live(queues, endpoint, id)
  {
    && id in subscriptions && subscriptions[id].endpoint == endpoint
    && UpToDate(queues[endpoint][id], subscriptions[id], history)
  }

  ghost predicate NoEmptyEntry(queues: Registry) {
    forall e :: e in queues ==> queues[e] != map[]
  }

  ghost predicate Faithful(queues: Registry, subscriptions: map<nat, Subscription>, history: seq<Notice>) {
    && NoEmptyEntry(queues)
    && (forall e, id :: Live(queues, e, id) ==> Served(queues, subscriptions, history, e, id))
  }

  /** The registry with the queue of one subscriber set. */
  function SetQueue(queues: Registry, endpoint: Uuid, id: nat, waiting: seq<Uuid>): Registry {
    var subscribers: map<nat, seq<Uuid>> := if endpoint in queues then queues[endpoint] else map[];
    queues[endpoint := subscribers[id := waiting]]
  }

  lemma SetQueueLive(queues: Registry, endpoint: Uuid, id: nat, waiting: seq<Uuid>)
    requires NoEmptyEntry(queues)
    ensures var n := SetQueue(queues, endpoint, id, waiting);
            && NoEmptyEntry(n)
            && (forall e, k :: Live(n, e, k) <==> Live(queues, e, k) || (e == endpoint && k == id))
            && (forall e, k :: Live(n, e, k) ==> n[e][k] == if e == endpoint && k == id then waiting else queues[e][k])
  {
    assert id in SetQueue(queues, endpoint, id, waiting)[endpoint];
  }

  lemma JoinKeeps(queues: Registry, subscriptions: map<nat, Subscription>, history: seq<Notice>, endpoint: Uuid, id: nat)
    requires Faithful(queues, subscriptions, history) && id !in subscriptions
    ensures Faithful(SetQueue(queues, endpoint, id, []), subscriptions[id := Subscription(endpoint, |history|, [])], history)
  {
    SetQueueLive(queues, endpoint, id, []);
    var n, m := SetQueue(queues, endpoint, id, []), subscriptions[id := Subscription(endpoint, |history|, [])];
    forall e, k | Live(n, e, k) ensures Served(n, m, history, e, k) {
      if Live(queues, e, k) {
        assert Served(queues, subscriptions, history, e, k);
      } else {
        assert history[|history|..] == [];
      }
    }
  }

  /** A subscription after its subscriber took `request`. */
  function Took(s: Subscription, request: Uuid): Subscription {
    s.(received := s.received + [request])
  }

  lemma UpToDateAfterTake(waiting: seq<Uuid>, s: Subscription, history: seq<Notice>)
    requires waiting != [] && UpToDate(waiting, s, history)
    ensures UpToDate(waiting[1..], Took(s, waiting[0]), history)
  {
    assert s.received + [waiting[0]] + waiting[1..] == s.received + waiting;
  }

  lemma UpToDateAfterFeed(waiting: seq<Uuid>, s: Subscription, history: seq<Notice>, n: Notice)
    requires UpToDate(waiting, s, history)
    ensures UpToDate(waiting + if s.endpoint == n.endpoint then [n.request] else [], s, history + [n])
  {
    ForPush(history, s.joinedAt, n, s.endpoint);
  }

  lemma TakeKeeps(queues: Registry, subscriptions: map<nat, Subscription>, history: seq<Notice>, endpoint: Uuid, id: nat, waiting: seq<Uuid>)
    requires Faithful(queues, subscriptions, history) && Live(queues, endpoint, id) && id in subscriptions
    requires waiting == queues[endpoint][id] != []
    ensures Faithful(SetQueue(queues, endpoint, id, waiting[1..]), subscriptions[id := Took(subscriptions[id], waiting[0])], history)
  {
    SetQueueLive(queues, endpoint, id, waiting[1..]);
    var n, m := SetQueue(queues, endpoint, id, waiting[1..]), subscriptions[id := Took(subscriptions[id], waiting[0])];
    assert Served(queues, subscriptions, history, endpoint, id);
    UpToDateAfterTake(waiting, subscriptions[id], history);
    forall e, k | Live(n, e, k) ensures Served(n, m, history, e, k) {
      assert Served(queues, subscriptions, history, e, k);
    }
  }

  /** The registry after a notice: its endpoint's queues have one more element. */
  ghost predicate Fed(queues: Registry, n: Notice, fed: Registry) {
    && NoEmptyEntry(fed)
    && (forall e, id :: Live(fed, e, id) <==> Live(queues, e, id))
    && (forall e, id :: Live(fed, e, id) ==> fed[e][id] == queues[e][id] + if e == n.endpoint then [n.request] else [])
  }

  lemma FeedKeeps(queues: Registry, subscriptions: map<nat, Subscription>, history: seq<Notice>, n: Notice, fed: Registry)
    requires Faithful(queues, subscriptions, history) && Fed(queues, n, fed)
    ensures Faithful(fed, subscriptions, history + [n])
  {
    forall e, id | Live(fed, e, id) ensures Served(fed, subscriptions, history + [n], e, id) {
      assert Served(queues, subscriptions, history, e, id);
      UpToDateAfterFeed(queues[e][id], subscriptions[id], history, n);
    }
  }

  /** `discard`. */
  function Without(subscribers: map<nat, seq<Uuid>>, id: nat): map<nat, seq<Uuid>> {
    subscribers - {id}
  }

  /** The registry without one subscriber, and without its endpoint when it was the last. */
  function Leave(queues: Registry, endpoint: Uuid, id: nat): Registry
    requires Live(queues, endpoint, id)
  {
    var rest := Without(queues[endpoint], id);
    if rest == map[] then queues - {endpoint} else queues[endpoint := rest]
  }

  lemma LeaveLive(queues: Registry, endpoint: Uuid, id: nat)
    requires NoEmptyEntry(queues) && Live(queues, endpoint, id)
    ensures var n := Leave(queues, endpoint, id);
            && NoEmptyEntry(n)
            && (forall e, k :: Live(n, e, k) <==> Live(queues, e, k) && !(e == endpoint && k == id))
            && (forall e, k :: Live(n, e, k) ==> n[e][k] == queues[e][k])
            && (endpoint in n <==> exists k :: k != id && Live(queues, endpoint, k))
  {
    var rest := Without(queues[endpoint], id);
    assert forall k :: k in rest <==> k in queues[endpoint] && k != id;
    if rest != map[] {
      var k :| k in rest;
      assert k != id && Live(queues, endpoint, k);
    }
  }

  lemma LeaveKeeps(queues: Registry, subscriptions: map<nat, Subscription>, history: seq<Notice>, endpoint: Uuid, id: nat)
    requires Faithful(queues, subscriptions, history) && Live(queues, endpoint, id)
    ensures Faithful(Leave(queues, endpoint, id), subscriptions, history)
  {
    LeaveLive(queues, endpoint, id);
    var n := Leave(queues, endpoint, id);
    forall e, k | Live(n, e, k) ensures Served(n, subscriptions, history, e, k) {
      assert Served(queues, subscriptions, history, e, k);
    }
  }

  lemma Left(queues: Registry, subscriptions: map<nat, Subscription>, history: seq<Notice>, endpoint: Uuid, id: nat, left: Registry)
    requires Faithful(queues, subscriptions, history) && Live(queues, endpoint, id) && left == Leave(queues, endpoint, id)
    ensures Faithful(left, subscriptions, history)
    ensures forall e, k :: Live(left, e, k) <==> Live(queues, e, k) && !(e == endpoint && k == id)
    ensures endpoint in left <==> exists k :: k != id && Live(queues, endpoint, k)
  {
    LeaveKeeps(queues, subscriptions, history, endpoint, id);
    LeaveLive(queues, endpoint, id);
  }

  class PostgresNotifier {
    var queues: Registry
    var nextId: nat
    ghost var history: seq<Notice>
    ghost var subscriptions: map<nat, Subscription>

    ghost predicate Valid()
      reads this
    {
      Faithful(queues, subscriptions, history) && forall id :: id in subscriptions ==> id < nextId
    }

    constructor ()
      ensures Valid() && queues == map[] && history == []
    {
      queues, nextId := map[], 0;
      history, subscriptions := [], map[];
    }

    /** `_subscribe_gen` up to its loop. */
    method Subscribe(endpoint: Uuid) returns (id: nat)
      requires Valid()
      modifies this
      ensures Valid() && id !in old(subscriptions)
      ensures subscriptions == old(subscriptions)[id := Subscription(endpoint, |history|, [])]
      ensures forall e, k :: Live(queues, e, k) <==> Live(old(queues), e, k) || (e == endpoint && k == id)
      ensures history == old(history)
    {
      id := nextId;
      nextId := nextId + 1;
      JoinKeeps(queues, subscriptions, history, endpoint, id);
      SetQueueLive(queues, endpoint, id, []);
      queues := SetQueue(queues, endpoint, id, []);
      subscriptions := subscriptions[id := Subscription(endpoint, |history|, [])];
    }

    /** The reader, on one payload: malformed ones are logged and passed over. */
    method Notify(payload: string)
      requires Valid()
      modifies this
      ensures Valid()
      ensures history == old(history) + if ParsePayload(payload).Some? then [ParsePayload(payload).value] else []
      ensures subscriptions == old(subscriptions)
      ensures forall e, k :: Live(queues, e, k) <==> Live(old(queues), e, k)
    {
      var parsed := ParsePayload(payload);
      if parsed.Some? {
        Receive(parsed.value);
      }
    }

    /** The reader, on a well-formed notice. */
    method Receive(n: Notice)
      requires Valid()
      modifies this
      ensures Valid()
      ensures history == old(history) + [n] && subscriptions == old(subscriptions)
      ensures forall e, k :: Live(queues, e, k) <==> Live(old(queues), e, k)
    {
      var fed := Feed(queues, n);
      FeedKeeps(queues, subscriptions, history, n, fed);
      queues := fed;
      history := history + [n];
    }

    /** `get` in the subscriber's loop; `None` while its queue is empty, which is when
        the subscriber has had every notice there was for it. */
    method Take(endpoint: Uuid, id: nat) returns (request: Option<Uuid>)
      requires Valid() && Live(queues, endpoint, id)
      modifies this
      ensures Valid() && history == old(history)
      ensures id in old(subscriptions) && id in subscriptions && Live(old(queues), endpoint, id)
      ensures request.None? <==> old(subscriptions)[id].received == Due(old(subscriptions)[id], history)
      ensures if request.None? then subscriptions == old(subscriptions) && queues == old(queues)
              else
                && subscriptions == old(subscriptions)[id := Took(old(subscriptions)[id], request.value)]
                && queues == SetQueue(old(queues), endpoint, id, old(queues)[endpoint][id][1..])
      ensures subscriptions[id].received <= Due(subscriptions[id], history)
    {
      request := None;
      OwedIsTakenAndWaiting(queues, subscriptions, history, endpoint, id);
      var waiting := queues[endpoint][id];
      if waiting != [] {
        request := Some(waiting[0]);
        TakeKeeps(queues, subscriptions, history, endpoint, id, waiting);
        queues := SetQueue(queues, endpoint, id, waiting[1..]);
        subscriptions := subscriptions[id := Took(subscriptions[id], waiting[0])];
      }
    }

    /** The `finally` of the subscriber's loop. */
    method Unsubscribe(endpoint: Uuid, id: nat)
      requires Valid() && Live(queues, endpoint, id)
      modifies this
      ensures Valid()
      ensures forall e, k :: Live(queues, e, k) <==> Live(old(queues), e, k) && !(e == endpoint && k == id)
      ensures endpoint in queues <==> exists k :: k != id && Live(old(queues), endpoint, k)
      ensures history == old(history) && subscriptions == old(subscriptions)
    {
      var rest := Without(queues[endpoint], id);
      var left := if rest == map[] then queues - {endpoint} else queues[endpoint := rest];
      Left(queues, subscriptions, history, endpoint, id, left);
      queues := left;
    }
  }

  /** What a subscriber took is a prefix of what it is owed, and the rest waits. */
  lemma OwedIsTakenAndWaiting(queues: Registry, subscriptions: map<nat, Subscription>, history: seq<Notice>, endpoint: Uuid, id: nat)
    requires Faithful(queues, subscriptions, history) && Live(queues, endpoint, id)
    ensures id in subscriptions
    ensures var s, waiting := subscriptions[id], queues[endpoint][id];
            && s.received <= Due(s, history)
            && (s.received == Due(s, history) <==> waiting == [])
            && (waiting != [] ==> Took(s, waiting[0]).received <= Due(Took(s, waiting[0]), history))
  {
    assert Served(queues, subscriptions, history, endpoint, id);
    var s, waiting := subscriptions[id], queues[endpoint][id];
    assert |Due(s, history)| == |s.received| + |waiting|;
  }

  /** The reader on one notice: an endpoint without subscribers gets no entry. */
  method Feed(queues: Registry, n: Notice) returns (fed: Registry)
    requires NoEmptyEntry(queues)
    ensures Fed(queues, n, fed)
  {
    fed := queues;
    if n.endpoint in queues {
      var subscribers := Deliver(queues[n.endpoint], n.request);
      fed := queues[n.endpoint := subscribers];
      assert subscribers.Keys == queues[n.endpoint].Keys;
    }
  }

  /** `put_nowait` on every queue of the endpoint. */
  method Deliver(queues: map<nat, seq<Uuid>>, request: Uuid) returns (fed: map<nat, seq<Uuid>>)
    ensures fed.Keys == queues.Keys
    ensures forall id :: id in queues ==> fed[id] == queues[id] + [request]
  {
    fed := queues;
    var rest := queues.Keys;
    while rest != {}
      invariant rest <= queues.Keys && fed.Keys == queues.Keys
      invariant forall id :: id in queues ==> fed[id] == if id in rest then queues[id] else queues[id] + [request]
      decreases |rest|
    {
      var id :| id in rest;
      fed := fed[id := fed[id] + [request]];
      rest := rest - {id};
    }
  }
}
