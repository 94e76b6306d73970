/** The bounded notification log and its live subscribers: `src/app_server/event_store.rs`.
    The first half specifies the store on values; the class at the end updates it in place. */
module EventStores {
  import opened Json
  import opened Cursors

  const MAX_EVENTS: nat := 1000
  const SUBSCRIBER_CAPACITY: nat := 1024

  datatype Notice = Notice(receivedAt: string, name: string, params: Value)

  datatype Event = Event(sequence: nat, notice: Notice)

  /** A live channel: what is buffered, and whether the receiving end still exists. */
  datatype Chan = Chan(queue: seq<Event>, open: bool)

  /** `channels` are all channels ever made; `subscribers` are the numbers of those still registered. */
  datatype Store = Store(
    streamId: string,
    sequence: nat,
    retained: seq<Event>,
    subscribers: seq<nat>,
    channels: seq<Chan>)

  datatype Subscription = Subscription(resync: Option<Cursor>, backlog: seq<Event>)

  function Empty(streamId: string): Store {
    Store(streamId, 0, [], [], [])
  }

  // ---------------------------------------------------------------- specification

  function Last<T>(s: seq<T>, n: nat): seq<T> {
    if |s| <= n then s else s[|s| - n..]
  }

  /** `try_send` succeeds. */
  predicate CanSend(c: Chan) {
    c.open && |c.queue| < SUBSCRIBER_CAPACITY
  }

  function Send(c: Chan, e: Event): Chan {
    if CanSend(c) then c.(queue := c.queue + [e]) else c
  }

  function SendAll(channels: seq<Chan>, subscribers: seq<nat>, e: Event): (r: seq<Chan>)
    ensures |r| == |channels|
  {
    seq(|channels|, i requires 0 <= i < |channels| =>
      if i in subscribers then Send(channels[i], e) else channels[i])
  }

  /** The subscribers that keep their place: those whose `try_send` succeeds, in order. */
  function Kept(channels: seq<Chan>, subscribers: seq<nat>): seq<nat> {
    if subscribers == [] then []
    else
      var first := subscribers[0];
      (if first < |channels| && CanSend(channels[first]) then [first] else []) + Kept(channels, subscribers[1..])
  }

  function Stamp(s: Store, n: Notice): Event {
    Event(s.sequence + 1, n)
  }

  function Pushed(s: Store, n: Notice): Store {
    var e := Stamp(s, n);
    s.(sequence := e.sequence,
       retained := Last(s.retained + [e], MAX_EVENTS),
       subscribers := Kept(s.channels, s.subscribers),
       channels := SendAll(s.channels, s.subscribers, e))
  }

  function Newer(events: seq<Event>, after: nat): seq<Event> {
    if events == [] then []
    else (if events[0].sequence > after then [events[0]] else []) + Newer(events[1..], after)
  }

  function Oldest(s: Store): nat {
    if s.retained == [] then s.sequence
    else if s.retained[0].sequence == 0 then 0 else s.retained[0].sequence - 1
  }

  predicate Continues(s: Store, after: Cursor) {
    after.streamId == s.streamId && Oldest(s) <= after.sequence <= s.sequence
  }

  function Tail(s: Store): Cursor {
    Cursor(s.streamId, s.sequence)
  }

  function Opened(s: Store, after: Option<Cursor>): Subscription {
    match after
    case None => Subscription(None, [])
    case Some(c) =>
      if Continues(s, c) then Subscription(None, Newer(s.retained, c.sequence))
      else Subscription(Some(Tail(s)), [])
  }

  function Subscribed(s: Store): Store {
    s.(channels := s.channels + [Chan([], true)], subscribers := s.subscribers + [|s.channels|])
  }

  /** `recent`: the last `limit` retained events after a sequence; the limit is clamped to 1..500. */
  function RecentOf(s: Store, after: nat, limit: nat): seq<Event> {
    Last(Newer(s.retained, after), if limit < 1 then 1 else if limit > 500 then 500 else limit)
  }

  // ---------------------------------------------------------------- the log behind the window

  /** `log` is everything pushed so far: numbered from one, its last 1000 events retained. */
  ghost predicate Logs(s: Store, log: seq<Event>) {
    && s.sequence == |log|
    && (forall i | 0 <= i < |log| :: log[i].sequence == i + 1)
    && s.retained == Last(log, MAX_EVENTS)
  }

  predicate Distinct(s: seq<nat>) {
    forall i, j | 0 <= i < j < |s| :: s[i] != s[j]
  }

  predicate Wired(s: Store) {
    && (forall i | 0 <= i < |s.subscribers| :: s.subscribers[i] < |s.channels|)
    && Distinct(s.subscribers)
    && (forall i | 0 <= i < |s.channels| :: |s.channels[i].queue| <= SUBSCRIBER_CAPACITY)
  }

  lemma {:induction false} KeptIs(channels: seq<Chan>, subscribers: seq<nat>, i: nat)
    ensures i in Kept(channels, subscribers) <==> i in subscribers && i < |channels| && CanSend(channels[i])
  {
    if subscribers != [] {
      KeptIs(channels, subscribers[1..], i);
      assert subscribers == [subscribers[0]] + subscribers[1..];
    }
  }

  lemma {:induction false} KeptDistinct(channels: seq<Chan>, subscribers: seq<nat>)
    requires Distinct(subscribers)
    ensures Distinct(Kept(channels, subscribers))
  {
    if subscribers != [] {
      var first, rest := subscribers[0], subscribers[1..];
      assert Distinct(rest);
      KeptDistinct(channels, rest);
      KeptIs(channels, rest, first);
      assert first !in rest;
    }
  }

  /** Pushing keeps the window: the retained events are always the last 1000 of the log. */
  lemma {:induction false} PushLogs(s: Store, log: seq<Event>, n: Notice)
    requires Logs(s, log)
    ensures Logs(Pushed(s, n), log + [Stamp(s, n)]) && Stamp(s, n) == Event(|log| + 1, n)
    ensures var all := log + [Event(|log| + 1, n)];
      Pushed(s, n).retained == if |all| > 1000 then all[|all| - 1000..] else all
  {
    var e := Stamp(s, n);
    if |log| >= MAX_EVENTS {
      assert Last(log, MAX_EVENTS) + [e] == (log + [e])[|log| - MAX_EVENTS..];
    }
  }

  lemma PushWired(s: Store, n: Notice)
    requires Wired(s)
    ensures Wired(Pushed(s, n))
    ensures forall i | 0 <= i < |Pushed(s, n).channels| :: |Pushed(s, n).channels[i].queue| <= 1024
  {
    var t := Pushed(s, n);
    KeptDistinct(s.channels, s.subscribers);
    assert t.subscribers == Kept(s.channels, s.subscribers);
    forall i | 0 <= i < |t.subscribers| ensures t.subscribers[i] < |t.channels| {
      KeptIs(s.channels, s.subscribers, t.subscribers[i]);
    }
  }

  lemma SubscribedKeeps(s: Store, log: seq<Event>)
    requires Logs(s, log) && Wired(s)
    ensures Logs(Subscribed(s), log) && Wired(Subscribed(s))
  {
  }

  lemma {:induction false} NewerThan(events: seq<Event>, first: nat, after: nat)
    requires forall i | 0 <= i < |events| :: events[i].sequence == first + i
    ensures Newer(events, after) == (if after < first then events
                                     else if after - first + 1 >= |events| then []
                                     else events[after - first + 1..])
  {
    if events != [] {
      NewerThan(events[1..], first + 1, after);
    }
  }

  /** A window of the log, and the numbering of its events. */
  lemma Window(s: Store, log: seq<Event>)
    requires Logs(s, log)
    ensures var base := |log| - |s.retained|;
      && 0 <= base && s.retained == log[base..] && |s.retained| == (if |log| <= MAX_EVENTS then |log| else MAX_EVENTS)
      && Oldest(s) == base
      && forall i | 0 <= i < |s.retained| :: s.retained[i].sequence == base + 1 + i
  {
  }

  lemma ContinuesIs(s: Store, log: seq<Event>, after: Cursor)
    requires Logs(s, log)
    ensures Continues(s, after) <==>
      after.streamId == s.streamId && after.sequence <= s.sequence && s.sequence - after.sequence <= MAX_EVENTS
  {
    Window(s, log);
  }

  /** What a cursor yields: the whole log after it, or a resync exactly when it is foreign, ahead of the
      tail, or more than 1000 events behind. */
  lemma {:induction false} OpenedIs(s: Store, log: seq<Event>, after: Cursor)
    requires Logs(s, log)
    ensures Opened(s, Some(after)) ==
      if after.streamId != s.streamId || after.sequence > s.sequence || s.sequence - after.sequence > 1000
      then Subscription(Some(Tail(s)), [])
      else Subscription(None, log[after.sequence..])
  {
    ContinuesIs(s, log, after);
    var start := NewerStart(s, log, after.sequence);
  }

  /** `recentEvents` reads the log: the last events of it that are after the sequence, still retained,
      and within the limit. */
  lemma {:induction false} RecentIs(s: Store, log: seq<Event>, after: nat, limit: nat)
    requires Logs(s, log)
    ensures var most := if limit < 1 then 1 else if limit > 500 then 500 else limit;
      var from := if |log| <= most then 0 else |log| - most;
      RecentOf(s, after, limit) == log[(if after >= |log| then |log| else if after > from then after else from)..]
  {
    hide Newer, Logs, Last;
    var start := NewerStart(s, log, after);
    LastOfRest(log, start, if limit < 1 then 1 else if limit > 500 then 500 else limit);
  }

  lemma LastOfRest(log: seq<Event>, start: nat, most: nat)
    requires start <= |log|
    ensures Last(log[start..], most) == log[(if start + most < |log| then |log| - most else start)..]
  {
    if start + most < |log| {
      assert log[start..][|log| - start - most..] == log[|log| - most..];
    }
  }

  /** Where in the log the retained events after a sequence start. */
  lemma NewerStart(s: Store, log: seq<Event>, after: nat) returns (start: nat)
    requires Logs(s, log)
    ensures start <= |log| && Newer(s.retained, after) == log[start..]
    ensures var base := if |log| > MAX_EVENTS then |log| - MAX_EVENTS else 0;
      start == if after < base then base else if after > |log| then |log| else after
  {
    Window(s, log);
    hide Logs, Oldest, Newer;
    var base := |log| - |s.retained|;
    NewerThan(s.retained, base + 1, after);
    start := if after < base then base else if after > |log| then |log| else after;
    hide *;
    RestOfRest(log, base, start);
  }

  lemma RestOfRest(log: seq<Event>, base: nat, start: nat)
    requires base <= start <= |log|
    ensures log[base..][start - base..] == log[start..]
    ensures start == base ==> log[start..] == log[base..]
    ensures start == |log| ==> log[start..] == []
  {
  }

  // ---------------------------------------------------------------- the store, in place

  /** Both ends of one `sync_channel`. */
  class Channel {
    ghost const id: nat
    var queue: seq<Event>
    var open: bool

    constructor (ghost id: nat)
      ensures this.id == id && Value() == Chan([], true)
    {
      this.id := id;
      queue := [];
      open := true;
    }

    ghost function Value(): Chan
      reads this
    {
      Chan(queue, open)
    }

    method TrySend(e: Event) returns (ok: bool)
      modifies this
      ensures ok <==> old(open) && |old(queue)| < 1024
      ensures open == old(open) && queue == if ok then old(queue) + [e] else old(queue)
      ensures ok == CanSend(old(Value())) && Value() == Send(old(Value()), e)
    {
      ok := open && |queue| < SUBSCRIBER_CAPACITY;
      if ok {
        queue := queue + [e];
      }
    }
  }

  class EventStore {
    const streamId: string
    var sequence: nat
    var retained: seq<Event>
    var subscribers: seq<Channel>
    ghost var created: seq<Channel>

    ghost predicate Valid()
      reads this
    {
      && (forall i | 0 <= i < |created| :: created[i].id == i)
      && Registered(subscribers)
      && Distinct(Ids(subscribers))
    }

    ghost predicate Registered(channels: seq<Channel>)
      reads this
    {
      forall i | 0 <= i < |channels| :: channels[i].id < |created| && created[channels[i].id] == channels[i]
    }

    ghost function Abs(): Store
      reads this, created
    {
      Store(streamId, sequence, retained, Ids(subscribers), Values(created))
    }

    constructor (streamId: string)
      ensures Valid() && Abs() == Empty(streamId)
    {
      this.streamId := streamId;
      sequence := 0;
      retained := [];
      subscribers := [];
      created := [];
    }

    method Push(n: Notice)
      requires Valid()
      modifies this, created
      ensures Valid() && created == old(created)
      ensures Abs() == Pushed(old(Abs()), n)
    {
      hide Kept, SendAll, Last, Distinct, Ids, Values;
      sequence := sequence + 1;
      var event := Event(sequence, n);
      Retain(event);
      assert Valid() && Values(created) == old(Values(created));
      hide Valid;
      RetainSubscribers(event);
    }

    method Retain(event: Event)
      modifies this`retained
      ensures retained == Last(old(retained) + [event], MAX_EVENTS)
    {
      retained := retained + [event];
      while |retained| > MAX_EVENTS
        invariant |retained| <= |old(retained)| + 1
        invariant retained == (old(retained) + [event])[|old(retained)| + 1 - |retained|..]
        invariant |retained| >= MAX_EVENTS || |retained| == |old(retained)| + 1
      {
        retained := retained[1..];
      }
    }

    /** One subscriber's `try_send`: no other channel changes. */
    method Offer(subscriber: Channel, event: Event) returns (ok: bool)
      requires Valid() && subscriber in subscribers
      modifies subscriber
      ensures subscriber.id < |created| && ok == CanSend(old(Values(created))[subscriber.id])
      ensures Values(created)
           == old(Values(created))[subscriber.id := Send(old(Values(created))[subscriber.id], event)]
    {
      ok := subscriber.TrySend(event);
    }

    lemma KeepStep(kept: seq<Channel>, subscriber: Channel)
      requires Valid() && Registered(kept) && subscriber in subscribers
      ensures Registered(kept + [subscriber]) && Ids(kept + [subscriber]) == Ids(kept) + [subscriber.id]
    {
    }

    /** `subscribers.retain(|s| s.try_send(event).is_ok())`. */
    method RetainSubscribers(event: Event)
      requires Valid()
      modifies this`subscribers, created
      ensures Valid()
      ensures Ids(subscribers) == Kept(old(Values(created)), old(Ids(subscribers)))
      ensures Values(created) == SendAll(old(Values(created)), old(Ids(subscribers)), event)
    {
      var kept: seq<Channel> := [];
      ghost var was, ids := Values(created), Ids(subscribers);
      for i := 0 to |subscribers|
        invariant Valid() && subscribers == old(subscribers) && Registered(kept)
        invariant Ids(kept) == Kept(was, ids[..i])
        invariant Values(created) == SendAll(was, ids[..i], event)
      {
        var subscriber := subscribers[i];
        OfferStep(was, ids, i, event);
        KeepStep(kept, subscriber);
        var ok := Offer(subscriber, event);
        if ok {
          kept := kept + [subscriber];
        }
      }
      assert ids[..|subscribers|] == ids;
      KeptDistinct(was, ids);
      subscribers := kept;
    }

    method Subscribe(after: Option<Cursor>) returns (subscription: Subscription, live: Channel)
      requires Valid()
      modifies this
      ensures Valid() && created == old(created) + [live] && fresh(live)
      ensures subscription == Opened(old(Abs()), after)
      ensures Abs() == Subscribed(old(Abs()))
    {
      live := new Channel(|created|);
      var oldest := if retained == [] then sequence
                    else if retained[0].sequence == 0 then 0 else retained[0].sequence - 1;
      if after.None? {
        subscription := Subscription(None, []);
      } else if after.value.streamId == streamId && oldest <= after.value.sequence <= sequence {
        subscription := Subscription(None, Newer(retained, after.value.sequence));
      } else {
        subscription := Subscription(Some(Cursor(streamId, sequence)), []);
      }
      assert subscription == Opened(old(Abs()), after);
      ghost var was, ids := Values(created), Ids(subscribers);
      assert forall c | c in created :: c != live;
      subscribers := subscribers + [live];
      assert Ids(subscribers) == ids + [live.id] && forall k | 0 <= k < |ids| :: ids[k] < live.id;
      created := created + [live];
      assert Values(created) == was + [Chan([], true)];
    }

    /** `recent`, with the defaults the HTTP body omits: after 0, at most 100. */
    method Recent(afterSequence: Option<nat>, limit: Option<nat>) returns (latest: nat, events: seq<Event>)
      ensures latest == sequence
      ensures events == RecentOf(Abs(),
        if afterSequence.Some? then afterSequence.value else 0, if limit.Some? then limit.value else 100)
    {
      var after := if afterSequence.Some? then afterSequence.value else 0;
      var most := if limit.None? then 100 else if limit.value < 1 then 1 else if limit.value > 500 then 500
                  else limit.value;
      latest := sequence;
      events := Last(Newer(retained, after), most);
    }
  }

  ghost function Ids(channels: seq<Channel>): seq<nat> {
    seq(|channels|, i requires 0 <= i < |channels| => channels[i].id)
  }

  ghost function Values(channels: seq<Channel>): seq<Chan>
    reads channels
  {
    seq(|channels|, i requires 0 <= i < |channels| reads channels => channels[i].Value())
  }

  /** What offering the event to subscriber `i` adds to the retained list and to the channels. */
  lemma OfferStep(was: seq<Chan>, ids: seq<nat>, i: nat, e: Event)
    requires i < |ids| && ids[i] < |was| && Distinct(ids)
    ensures Kept(was, ids[..i + 1]) == Kept(was, ids[..i]) + (if CanSend(was[ids[i]]) then [ids[i]] else [])
    ensures SendAll(was, ids[..i], e)[ids[i]] == was[ids[i]]
    ensures SendAll(was, ids[..i + 1], e) == SendAll(was, ids[..i], e)[ids[i] := Send(was[ids[i]], e)]
  {
    assert ids[..i + 1] == ids[..i] + [ids[i]];
    assert ids[i] !in ids[..i];
    KeptSnoc(was, ids[..i], ids[i]);
    KeptOne(was, ids[i]);
    SendSnoc(was, ids[..i], ids[i], e);
    hide Kept, SendAll, Distinct, CanSend, Send;
  }

  lemma KeptOne(channels: seq<Chan>, chan: nat)
    requires chan < |channels|
    ensures Kept(channels, [chan]) == if CanSend(channels[chan]) then [chan] else []
  {
    assert [chan][1..] == [];
  }

  lemma SendSnoc(channels: seq<Chan>, front: seq<nat>, last: nat, e: Event)
    requires last < |channels| && last !in front
    ensures SendAll(channels, front + [last], e) == SendAll(channels, front, e)[last := Send(channels[last], e)]
    ensures SendAll(channels, front, e)[last] == channels[last]
  {
  }

  lemma {:induction false} KeptSnoc(channels: seq<Chan>, front: seq<nat>, last: nat)
    ensures Kept(channels, front + [last]) == Kept(channels, front) + Kept(channels, [last])
  {
    hide CanSend;
    if front == [] {
      assert front + [last] == [last];
    } else {
      assert (front + [last])[1..] == front[1..] + [last];
      KeptSnoc(channels, front[1..], last);
    }
  }
}
