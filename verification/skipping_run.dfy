/** One run in which a strict client skips an event, whatever the stream and the notification
    (`src/notification_stream.rs`, `src/app_server/event_store.rs`). */
module SkippingRuns {
  import opened Json
  import opened Cursors
  import opened EventStores
  import opened Streams

  /** A world of one client. */
  predicate Stands(w: World, store: Store, client: Client) {
    w.store == store && w.clients == [client]
  }

  function Open(queue: seq<Event>): Chan {
    Chan(queue, true)
  }

  /** Every channel is registered, and this is all of them after taking one more event. */
  predicate AllTake(store: Store, e: Event, after: seq<Chan>) {
    && |after| == |store.channels| == |store.subscribers|
    && forall i | 0 <= i < |after| ::
         store.subscribers[i] == i && CanSend(store.channels[i]) && after[i] == Send(store.channels[i], e)
  }

  lemma {:induction false} KeptAll(channels: seq<Chan>, subscribers: seq<nat>)
    requires forall i | 0 <= i < |subscribers| :: subscribers[i] < |channels| && CanSend(channels[subscribers[i]])
    ensures Kept(channels, subscribers) == subscribers
  {
    if subscribers != [] {
      KeptAll(channels, subscribers[1..]);
    }
  }

  lemma Pushes(w: World, store: Store, client: Client, notice: Notice, after: seq<Chan>) returns (v: World)
    requires Stands(w, store, client) && AllTake(store, Stamp(store, notice), after) && |store.retained| < MAX_EVENTS
    ensures v == Step(w, Push(notice))
    ensures Stands(v, Store(store.streamId, store.sequence + 1, store.retained + [Stamp(store, notice)],
                            store.subscribers, after), client)
  {
    v := Step(w, Push(notice));
    KeptAll(store.channels, store.subscribers);
    forall i | 0 <= i < |after| ensures v.store.channels[i] == after[i] {
      assert store.subscribers[i] == i;
    }
    assert v.store.channels == after;
  }

  lemma Connects(w: World, store: Store, client: Client) returns (v: World)
    requires Stands(w, store, client) && client.conn.Closed?
    ensures v == Step(w, Connect(0))
    ensures var sub := Opened(store, Offered(client));
      Stands(v, Subscribed(store),
             Greeted(client, Tail(store)).(conn := Serving(|store.channels|, sub.resync, sub.backlog, [])))
  {
    hide Opened, Subscribed, Offered;
    v := Step(w, Connect(0));
  }

  /** The serving thread takes the one event of the live channel, and the client reads its frame. */
  lemma Delivers(w: World, store: Store, client: Client, e: Event) returns (v: World)
    requires Stands(w, store, client) && client.conn.Serving? && client.conn.chan < |store.channels|
    requires client.conn == Serving(client.conn.chan, None, [], [])
    requires store.channels[client.conn.chan] == Open([e])
    ensures v == Step(Step(w, Serve(0)), Receive(0))
    ensures Stands(v, SetChannel(store, client.conn.chan, Open([])),
      Client(client.conn, client.received + [Entry(store.streamId, e)], client.known + [Entry(store.streamId, e)],
             client.reader.(heard := true, idled := false)))
  {
    var f := Entry(store.streamId, e);
    var served := Step(w, Serve(0));
    assert [e][1..] == [] && [] + [f] == [f];
    assert Stands(served, SetChannel(store, client.conn.chan, Open([])),
                  client.(conn := client.conn.(socket := [f])));
    v := Step(served, Receive(0));
    assert [f][1..] == [];
  }

  lemma Severs(w: World, store: Store, client: Client) returns (v: World)
    requires Stands(w, store, client) && client.conn.Serving?
    ensures v == Step(w, Sever(0)) && Stands(v, store, client.(conn := Closed))
  {
    v := Step(w, Sever(0));
  }

  lemma Idles(w: World, store: Store, client: Client) returns (v: World)
    requires Stands(w, store, client) && IsQuiet(w, client)
    ensures v == Step(w, Idle(0)) && Stands(v, store, client.(reader := client.reader.(idled := true)))
  {
    v := Step(w, Idle(0));
  }

  // ---------------------------------------------------------------- its three parts

  /** The client receives one event and goes. */
  function FirstVisit(w: World, push: Action): World {
    Step(Step(Step(Step(Step(w, Connect(0)), push), Serve(0)), Receive(0)), Sever(0))
  }

  /** It comes back, reads a keepalive, goes, and an event is pushed. */
  function IdleVisit(w: World, push: Action): World {
    Step(Step(Step(Step(w, Connect(0)), Idle(0)), Sever(0)), push)
  }

  /** It comes back once more and receives the event after. */
  function LastVisit(w: World, push: Action): World {
    Step(Step(Step(Step(w, Connect(0)), push), Serve(0)), Receive(0))
  }

  function Skipping(push: Action): seq<Action> {
    [Connect(0), push, Serve(0), Receive(0), Sever(0), Connect(0), Idle(0), Sever(0), push, Connect(0), push,
     Serve(0), Receive(0)]
  }

  lemma RunOn(start: World, past: seq<Action>, a: Action)
    ensures Run(start, past + [a]) == Step(Run(start, past), a)
  {
    assert (past + [a])[..|past|] == past;
  }

  lemma FourMore(start: World, past: seq<Action>, a: Action, b: Action, c: Action, d: Action)
    ensures Run(start, past + [a, b, c, d]) == Step(Step(Step(Step(Run(start, past), a), b), c), d)
  {
    hide Step;
    RunOn(start, past, a);
    RunOn(start, past + [a], b);
    RunOn(start, past + [a] + [b], c);
    RunOn(start, past + [a] + [b] + [c], d);
    assert past + [a] + [b] + [c] + [d] == past + [a, b, c, d];
  }

  lemma ThreeVisits(start: World, push: Action)
    ensures Run(start, Skipping(push)) == LastVisit(IdleVisit(FirstVisit(start, push), push), push)
  {
    hide Step, Run;
    var run, none: seq<Action> := Skipping(push), [];
    assert Run(start, none) == start by { EmptyRun(start); }
    RunOn(start, none, Connect(0));
    FourMore(start, none + [Connect(0)], push, Serve(0), Receive(0), Sever(0));
    assert run[..5] == none + [Connect(0)] + [push, Serve(0), Receive(0), Sever(0)];
    FourMore(start, run[..5], Connect(0), Idle(0), Sever(0), push);
    assert run[..9] == run[..5] + [Connect(0), Idle(0), Sever(0), push];
    FourMore(start, run[..9], Connect(0), push, Serve(0), Receive(0));
    assert run == run[..9] + [Connect(0), push, Serve(0), Receive(0)];
  }

  lemma EmptyRun(start: World)
    ensures Run(start, []) == start
  {
  }

  /** The client once it is gone: it has its first event, and has lost its id or not. */
  function Gone(id: string, notice: Notice, heard: bool, lost: bool): Client {
    var f, m := Entry(id, Event(1, notice)), Cursor(id, 0);
    Client(Closed, [f], [Resync(m), f], ReaderState(true, heard, lost, [Mark(0, m)]))
  }

  lemma FirstFrame(start: World, id: string, notice: Notice)
    requires Stands(start, Empty(id), Client(Closed, [], [], ReaderState(true, false, false, [])))
    ensures Stands(FirstVisit(start, Push(notice)), Store(id, 1, [Event(1, notice)], [0], [Open([])]),
                   Gone(id, notice, true, false))
  {
    hide Step, Enabled;
    var e, m := Event(1, notice), Cursor(id, 0);
    var client := Client(Serving(0, None, [], []), [], [Resync(m)], ReaderState(true, false, false, [Mark(0, m)]));
    var v := Connects(start, start.store, start.clients[0]);
    assert Offered(start.clients[0]) == None && [] + [Mark(0, m)] == [Mark(0, m)];
    assert v.clients[0] == client;
    assert Stands(v, Store(id, 0, [], [0], [Open([])]), client);
    v := Pushes(v, v.store, client, notice, [Open([e])]);
    v := Delivers(v, v.store, client, e);
    assert v.clients[0].received == [Entry(id, e)] && v.clients[0].known == [Resync(m), Entry(id, e)];
    v := Severs(v, v.store, v.clients[0]);
  }

  lemma LosesItsId(w: World, id: string, notice: Notice)
    requires Stands(w, Store(id, 1, [Event(1, notice)], [0], [Open([])]), Gone(id, notice, true, false))
    ensures var e, d := Event(1, notice), Event(2, notice);
      Stands(IdleVisit(w, Push(notice)), Store(id, 2, [e, d], [0, 1], [Open([d]), Open([d])]),
             Gone(id, notice, false, true))
  {
    hide Step, Enabled;
    var e, d, store, client := Event(1, notice), Event(2, notice), w.store, w.clients[0];
    assert Offered(client) == Some(Cursor(id, 1));
    assert Newer([e], 1) == [] by { assert Newer([e][1..], 1) == []; }
    assert Opened(store, Offered(client)) == Subscription(None, []);
    var v := Connects(w, store, client);
    assert Stands(v, Store(id, 1, [e], [0, 1], [Open([]), Open([])]),
                  Gone(id, notice, false, false).(conn := Serving(1, None, [], [])));
    v := Idles(v, v.store, v.clients[0]);
    v := Severs(v, v.store, v.clients[0]);
    v := Pushes(v, v.store, v.clients[0], notice, [Open([d]), Open([d])]);
    assert [e] + [d] == [e, d];
  }

  lemma SkipsOne(w: World, id: string, notice: Notice)
    requires var e, d := Event(1, notice), Event(2, notice);
      Stands(w, Store(id, 2, [e, d], [0, 1], [Open([d]), Open([d])]), Gone(id, notice, false, true))
    ensures var v := LastVisit(w, Push(notice));
      |v.clients| == 1 && v.clients[0].received == [Entry(id, Event(1, notice)), Entry(id, Event(3, notice))]
  {
    hide Step, Enabled;
    var f, e, d, g := Entry(id, Event(1, notice)), Event(1, notice), Event(2, notice), Event(3, notice);
    var v := Connects(w, w.store, w.clients[0]);
    var client := v.clients[0];
    assert Stands(v, Store(id, 2, [e, d], [0, 1, 2], [Open([d]), Open([d]), Open([])]), client);
    assert client.conn == Serving(2, None, [], []) && client.received == [f];
    v := Pushes(v, v.store, client, notice, [Open([d, g]), Open([d, g]), Open([g])]);
    v := Delivers(v, v.store, client, g);
    assert [f] + [Entry(id, g)] == [f, Entry(id, g)];
  }

  /** The skip is real: a strict client's second frame is the third event, and nothing has told it so. */
  lemma AStrictClientSkips(id: string, notice: Notice)
    ensures var w := Run(Init(id, [true]), Skipping(Push(notice)));
      |w.clients| == 1 && w.clients[0].received == [Entry(id, Event(1, notice)), Entry(id, Event(3, notice))]
  {
    var start, push := Init(id, [true]), Push(notice);
    assert Stands(start, Empty(id), Client(Closed, [], [], ReaderState(true, false, false, [])));
    hide Step, Run, Init, Skipping, FirstVisit, IdleVisit, LastVisit, Stands;
    FirstFrame(start, id, notice);
    LosesItsId(FirstVisit(start, push), id, notice);
    SkipsOne(IdleVisit(FirstVisit(start, push), push), id, notice);
    ThreeVisits(start, push);
  }
}
