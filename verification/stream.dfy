/** Whole runs of the notification stream: `GET /streams/notifications` served to clients that come and go
    (`src/notification_stream.rs` on top of `src/app_server/event_store.rs`). */
module Streams {
  import opened Json
  import opened Cursors
  import opened EventStores

  /** A frame on the wire; both kinds carry their cursor in the `id` field. */
  datatype Frame = Notification(cursor: Cursor, event: Event) | Resync(cursor: Cursor)

  /** One `serve` call: its channel, what it still has to send, and what the socket still carries. */
  datatype Conn =
    | Closed
    | Serving(chan: nat, resync: Option<Cursor>, backlog: seq<Event>, socket: seq<Frame>)

  /** A connection opened without a Last-Event-ID: after how many frames, and where the stream stood. */
  datatype Mark = Mark(after: nat, cursor: Cursor)

  /** How a client keeps its last event ID. A strict one, reading by section 9.2.6, loses it to a keepalive comment on a
      connection that has brought no frame, until it receives the next. `heard`: this connection has brought a frame;
      `idled`: the id is lost, if the client is strict; `marks` is history. */
  datatype ReaderState = ReaderState(strict: bool, heard: bool, idled: bool, marks: seq<Mark>)

  /** `known` is history: what the client has received since its last mark, after that mark written as a resync. */
  datatype Client = Client(conn: Conn, received: seq<Frame>, known: seq<Frame>, reader: ReaderState)

  /** `logs` and `born` are history: every notification pushed under each stream id, and the order in
      which connector processes, each with its own id, were started. */
  datatype World = World(
    store: Store,
    clients: seq<Client>,
    logs: map<string, seq<Event>>,
    born: map<string, nat>)

  datatype Action =
    | Push(notice: Notice)
    | Connect(client: nat)     // with the last event ID it has kept, if any
    | Serve(client: nat)       // the serving thread writes one frame to the socket
    | Receive(client: nat)     // the client reads one whole frame
    | Idle(client: nat)        // it reads a keepalive comment before any frame of this connection
    | Sever(client: nat)       // the connection ends; frames in the socket are lost
    | Orphan(chan: nat)        // a serving thread without a client takes an event from its channel
    | Drop(chan: nat)          // that thread notices and drops the receiving end
    | Restart(streamId: string)

  // ---------------------------------------------------------------- steps

  function LastCursor(frames: seq<Frame>): Option<Cursor> {
    if frames == [] then None else Some(frames[|frames| - 1].cursor)
  }

  /** The Last-Event-ID a client sends. */
  function Offered(c: Client): Option<Cursor> {
    if c.reader.strict && c.reader.idled then None else LastCursor(c.received)
  }

  function Entry(streamId: string, e: Event): Frame {
    Notification(Cursor(streamId, e.sequence), e)
  }

  function Entries(streamId: string, events: seq<Event>): (frames: seq<Frame>)
    ensures |frames| == |events|
    ensures forall i | 0 <= i < |events| :: frames[i] == Entry(streamId, events[i])
  {
    if events == [] then [] else [Entry(streamId, events[0])] + Entries(streamId, events[1..])
  }

  /** No client is served from this channel. */
  predicate Unserved(w: World, chan: nat) {
    chan < |w.store.channels|
    && forall i | 0 <= i < |w.clients| :: w.clients[i].conn.Serving? ==> w.clients[i].conn.chan != chan
  }

  /** The connection has brought no frame and has none to bring now. */
  predicate IsQuiet(w: World, c: Client) {
    && c.conn.Serving? && c.conn.chan < |w.store.channels| && !c.reader.heard
    && c.conn.resync.None? && c.conn.backlog == [] && c.conn.socket == [] && w.store.channels[c.conn.chan].queue == []
  }

  predicate Enabled(w: World, a: Action) {
    match a
    case Push(_) => true
    case Connect(c) => c < |w.clients| && w.clients[c].conn.Closed?
    case Serve(c) => c < |w.clients| && w.clients[c].conn.Serving? && w.clients[c].conn.chan < |w.store.channels|
    case Receive(c) => c < |w.clients| && w.clients[c].conn.Serving? && w.clients[c].conn.socket != []
    case Idle(c) => c < |w.clients| && IsQuiet(w, w.clients[c])
    case Sever(c) => c < |w.clients| && w.clients[c].conn.Serving?
    case Orphan(chan) => Unserved(w, chan) && w.store.channels[chan].queue != []
    case Drop(chan) => Unserved(w, chan)
    case Restart(id) => id !in w.logs
  }

  function SetClient(w: World, c: nat, client: Client): World
    requires c < |w.clients|
  {
    w.(clients := w.clients[c := client])
  }

  function SetChannel(s: Store, chan: nat, value: Chan): Store
    requires chan < |s.channels|
  {
    s.(channels := s.channels[chan := value])
  }

  function CloseAll(clients: seq<Client>): (r: seq<Client>)
    ensures |r| == |clients|
    ensures forall i | 0 <= i < |r| :: r[i] == clients[i].(conn := Closed)
  {
    if clients == [] then [] else [clients[0].(conn := Closed)] + CloseAll(clients[1..])
  }

  /** `serve`: the resync, then the backlog, then the live channel. */
  function ServeStep(w: World, c: nat): World
    requires Enabled(w, Serve(c))
  {
    var client, s := w.clients[c], w.store;
    var conn := client.conn;
    var queue := s.channels[conn.chan].queue;
    if conn.resync.Some? then
      SetClient(w, c, client.(conn := conn.(resync := None, socket := conn.socket + [Resync(conn.resync.value)])))
    else if conn.backlog != [] then
      SetClient(w, c, client.(conn := conn.(backlog := conn.backlog[1..],
                                            socket := conn.socket + [Entry(s.streamId, conn.backlog[0])])))
    else if queue != [] then
      SetClient(w, c, client.(conn := conn.(socket := conn.socket + [Entry(s.streamId, queue[0])])))
        .(store := SetChannel(s, conn.chan, s.channels[conn.chan].(queue := queue[1..])))
    else w
  }

  /** The client at the start of a connection: without a Last-Event-ID it starts anew, at the tail. */
  function Greeted(c: Client, tail: Cursor): Client {
    if Offered(c).Some? then c.(reader := c.reader.(heard := false))
    else c.(known := [Resync(tail)],
            reader := c.reader.(heard := false, marks := c.reader.marks + [Mark(|c.received|, tail)]))
  }

  function Step(w: World, a: Action): World {
    if !Enabled(w, a) then w
    else match a
    case Push(notice) =>
      w.(store := Pushed(w.store, notice),
         logs := w.logs[w.store.streamId :=
           (if w.store.streamId in w.logs then w.logs[w.store.streamId] else []) + [Stamp(w.store, notice)]])
    case Connect(c) =>
      var sub := Opened(w.store, Offered(w.clients[c]));
      SetClient(w, c, Greeted(w.clients[c], Tail(w.store)).(
          conn := Serving(|w.store.channels|, sub.resync, sub.backlog, [])))
        .(store := Subscribed(w.store))
    case Serve(c) => ServeStep(w, c)
    case Receive(c) =>
      var client := w.clients[c];
      SetClient(w, c, Client(client.conn.(socket := client.conn.socket[1..]),
                             client.received + [client.conn.socket[0]],
                             client.known + [client.conn.socket[0]],
                             client.reader.(heard := true, idled := false)))
    case Idle(c) => SetClient(w, c, w.clients[c].(reader := w.clients[c].reader.(idled := true)))
    case Sever(c) => SetClient(w, c, w.clients[c].(conn := Closed))
    case Orphan(chan) =>
      var channel := w.store.channels[chan];
      w.(store := SetChannel(w.store, chan, channel.(queue := channel.queue[1..])))
    case Drop(chan) => w.(store := SetChannel(w.store, chan, w.store.channels[chan].(open := false)))
    case Restart(id) =>
      World(Empty(id), CloseAll(w.clients), w.logs[id := []], w.born[id := |w.born|])
  }

  /** One client for each of `readers`, which says whether it is strict. */
  function Init(streamId: string, readers: seq<bool>): World {
    World(Empty(streamId),
          seq(|readers|, i requires 0 <= i < |readers| =>
            Client(Closed, [], [], ReaderState(readers[i], false, false, []))),
          map[streamId := []], map[streamId := 0])
  }

  function Run(w: World, actions: seq<Action>): World
    decreases |actions|
  {
    if actions == [] then w else Step(Run(w, actions[..|actions| - 1]), actions[|actions| - 1])
  }

  // ---------------------------------------------------------------- what a client is owed

  /** What a connection's serving thread has not yet written. */
  function Unsent(s: Store, conn: Conn): seq<Frame>
    requires conn.Serving? && conn.chan < |s.channels|
  {
    (if conn.resync.Some? then [Resync(conn.resync.value)] else [])
    + Entries(s.streamId, conn.backlog + s.channels[conn.chan].queue)
  }

  /** The frames a connection will still bring if it is not severed, in order. */
  function Coming(s: Store, conn: Conn): seq<Frame> {
    if conn.Closed? || conn.chan >= |s.channels| then [] else conn.socket + Unsent(s, conn)
  }

  predicate Before(w: World, c: Cursor, d: Cursor) {
    c.streamId in w.born && d.streamId in w.born
    && if c.streamId == d.streamId then c.sequence < d.sequence else w.born[c.streamId] < w.born[d.streamId]
  }

  /** A frame tells the truth about its stream's log. */
  predicate Genuine(w: World, f: Frame) {
    f.cursor.streamId in w.logs
    && var log := w.logs[f.cursor.streamId];
       f.cursor.sequence <= |log|
       && (f.Notification? ==> f.cursor.sequence >= 1 && f.event == log[f.cursor.sequence - 1])
  }

  /** `g` may follow `f`: a notification is the very next one of the same stream; a resync moves forward. */
  predicate Follows(w: World, f: Frame, g: Frame) {
    && Before(w, f.cursor, g.cursor)
    && (g.Notification? ==> g.cursor == Cursor(f.cursor.streamId, f.cursor.sequence + 1))
  }

  ghost predicate Chain(w: World, frames: seq<Frame>) {
    && (forall i | 0 <= i < |frames| :: Genuine(w, frames[i]))
    && (forall i | 0 < i < |frames| :: Follows(w, frames[i - 1], frames[i]))
  }

  /** What one client knows and is still to receive makes one chain, and while its channel is registered that
      chain reaches the tail of the log. */
  ghost predicate ClientOk(w: World, c: Client) {
    var all := c.known + Coming(w.store, c.conn);
    && Chain(w, all)
    && (c.conn.Serving? ==>
          && c.conn.chan < |w.store.channels| && all != []
          && (c.conn.chan in w.store.subscribers ==> all[|all| - 1].cursor == Tail(w.store)))
  }

  /** A client knows its last mark and what it received since; only a strict one has a mark but the first, and after a
      mark its id is lost until the next frame. */
  predicate KnownOk(c: Client) {
    var marks := c.reader.marks;
    if marks == [] then c.known == [] && c.received == [] && c.conn.Closed?
    else
      var mark := marks[|marks| - 1];
      && mark.after <= |c.received|
      && c.known != [] && c.known[0] == Resync(mark.cursor) && c.known[1..] == c.received[mark.after..]
      && (!c.reader.strict ==> mark.after == 0)
      && (mark.after == |c.received| ==> Offered(c).None?)
  }

  ghost predicate HistoryOk(w: World) {
    && w.logs.Keys == w.born.Keys
    && w.store.streamId in w.logs
    && Logs(w.store, w.logs[w.store.streamId])
    && (forall id | id in w.born :: w.born[id] < |w.born|)
    && (forall id | id in w.born :: w.born[id] <= w.born[w.store.streamId])
    && (forall a, b | a in w.born && b in w.born && a != b :: w.born[a] != w.born[b])
  }

  ghost predicate Inv(w: World) {
    && HistoryOk(w) && Wired(w.store)
    && (forall i | 0 <= i < |w.clients| :: ClientOk(w, w.clients[i]) && KnownOk(w.clients[i]))
    && Apart(w.clients)
  }

  /** No two connections share a channel. */
  predicate Apart(clients: seq<Client>) {
    forall i, j | 0 <= i < j < |clients| && clients[i].conn.Serving? && clients[j].conn.Serving? ::
      clients[i].conn.chan != clients[j].conn.chan
  }

  // ---------------------------------------------------------------- every step keeps it

  /** History only grows: logs are extended, never rewritten. */
  predicate Grows(w: World, v: World) {
    && w.born.Keys <= v.born.Keys && w.logs.Keys <= v.logs.Keys
    && (forall id | id in w.born :: v.born[id] == w.born[id])
    && (forall id | id in w.logs :: w.logs[id] <= v.logs[id])
  }

  lemma ChainGrows(w: World, v: World, frames: seq<Frame>)
    requires Grows(w, v) && Chain(w, frames)
    ensures Chain(v, frames)
  {
    forall i | 0 <= i < |frames| ensures Genuine(v, frames[i]) {
      assert Genuine(w, frames[i]);
      assert w.logs[frames[i].cursor.streamId] <= v.logs[frames[i].cursor.streamId];
    }
    forall i | 0 < i < |frames| ensures Follows(v, frames[i - 1], frames[i]) {
      assert Follows(w, frames[i - 1], frames[i]);
    }
  }

  lemma ChainAppends(w: World, frames: seq<Frame>, f: Frame)
    requires Chain(w, frames) && Genuine(w, f)
    requires frames != [] ==> Follows(w, frames[|frames| - 1], f)
    ensures Chain(w, frames + [f])
  {
    var all := frames + [f];
    forall i | 0 < i < |all| ensures Follows(w, all[i - 1], all[i]) {
      if i < |frames| {
        assert Follows(w, frames[i - 1], frames[i]);
      }
    }
  }

  lemma ChainPrefix(w: World, a: seq<Frame>, b: seq<Frame>)
    requires Chain(w, a + b)
    ensures Chain(w, a)
  {
    forall i | 0 <= i < |a| ensures Genuine(w, a[i]) && (0 < i ==> Follows(w, a[i - 1], a[i])) {
      assert Genuine(w, (a + b)[i]);
      if 0 < i {
        assert Follows(w, (a + b)[i - 1], (a + b)[i]);
      }
    }
  }

  lemma EntriesConcat(s: string, a: seq<Event>, b: seq<Event>)
    ensures Entries(s, a + b) == Entries(s, a) + Entries(s, b)
  {
    forall i | 0 <= i < |a + b| ensures Entries(s, a + b)[i] == (Entries(s, a) + Entries(s, b))[i] {
    }
  }

  /** A client keeps its chain when its frames stay the same and the tail does not move past it. */
  lemma ClientKept(w: World, v: World, c: Client, d: Client)
    requires ClientOk(w, c) && Grows(w, v)
    requires c.known + Coming(w.store, c.conn) == d.known + Coming(v.store, d.conn)
    requires d.conn.Serving? ==>
      && c.conn.Serving? && c.conn.chan == d.conn.chan < |v.store.channels|
      && (d.conn.chan in v.store.subscribers ==>
            d.conn.chan in w.store.subscribers && Tail(v.store) == Tail(w.store))
    ensures ClientOk(v, d)
  {
    ChainGrows(w, v, c.known + Coming(w.store, c.conn));
  }

  lemma PushComing(w: World, conn: Conn, notice: Notice)
    requires conn.Serving? && conn.chan < |w.store.channels|
    ensures var s, v, e := w.store, Step(w, Push(notice)).store, Stamp(w.store, notice);
      Coming(v, conn) ==
        Coming(s, conn) + if conn.chan in v.subscribers then [Entry(s.streamId, e)] else []
    ensures conn.chan in Step(w, Push(notice)).store.subscribers ==> conn.chan in w.store.subscribers
  {
    var s, e := w.store, Stamp(w.store, notice);
    assert Step(w, Push(notice)).store == Pushed(s, notice);
    hide Step, Kept;
    KeptIs(s.channels, s.subscribers, conn.chan);
    var events := conn.backlog + s.channels[conn.chan].queue;
    EntriesConcat(s.streamId, events, [e]);
    assert Entries(s.streamId, [e]) == [Entry(s.streamId, e)];
    assert conn.backlog + (s.channels[conn.chan].queue + [e]) == events + [e];
  }

  /** The pushed frame is genuine, follows whatever ended at the tail, and is the new tail. */
  lemma PushedFrame(w: World, notice: Notice, last: Frame)
    requires HistoryOk(w)
    ensures var v, f := Step(w, Push(notice)), Entry(w.store.streamId, Stamp(w.store, notice));
      && Grows(w, v) && Genuine(v, f) && f.cursor == Tail(v.store)
      && (last.cursor == Tail(w.store) ==> Follows(v, last, f))
  {
  }

  lemma PushKeepsClient(w: World, c: Client, notice: Notice)
    requires HistoryOk(w) && ClientOk(w, c)
    ensures ClientOk(Step(w, Push(notice)), c)
  {
    var v, s := Step(w, Push(notice)), w.store;
    var f, all := Entry(s.streamId, Stamp(s, notice)), c.known + Coming(s, c.conn);
    PushedFrame(w, notice, if all != [] then all[|all| - 1] else f);
    hide Chain, Grows, Genuine, Follows, HistoryOk;
    ChainGrows(w, v, all);
    assert |v.store.channels| == |s.channels|;
    if c.conn.Serving? {
      PushComing(w, c.conn, notice);
      hide Coming, Pushed, Step;
      if c.conn.chan in v.store.subscribers {
        assert c.known + Coming(v.store, c.conn) == all + [f];
        ChainAppends(v, all, f);
      }
    }
  }

  lemma PushKeeps(w: World, notice: Notice)
    requires Inv(w)
    ensures Inv(Step(w, Push(notice)))
  {
    PushLogs(w.store, w.logs[w.store.streamId], notice);
    PushWired(w.store, notice);
    forall i | 0 <= i < |w.clients| ensures ClientOk(Step(w, Push(notice)), w.clients[i]) {
      PushKeepsClient(w, w.clients[i], notice);
    }
  }

  /** A step that replaces client `c` only, and at most its own channel, keeps everyone else's chain. */
  lemma OthersKept(w: World, v: World, c: nat)
    requires Inv(w) && c < |w.clients| == |v.clients| && v.logs == w.logs && v.born == w.born
    requires forall i | 0 <= i < |w.clients| && i != c :: v.clients[i] == w.clients[i]
    requires ClientOk(v, v.clients[c]) && KnownOk(v.clients[c])
    requires v.store == w.store || (w.clients[c].conn.Serving? && w.clients[c].conn.chan < |w.store.channels|
      && |v.store.channels| == |w.store.channels|
      && v.store == SetChannel(w.store, w.clients[c].conn.chan, v.store.channels[w.clients[c].conn.chan])
      && |v.store.channels[w.clients[c].conn.chan].queue| <= SUBSCRIBER_CAPACITY)
    requires v.clients[c].conn.Serving? ==>
      w.clients[c].conn.Serving? && v.clients[c].conn.chan == w.clients[c].conn.chan
    ensures Inv(v)
  {
    forall i | 0 <= i < |v.clients| && i != c ensures ClientOk(v, v.clients[i]) {
      OtherKept(w, v, c, i);
    }
    hide ClientOk;
  }

  lemma OtherKept(w: World, v: World, c: nat, i: nat)
    requires Inv(w) && c < |w.clients| == |v.clients| && v.logs == w.logs && v.born == w.born
    requires i < |w.clients| && i != c && v.clients[i] == w.clients[i]
    requires v.store == w.store || (w.clients[c].conn.Serving? && w.clients[c].conn.chan < |w.store.channels|
      && |v.store.channels| == |w.store.channels|
      && v.store == SetChannel(w.store, w.clients[c].conn.chan, v.store.channels[w.clients[c].conn.chan]))
    ensures ClientOk(v, v.clients[i])
  {
    assert ClientOk(w, w.clients[i]);
    hide Chain, HistoryOk;
    ClientKept(w, v, w.clients[i], v.clients[i]);
  }

  lemma ServeShape(w: World, c: nat)
    requires Enabled(w, Serve(c)) && |w.store.channels[w.clients[c].conn.chan].queue| <= SUBSCRIBER_CAPACITY
    ensures var v, chan := Step(w, Serve(c)), w.clients[c].conn.chan;
      && |v.clients| == |w.clients| && v.logs == w.logs && v.born == w.born
      && (forall i | 0 <= i < |w.clients| && i != c :: v.clients[i] == w.clients[i])
      && v.clients[c].received == w.clients[c].received && v.clients[c].known == w.clients[c].known
      && v.clients[c].reader == w.clients[c].reader
      && v.clients[c].conn.Serving? && v.clients[c].conn.chan == chan
      && |v.store.channels| == |w.store.channels|
      && v.store == SetChannel(w.store, chan, v.store.channels[chan])
      && |v.store.channels[chan].queue| <= SUBSCRIBER_CAPACITY
  {
  }

  lemma ServeNothing(w: World, c: nat)
    requires Enabled(w, Serve(c)) && Unsent(w.store, w.clients[c].conn) == []
    ensures Step(w, Serve(c)) == w
  {
    var events := w.clients[c].conn.backlog + w.store.channels[w.clients[c].conn.chan].queue;
    assert |Entries(w.store.streamId, events)| == |events|;
  }

  lemma HeadAndTail(f: Frame, frames: seq<Frame>)
    ensures ([f] + frames)[0] == f && ([f] + frames)[1..] == frames && [] + frames == frames
  {
  }

  lemma Rejoined(a: seq<Frame>, b: seq<Frame>)
    requires b != []
    ensures (a + [b[0]]) + b[1..] == a + b
  {
  }

  /** What is unsent, taken apart as the serving thread takes it. */
  lemma UnsentParts(s: Store, conn: Conn)
    requires conn.Serving? && conn.chan < |s.channels|
    ensures conn.resync.Some? ==>
      Unsent(s, conn) == [Resync(conn.resync.value)] + Unsent(s, conn.(resync := None))
    ensures conn.resync.None? ==> Unsent(s, conn) == Entries(s.streamId, conn.backlog + s.channels[conn.chan].queue)
  {
    var entries := Entries(s.streamId, conn.backlog + s.channels[conn.chan].queue);
    assert [] + entries == entries;
  }

  lemma EntriesTail(id: string, backlog: seq<Event>, queue: seq<Event>)
    ensures backlog != [] ==>
      Entries(id, backlog + queue) == [Entry(id, backlog[0])] + Entries(id, backlog[1..] + queue)
    ensures backlog == [] && queue != [] ==>
      Entries(id, backlog + queue) == [Entry(id, queue[0])] + Entries(id, backlog + queue[1..])
  {
    if backlog != [] {
      assert (backlog + queue)[1..] == backlog[1..] + queue;
    } else if queue != [] {
      assert backlog + queue == queue && backlog + queue[1..] == queue[1..];
    }
  }

  lemma ServeUnsent(w: World, c: nat)
    requires Enabled(w, Serve(c)) && Unsent(w.store, w.clients[c].conn) != []
    ensures var v, conn, unsent := Step(w, Serve(c)), w.clients[c].conn, Unsent(w.store, w.clients[c].conn);
      && v.clients[c].conn.socket == conn.socket + [unsent[0]]
      && v.clients[c].conn.Serving? && v.clients[c].conn.chan < |v.store.channels|
      && Unsent(v.store, v.clients[c].conn) == unsent[1..]
  {
    var v, s, conn := Step(w, Serve(c)), w.store, w.clients[c].conn;
    var queue := s.channels[conn.chan].queue;
    UnsentParts(s, conn);
    UnsentParts(v.store, v.clients[c].conn);
    if conn.resync.Some? {
      HeadAndTail(Resync(conn.resync.value), Unsent(s, conn.(resync := None)));
    } else {
      EntriesTail(s.streamId, conn.backlog, queue);
      hide Unsent;
      if conn.backlog != [] {
        HeadAndTail(Entry(s.streamId, conn.backlog[0]), Entries(s.streamId, conn.backlog[1..] + queue));
      } else {
        HeadAndTail(Entry(s.streamId, queue[0]), Entries(s.streamId, conn.backlog + queue[1..]));
      }
    }
  }

  lemma ServeComing(w: World, c: nat)
    requires Enabled(w, Serve(c))
    ensures var v := Step(w, Serve(c));
      Coming(v.store, v.clients[c].conn) == Coming(w.store, w.clients[c].conn)
  {
    var conn, v := w.clients[c].conn, Step(w, Serve(c));
    var unsent := Unsent(w.store, conn);
    if unsent == [] {
      ServeNothing(w, c);
    } else {
      ServeUnsent(w, c);
      Rejoined(conn.socket, unsent);
      hide Unsent, Step;
    }
  }

  lemma ServeKeeps(w: World, c: nat)
    requires Inv(w) && Enabled(w, Serve(c))
    ensures Inv(Step(w, Serve(c)))
  {
    assert ClientOk(w, w.clients[c]);
    ServeShape(w, c);
    ServeComing(w, c);
    var v := Step(w, Serve(c));
    ClientKept(w, v, w.clients[c], v.clients[c]);
    OthersKept(w, v, c);
  }

  lemma MoveHead(a: seq<Frame>, b: seq<Frame>, c: seq<Frame>)
    requires b != []
    ensures a + (b + c) == (a + [b[0]]) + (b[1..] + c)
  {
    assert b == [b[0]] + b[1..];
  }

  lemma ReceiveClient(w: World, c: nat)
    requires Enabled(w, Receive(c)) && ClientOk(w, w.clients[c]) && KnownOk(w.clients[c])
    ensures var v := Step(w, Receive(c)); ClientOk(v, v.clients[c]) && KnownOk(v.clients[c])
  {
    var v, a := Step(w, Receive(c)), w.clients[c];
    MoveHead(a.known, a.conn.socket, Unsent(w.store, a.conn));
    hide Chain, Unsent;
    assert a.known + Coming(w.store, a.conn) == v.clients[c].known + Coming(v.store, v.clients[c].conn);
    hide Coming;
    ClientKept(w, v, a, v.clients[c]);
    ReceiveKnown(a, v.clients[c]);
  }

  lemma ReceiveKnown(a: Client, b: Client)
    requires KnownOk(a) && a.conn.Serving? && |b.received| == |a.received| + 1
    requires b.received[..|a.received|] == a.received && b.known == a.known + [b.received[|a.received|]]
    requires b.reader == a.reader.(heard := true, idled := false)
    ensures KnownOk(b)
  {
    var mark := a.reader.marks[|a.reader.marks| - 1];
    var f := b.received[|a.received|];
    assert b.received == a.received + [f];
    assert b.known[1..] == a.known[1..] + [f];
    assert b.received[mark.after..] == a.received[mark.after..] + [f];
  }

  lemma ReceiveKeeps(w: World, c: nat)
    requires Inv(w) && Enabled(w, Receive(c))
    ensures Inv(Step(w, Receive(c)))
  {
    var v := Step(w, Receive(c));
    ReceiveClient(w, c);
    assert forall i | 0 <= i < |w.clients| && i != c :: v.clients[i] == w.clients[i];
    hide ClientOk, KnownOk, Inv;
    OthersKept(w, v, c);
  }

  lemma IdleKeeps(w: World, c: nat)
    requires Inv(w) && Enabled(w, Idle(c))
    ensures Inv(Step(w, Idle(c)))
  {
    var v := Step(w, Idle(c));
    assert ClientOk(w, w.clients[c]) && KnownOk(w.clients[c]);
    hide Chain, HistoryOk, Wired;
    ClientKept(w, v, w.clients[c], v.clients[c]);
    OthersKept(w, v, c);
  }

  /** A client whose connection ends keeps the chain it knows. */
  lemma ClosedKeeps(w: World, v: World, c: Client)
    requires ClientOk(w, c) && Grows(w, v)
    ensures ClientOk(v, c.(conn := Closed))
  {
    ChainPrefix(w, c.known, Coming(w.store, c.conn));
    ChainGrows(w, v, c.known);
    hide Chain, Grows;
    assert c.known + [] == c.known;
  }

  lemma SeverKeeps(w: World, c: nat)
    requires Inv(w) && Enabled(w, Sever(c))
    ensures Inv(Step(w, Sever(c)))
  {
    var v, a := Step(w, Sever(c)), w.clients[c];
    assert ClientOk(w, a) && KnownOk(a);
    ClosedKeeps(w, v, a);
    hide Chain, ClientOk;
    OthersKept(w, v, c);
  }

  /** Changes to a channel nobody is served from concern no client. */
  lemma UnservedKeeps(w: World, chan: nat, value: Chan)
    requires Inv(w) && Unserved(w, chan) && |value.queue| <= SUBSCRIBER_CAPACITY
    ensures Inv(w.(store := SetChannel(w.store, chan, value)))
  {
    var v := w.(store := SetChannel(w.store, chan, value));
    forall i | 0 <= i < |v.clients| ensures ClientOk(v, v.clients[i]) {
      ClientKept(w, v, w.clients[i], v.clients[i]);
    }
  }

  // ---------------------------------------------------------------- reconnecting

  /** What a reconnecting client is given continues what it has: the whole log from its cursor on,
      or a resync that moves forward. */
  lemma {:induction false} ReconnectContinues(w: World, received: seq<Frame>)
    requires HistoryOk(w) && Chain(w, received) && received != []
    ensures var s, sub := w.store, Opened(w.store, LastCursor(received));
      var coming := (if sub.resync.Some? then [Resync(sub.resync.value)] else []) + Entries(s.streamId, sub.backlog);
      && Chain(w, received + coming)
      && (received + coming)[|received + coming| - 1].cursor == Tail(s)
  {
    var s, last := w.store, received[|received| - 1];
    var log, n := w.logs[s.streamId], last.cursor.sequence;
    assert Genuine(w, last);
    OpenedIs(s, log, last.cursor);
    var sub := Opened(s, LastCursor(received));
    if sub.resync.Some? {
      assert [Resync(Tail(s))] + Entries(s.streamId, []) == [Resync(Tail(s))];
      ChainAppends(w, received, Resync(Tail(s)));
    } else {
      assert [] + Entries(s.streamId, log[n..]) == Entries(s.streamId, log[n..]);
      LogContinues(w, received, n);
    }
  }

  lemma LogEntry(w: World, n: nat, i: nat)
    requires HistoryOk(w) && n + i < w.store.sequence
    ensures var more := Entries(w.store.streamId, w.logs[w.store.streamId][n..]);
      && |more| == w.store.sequence - n
      && more[i].cursor == Cursor(w.store.streamId, n + i + 1) && more[i].Notification? && Genuine(w, more[i])
  {
    var log := w.logs[w.store.streamId];
    assert log[n..][i] == log[n + i];
    assert log[n + i].sequence == n + i + 1;
  }

  /** The log itself is a chain. */
  lemma LogChain(w: World, n: nat)
    requires HistoryOk(w) && n <= w.store.sequence
    ensures var more := Entries(w.store.streamId, w.logs[w.store.streamId][n..]);
      && Chain(w, more) && |more| == w.store.sequence - n
      && forall i | 0 <= i < |more| :: more[i].cursor == Cursor(w.store.streamId, n + i + 1)
  {
    var more := Entries(w.store.streamId, w.logs[w.store.streamId][n..]);
    assert |more| == w.store.sequence - n && w.store.streamId in w.born;
    hide Entries, Genuine, HistoryOk;
    forall i | 0 <= i < |more|
      ensures Genuine(w, more[i]) && more[i].cursor == Cursor(w.store.streamId, n + i + 1)
    {
      LogEntry(w, n, i);
    }
    forall i | 0 < i < |more| ensures Follows(w, more[i - 1], more[i]) {
      LogEntry(w, n, i - 1);
      LogEntry(w, n, i);
    }
  }

  lemma ChainJoins(w: World, a: seq<Frame>, b: seq<Frame>)
    requires Chain(w, a) && Chain(w, b)
    requires a != [] && b != [] ==> Follows(w, a[|a| - 1], b[0])
    ensures Chain(w, a + b)
  {
    var all := a + b;
    forall i | 0 < i < |all| ensures Follows(w, all[i - 1], all[i]) {
      if i < |a| {
        assert Follows(w, a[i - 1], a[i]);
      } else if i > |a| {
        assert Follows(w, b[i - |a| - 1], b[i - |a|]);
      }
    }
  }

  lemma LogContinues(w: World, frames: seq<Frame>, n: nat)
    requires HistoryOk(w) && Chain(w, frames) && frames != [] && n <= w.store.sequence
    requires frames[|frames| - 1].cursor == Cursor(w.store.streamId, n)
    ensures var all := frames + Entries(w.store.streamId, w.logs[w.store.streamId][n..]);
      Chain(w, all) && all[|all| - 1].cursor == Tail(w.store)
  {
    LogChain(w, n);
    ChainJoins(w, frames, Entries(w.store.streamId, w.logs[w.store.streamId][n..]));
  }

  /** What a fresh connection will bring: the resync or the backlog, its channel being empty. */
  lemma ConnectComing(w: World, c: nat)
    requires Enabled(w, Connect(c))
    ensures var v, s, sub := Step(w, Connect(c)), w.store, Opened(w.store, Offered(w.clients[c]));
      && Grows(w, v) && Tail(v.store) == Tail(s)
      && Coming(v.store, v.clients[c].conn)
         == (if sub.resync.Some? then [Resync(sub.resync.value)] else []) + Entries(s.streamId, sub.backlog)
  {
    var s, sub := w.store, Opened(w.store, Offered(w.clients[c]));
    assert sub.backlog + [] == sub.backlog;
    var unsent := (if sub.resync.Some? then [Resync(sub.resync.value)] else []) + Entries(s.streamId, sub.backlog);
    assert [] + unsent == unsent;
  }

  lemma FirstConnectKeeps(w: World, c: nat)
    requires HistoryOk(w) && Enabled(w, Connect(c)) && Offered(w.clients[c]).None?
    ensures ClientOk(Step(w, Connect(c)), Step(w, Connect(c)).clients[c])
  {
    var v, mark := Step(w, Connect(c)), [Resync(Tail(w.store))];
    ConnectComing(w, c);
    assert v.clients[c].conn.chan < |v.store.channels|;
    assert v.clients[c].known == mark && Coming(v.store, v.clients[c].conn) == [];
    hide Coming;
    assert Chain(v, mark);
    assert mark + [] == mark;
  }

  lemma KnownLast(c: Client)
    requires KnownOk(c) && Offered(c).Some?
    ensures c.known != [] && LastCursor(c.known) == Offered(c)
  {
    var mark := c.reader.marks[|c.reader.marks| - 1];
    assert c.known[1..][|c.known| - 2] == c.received[mark.after..][|c.received| - mark.after - 1];
  }

  lemma ReconnectKeeps(w: World, c: nat)
    requires HistoryOk(w) && Enabled(w, Connect(c)) && Offered(w.clients[c]).Some? && Chain(w, w.clients[c].known)
    requires KnownOk(w.clients[c])
    ensures ClientOk(Step(w, Connect(c)), Step(w, Connect(c)).clients[c])
  {
    hide KnownOk, Opened, Coming, Grows, Chain;
    var v, a := Step(w, Connect(c)), w.clients[c];
    ConnectComing(w, c);
    KnownLast(a);
    ReconnectContinues(w, a.known);
    assert v.clients[c].conn.chan < |v.store.channels| && v.clients[c].known == a.known;
    var coming := Coming(v.store, v.clients[c].conn);
    hide HistoryOk, Step, LastCursor, Offered, Enabled, Entries;
    ChainGrows(w, v, a.known + coming);
  }

  lemma ConnectKeepsClient(w: World, c: nat)
    requires Inv(w) && Enabled(w, Connect(c))
    ensures ClientOk(Step(w, Connect(c)), Step(w, Connect(c)).clients[c])
  {
    var a := w.clients[c];
    assert ClientOk(w, a) && KnownOk(a);
    ChainPrefix(w, a.known, Coming(w.store, a.conn));
    hide HistoryOk, KnownOk, ClientOk;
    if Offered(a).None? {
      FirstConnectKeeps(w, c);
    } else {
      ReconnectKeeps(w, c);
    }
  }

  lemma ConnectKeepsOther(w: World, c: nat, i: nat)
    requires Inv(w) && Enabled(w, Connect(c)) && i < |w.clients| && i != c
    ensures ClientOk(Step(w, Connect(c)), w.clients[i])
    ensures w.clients[i].conn.Serving? ==> w.clients[i].conn.chan < |w.store.channels|
  {
    assert ClientOk(w, w.clients[i]);
    ClientKept(w, Step(w, Connect(c)), w.clients[i], w.clients[i]);
  }

  lemma ConnectShape(w: World, c: nat)
    requires Enabled(w, Connect(c))
    ensures var v := Step(w, Connect(c));
      && |v.clients| == |w.clients| && v.logs == w.logs && v.born == w.born && v.store == Subscribed(w.store)
      && v.clients == w.clients[c := v.clients[c]]
      && v.clients[c].conn.Serving? && v.clients[c].conn.chan == |w.store.channels|
      && (KnownOk(w.clients[c]) ==> KnownOk(v.clients[c]))
  {
    hide Opened, Subscribed;
  }

  lemma ConnectHistory(w: World, v: World)
    requires HistoryOk(w) && Wired(w.store) && v.logs == w.logs && v.born == w.born && v.store == Subscribed(w.store)
    ensures HistoryOk(v) && Wired(v.store)
  {
    SubscribedKeeps(w.store, w.logs[w.store.streamId]);
    hide Logs, Wired;
  }

  lemma ConnectApart(w: World, v: World, c: nat)
    requires c < |w.clients| == |v.clients| && Apart(w.clients) && v.clients == w.clients[c := v.clients[c]]
    requires v.clients[c].conn.Serving? && v.clients[c].conn.chan == |w.store.channels|
    requires forall i | 0 <= i < |w.clients| && i != c && w.clients[i].conn.Serving? ::
      w.clients[i].conn.chan < |w.store.channels|
    ensures Apart(v.clients)
  {
  }

  lemma ConnectKeeps(w: World, c: nat)
    requires Inv(w) && Enabled(w, Connect(c))
    ensures Inv(Step(w, Connect(c)))
  {
    hide HistoryOk, Wired, ClientOk, KnownOk, Apart, Subscribed, Step;
    var v := Step(w, Connect(c));
    ConnectShape(w, c);
    ConnectHistory(w, v);
    ConnectKeepsClient(w, c);
    forall i | 0 <= i < |w.clients| && i != c
      ensures v.clients[i] == w.clients[i] && ClientOk(v, w.clients[i])
      ensures w.clients[i].conn.Serving? ==> w.clients[i].conn.chan < |w.store.channels|
    {
      ConnectKeepsOther(w, c, i);
    }
    ConnectApart(w, v, c);
  }

  lemma RestartKeepsClient(w: World, streamId: string, i: nat)
    requires Inv(w) && Enabled(w, Restart(streamId)) && i < |w.clients|
    ensures var v := Step(w, Restart(streamId)); ClientOk(v, v.clients[i]) && KnownOk(v.clients[i])
  {
    var v, a := Step(w, Restart(streamId)), w.clients[i];
    hide Chain, Coming, Grows, HistoryOk, Wired, ClientOk, Apart, Offered;
    assert v.clients[i] == a.(conn := Closed);
    assert ClientOk(w, a) && KnownOk(a);
    RestartGrows(w, streamId);
    ClosedKeeps(w, v, a);
  }

  lemma RestartGrows(w: World, streamId: string)
    requires HistoryOk(w) && Enabled(w, Restart(streamId))
    ensures Grows(w, Step(w, Restart(streamId)))
  {
  }

  lemma RestartHistory(w: World, streamId: string)
    requires HistoryOk(w) && Enabled(w, Restart(streamId))
    ensures HistoryOk(Step(w, Restart(streamId))) && Wired(Step(w, Restart(streamId)).store)
  {
  }

  lemma RestartKeeps(w: World, streamId: string)
    requires Inv(w) && Enabled(w, Restart(streamId))
    ensures Inv(Step(w, Restart(streamId)))
  {
    var v := Step(w, Restart(streamId));
    RestartHistory(w, streamId);
    hide HistoryOk, Wired, ClientOk, KnownOk;
    forall i | 0 <= i < |v.clients| ensures ClientOk(v, v.clients[i]) && KnownOk(v.clients[i]) {
      RestartKeepsClient(w, streamId, i);
    }
  }

  lemma StepKeeps(w: World, a: Action)
    requires Inv(w)
    ensures Inv(Step(w, a))
  {
    if Enabled(w, a) {
      match a
      case Push(notice) => PushKeeps(w, notice);
      case Connect(c) => ConnectKeeps(w, c);
      case Serve(c) => ServeKeeps(w, c);
      case Receive(c) => ReceiveKeeps(w, c);
      case Idle(c) => IdleKeeps(w, c);
      case Sever(c) => SeverKeeps(w, c);
      case Orphan(chan) =>
        UnservedKeeps(w, chan, w.store.channels[chan].(queue := w.store.channels[chan].queue[1..]));
      case Drop(chan) => UnservedKeeps(w, chan, w.store.channels[chan].(open := false));
      case Restart(id) => RestartKeeps(w, id);
    }
  }

  lemma {:induction false} RunKeeps(w: World, actions: seq<Action>)
    requires Inv(w)
    ensures Inv(Run(w, actions))
    decreases |actions|
  {
    if actions != [] {
      RunKeeps(w, actions[..|actions| - 1]);
      StepKeeps(Run(w, actions[..|actions| - 1]), actions[|actions| - 1]);
    }
  }

  lemma InitInv(streamId: string, readers: seq<bool>)
    ensures Inv(Init(streamId, readers))
  {
    var w := Init(streamId, readers);
    assert HistoryOk(w) && Wired(w.store);
    hide HistoryOk, Wired;
    forall i | 0 <= i < |w.clients| ensures ClientOk(w, w.clients[i]) {
      assert w.clients[i].received + Coming(w.store, w.clients[i].conn) == [];
    }
  }

  // ---------------------------------------------------------------- main results

  /** Exactly once, across disconnects, slow-subscriber drops and connector restarts: in every run, each
      notification received by a client that reconnects with the id of its last frame is the true one for its cursor
      and immediately follows the previous frame of the same stream; only a resync opens a gap; and no notification
      is received twice. */
  lemma {:induction false} ExactlyOnce(streamId: string, readers: seq<bool>, actions: seq<Action>, c: nat)
    requires c < |readers| && !readers[c]
    ensures var w := Run(Init(streamId, readers), actions);
      c < |w.clients|
      && var got := w.clients[c].received;
      && (forall i | 0 <= i < |got| :: Genuine(w, got[i]))
      && (forall i | 0 < i < |got| && got[i].Notification? ::
            got[i].cursor == Cursor(got[i - 1].cursor.streamId, got[i - 1].cursor.sequence + 1))
      && (forall i, j | 0 <= i < j < |got| :: got[i].cursor != got[j].cursor)
  {
    hide Run, Init;
    var w := Run(Init(streamId, readers), actions);
    Reachable(streamId, readers, actions);
    var got, known := w.clients[c].received, w.clients[c].known;
    assert ClientOk(w, w.clients[c]) && KnownOk(w.clients[c]);
    ChainPrefix(w, known, Coming(w.store, w.clients[c].conn));
    hide Inv, Coming;
    assert got[0..] == got;
    assert known != [] ==> got == known[1..];
    hide KnownOk;
    forall i | 0 <= i < |got| ensures Genuine(w, got[i]) {
      assert got[i] == known[i + 1];
    }
    forall i, j | 0 <= i < j < |got| ensures got[i].cursor != got[j].cursor {
      ChainOrdered(w, known, i + 1, j + 1);
    }
    forall i | 0 < i < |got| && got[i].Notification?
      ensures got[i].cursor == Cursor(got[i - 1].cursor.streamId, got[i - 1].cursor.sequence + 1)
    {
      assert Follows(w, known[i], known[i + 1]);
    }
  }

  lemma {:induction false} Reachable(streamId: string, readers: seq<bool>, actions: seq<Action>)
    ensures var w := Run(Init(streamId, readers), actions);
      Inv(w) && |w.clients| == |readers| && forall c | 0 <= c < |readers| :: w.clients[c].reader.strict == readers[c]
  {
    InitInv(streamId, readers);
    RunKeeps(Init(streamId, readers), actions);
    ClientCount(Init(streamId, readers), actions);
  }

  lemma {:induction false} ChainOrdered(w: World, frames: seq<Frame>, i: nat, j: nat)
    requires Chain(w, frames) && i < j < |frames|
    ensures Before(w, frames[i].cursor, frames[j].cursor)
    decreases j
  {
    assert Follows(w, frames[j - 1], frames[j]);
    if i < j - 1 {
      ChainOrdered(w, frames, i, j - 1);
    }
  }

  lemma StepCount(w: World, a: Action)
    ensures |Step(w, a).clients| == |w.clients|
    ensures forall c | 0 <= c < |w.clients| :: Step(w, a).clients[c].reader.strict == w.clients[c].reader.strict
  {
    hide Opened, Pushed, Subscribed, Offered, IsQuiet, Unserved;
  }

  lemma {:induction false} ClientCount(w: World, actions: seq<Action>)
    ensures |Run(w, actions).clients| == |w.clients|
    ensures forall c | 0 <= c < |w.clients| :: Run(w, actions).clients[c].reader.strict == w.clients[c].reader.strict
    decreases |actions|
  {
    hide Step;
    if actions != [] {
      ClientCount(w, actions[..|actions| - 1]);
      StepCount(Run(w, actions[..|actions| - 1]), actions[|actions| - 1]);
    }
  }

  /** Nothing is missing either: in every run, a connected client's frames, received and coming, continue from what
      it knew without a gap, and while its channel is registered they reach the tail of the log. A client that
      connected without a Last-Event-ID has the stream from that moment on. */
  lemma {:induction false} NothingMissing(streamId: string, readers: seq<bool>, actions: seq<Action>, c: nat)
    requires c < |readers|
    ensures var w := Run(Init(streamId, readers), actions);
      c < |w.clients|
      && var conn, known := w.clients[c].conn, w.clients[c].known;
      var all := known + Coming(w.store, conn);
      conn.Serving? ==>
        && KnownOk(w.clients[c]) && known != []
        && (forall i | 0 < i < |all| && all[i].Notification? ::
              all[i].cursor == Cursor(all[i - 1].cursor.streamId, all[i - 1].cursor.sequence + 1))
        && (conn.chan in w.store.subscribers ==> all[|all| - 1].cursor == Tail(w.store))
  {
    hide Run, Init;
    var w := Run(Init(streamId, readers), actions);
    Reachable(streamId, readers, actions);
    assert ClientOk(w, w.clients[c]) && KnownOk(w.clients[c]);
    hide Inv, Coming;
    var all := w.clients[c].known + Coming(w.store, w.clients[c].conn);
    forall i | 0 < i < |all| && all[i].Notification?
      ensures all[i].cursor == Cursor(all[i - 1].cursor.streamId, all[i - 1].cursor.sequence + 1)
    {
      assert Follows(w, all[i - 1], all[i]);
    }
  }

  /** The mark is where the stream stood: a connection without a Last-Event-ID starts from the tail, with nothing
      behind it. */
  lemma FreshStart(w: World, c: nat)
    requires Enabled(w, Connect(c)) && Offered(w.clients[c]).None?
    ensures var v := Step(w, Connect(c));
      v.clients[c].known == [Resync(Tail(w.store))] && Coming(v.store, v.clients[c].conn) == []
  {
    ConnectComing(w, c);
  }

  /** In every run the store keeps the last 1000 events, no queue is longer than 1024, and a subscriber is dropped only
      when its queue is full or its thread is gone: then its frames stop at the event before the lost one. */
  lemma {:induction false} SlowSubscriberStopsShort(
    streamId: string, readers: seq<bool>, actions: seq<Action>, notice: Notice, c: nat)
    requires c < |readers|
    ensures var w := Run(Init(streamId, readers), actions);
      var v := Step(w, Push(notice));
      && w.store.streamId in w.logs && Logs(w.store, w.logs[w.store.streamId])
      && |w.store.retained| == (if w.store.sequence < 1000 then w.store.sequence else 1000)
      && (forall i | 0 <= i < |w.store.channels| :: |w.store.channels[i].queue| <= 1024)
      && c < |w.clients|
      && var client := w.clients[c];
         var all := client.known + Coming(w.store, client.conn);
         client.conn.Serving? && client.conn.chan in w.store.subscribers && client.conn.chan !in v.store.subscribers ==>
           && client.conn.chan < |w.store.channels|
           && (!w.store.channels[client.conn.chan].open || |w.store.channels[client.conn.chan].queue| == 1024)
           && Coming(v.store, client.conn) == Coming(w.store, client.conn)
           && all != [] && all[|all| - 1].cursor == Tail(w.store)
  {
    hide Run, Init;
    var w := Run(Init(streamId, readers), actions);
    Reachable(streamId, readers, actions);
    var conn := w.clients[c].conn;
    assert ClientOk(w, w.clients[c]);
    hide Chain, Coming;
    if conn.Serving? && conn.chan in w.store.subscribers {
      PushComing(w, conn, notice);
      KeptIs(w.store.channels, w.store.subscribers, conn.chan);
      assert Coming(w.store, conn) + [] == Coming(w.store, conn);
    }
  }

  /** A connection's frames are the same in a store that differs in other channels, or has more of them. */
  lemma ComingSame(s: Store, t: Store, conn: Conn)
    requires conn.Serving? && conn.chan < |s.channels| && conn.chan < |t.channels|
    requires t.channels[conn.chan] == s.channels[conn.chan] && t.streamId == s.streamId
    ensures Coming(t, conn) == Coming(s, conn)
  {
  }

  /** What client `c` has and is still to get. */
  function Frames(w: World, c: nat): seq<Frame>
    requires c < |w.clients|
  {
    w.clients[c].known + Coming(w.store, w.clients[c].conn)
  }

  lemma PushPasses(w: World, notice: Notice, c: nat)
    requires c < |w.clients| && w.clients[c].conn.Serving? && w.clients[c].conn.chan < |w.store.channels|
    requires w.clients[c].conn.chan !in w.store.subscribers
    ensures var v := Step(w, Push(notice));
      v.clients == w.clients && w.clients[c].conn.chan !in v.store.subscribers && Frames(v, c) == Frames(w, c)
  {
    var conn := w.clients[c].conn;
    PushComing(w, conn, notice);
    hide Coming;
    assert Coming(w.store, conn) + [] == Coming(w.store, conn);
  }

  lemma ReceivePasses(w: World, c: nat)
    requires Enabled(w, Receive(c)) && w.clients[c].conn.chan < |w.store.channels|
    ensures var v := Step(w, Receive(c));
      && v.store == w.store && v.clients[c].conn.Serving? && v.clients[c].conn.chan == w.clients[c].conn.chan
      && Frames(v, c) == Frames(w, c)
  {
    var b := w.clients[c];
    MoveHead(b.known, b.conn.socket, Unsent(w.store, b.conn));
    hide Unsent;
  }

  lemma ServePasses(w: World, i: nat, c: nat)
    requires Inv(w) && Enabled(w, Serve(i)) && c < |w.clients| && w.clients[c].conn.Serving?
    ensures var v := Step(w, Serve(i));
      && |v.clients| == |w.clients| && v.store.subscribers == w.store.subscribers
      && v.clients[c].conn.Serving? && v.clients[c].conn.chan == w.clients[c].conn.chan
      && Frames(v, c) == Frames(w, c)
  {
    assert ClientOk(w, w.clients[c]);
    hide Coming, Chain, HistoryOk;
    if i == c {
      ServeShape(w, c);
      ServeComing(w, c);
    } else {
      OtherChannel(w, i, c);
      ComingSame(w.store, Step(w, Serve(i)).store, w.clients[c].conn);
    }
  }

  /** A step that leaves a dropped subscriber connected leaves its channel unregistered, and what it has and is still to
      get as it was. */
  lemma DroppedStepStays(w: World, a: Action, c: nat)
    requires Inv(w) && c < |w.clients| == |Step(w, a).clients|
    requires w.clients[c].conn.Serving? && w.clients[c].conn.chan !in w.store.subscribers
    requires Step(w, a).clients[c].conn.Serving?
    ensures var v := Step(w, a);
      && v.clients[c].conn.chan == w.clients[c].conn.chan && v.clients[c].conn.chan !in v.store.subscribers
      && Frames(v, c) == Frames(w, c)
  {
    assert w.clients[c].conn.chan < |w.store.channels| by { assert ClientOk(w, w.clients[c]); }
    hide Inv, Coming, Opened, Pushed, Unserved;
    if Enabled(w, a) {
      match a
      case Push(notice) => PushPasses(w, notice, c);
      case Serve(i) => ServePasses(w, i, c);
      case Receive(i) =>
        if i == c {
          ReceivePasses(w, c);
        }
      case Connect(_) => ComingSame(w.store, Step(w, a).store, w.clients[c].conn);
      case Orphan(chan) => AloneComing(w, chan, c, a);
      case Drop(chan) => AloneComing(w, chan, c, a);
      case _ =>
    }
  }

  /** A channel nobody is served from is not the client's. */
  lemma AloneComing(w: World, chan: nat, c: nat, a: Action)
    requires Enabled(w, a) && (a == Orphan(chan) || a == Drop(chan)) && c < |w.clients|
    requires w.clients[c].conn.Serving? && w.clients[c].conn.chan < |w.store.channels|
    ensures var v := Step(w, a);
      v.clients == w.clients && v.store.subscribers == w.store.subscribers && Frames(v, c) == Frames(w, c)
  {
    ComingSame(w.store, Step(w, a).store, w.clients[c].conn);
    hide Coming;
  }

  /** Serving one client leaves every other one's channel alone. */
  lemma OtherChannel(w: World, i: nat, c: nat)
    requires Inv(w) && Enabled(w, Serve(i)) && c < |w.clients| && c != i && w.clients[c].conn.Serving?
    ensures var v := Step(w, Serve(i));
      && |v.store.channels| == |w.store.channels| && v.store.streamId == w.store.streamId
      && v.store.subscribers == w.store.subscribers && v.clients[c] == w.clients[c]
      && w.clients[c].conn.chan < |w.store.channels|
      && v.store.channels[w.clients[c].conn.chan] == w.store.channels[w.clients[c].conn.chan]
  {
    assert ClientOk(w, w.clients[c]);
    hide Chain, HistoryOk, Wired;
  }

  /** So a dropped subscriber's frames stop where they stopped: for as long as it stays connected, whatever else
      happens, nothing is added and nothing is lost. */
  lemma {:induction false} DroppedStaysDropped(w: World, more: seq<Action>, c: nat)
    requires Inv(w) && c < |w.clients|
    requires w.clients[c].conn.Serving? && w.clients[c].conn.chan !in w.store.subscribers
    requires forall n | 0 <= n <= |more| ::
      c < |Run(w, more[..n]).clients| && Run(w, more[..n]).clients[c].conn.Serving?
    ensures var v := Run(w, more);
      c < |v.clients|
      && var d := v.clients[c];
      && d.conn.Serving? && d.conn.chan == w.clients[c].conn.chan && d.conn.chan !in v.store.subscribers
      && Frames(v, c) == Frames(w, c)
    decreases |more|
  {
    assert more[..|more|] == more;
    if more != [] {
      var front, n := more[..|more| - 1], |more| - 1;
      forall m | 0 <= m <= n ensures front[..m] == more[..m] {
      }
      DroppedStaysDropped(w, front, c);
      RunKeeps(w, front);
      ClientCount(w, front);
      ClientCount(w, more);
      hide Step, Inv, Frames;
      DroppedStepStays(Run(w, front), more[n], c);
    }
  }
}
