/** Clients that keep their last event ID strictly by section 9.2.6 of the WHATWG HTML Living Standard, in the runs of
    the notification stream: what each frame they receive follows (`src/notification_stream.rs`,
    `src/app_server/event_store.rs`). */
module FrameLinks {
  import opened Json
  import opened Cursors
  import opened EventStores
  import opened Streams

  /** Where the stream stood when the last connection without a Last-Event-ID was opened after `i` frames. */
  function MarkAt(marks: seq<Mark>, i: nat): Option<Cursor> {
    if marks == [] then None
    else
      var last := marks[|marks| - 1];
      if last.after == i then Some(last.cursor) else MarkAt(marks[..|marks| - 1], i)
  }

  /** What frame `i` follows: the mark it was received after, or else the frame before it. */
  function Prev(c: Client, i: nat): Option<Frame>
    requires i < |c.received|
  {
    match MarkAt(c.reader.marks, i)
    case Some(cursor) => Some(Resync(cursor))
    case None => if i > 0 then Some(c.received[i - 1]) else None
  }

  predicate NotAfter(w: World, c: Cursor, d: Cursor) {
    c == d || Before(w, c, d)
  }

  /** Marks stand in the order of time, each at a place of the stream not before the frame it comes after. */
  ghost predicate MarksOk(w: World, c: Client) {
    var marks := c.reader.marks;
    && (forall j | 0 <= j < |marks| :: marks[j].after <= |c.received| && Genuine(w, Resync(marks[j].cursor)))
    && (forall j | 0 <= j < |marks| && marks[j].after > 0 ::
          NotAfter(w, c.received[marks[j].after - 1].cursor, marks[j].cursor))
    && (forall j, k | 0 <= j < k < |marks| ::
          marks[j].after <= marks[k].after && NotAfter(w, marks[j].cursor, marks[k].cursor))
  }

  /** Frame `i` is genuine and follows what it should. */
  predicate LinkOk(w: World, c: Client, i: nat)
    requires i < |c.received|
  {
    Genuine(w, c.received[i]) && Prev(c, i).Some? && Follows(w, Prev(c, i).value, c.received[i])
  }

  ghost predicate Linked(w: World, c: Client) {
    MarksOk(w, c) && forall i | 0 <= i < |c.received| :: LinkOk(w, c, i)
  }

  ghost predicate AllLinked(w: World) {
    forall i | 0 <= i < |w.clients| :: Linked(w, w.clients[i])
  }

  // ---------------------------------------------------------------- every step keeps it

  lemma StepGrows(w: World, a: Action)
    requires HistoryOk(w)
    ensures Grows(w, Step(w, a)) && |Step(w, a).clients| == |w.clients|
  {
    hide Opened, Pushed, Subscribed, Offered, IsQuiet, Unserved;
    match a
    case Push(_) =>
    case Restart(_) =>
    case _ => assert Step(w, a).logs == w.logs && Step(w, a).born == w.born;
  }

  lemma FrameGrows(w: World, v: World, f: Frame)
    requires Grows(w, v) && Genuine(w, f)
    ensures Genuine(v, f)
  {
    assert w.logs[f.cursor.streamId] <= v.logs[f.cursor.streamId];
  }

  lemma OrderGrows(w: World, v: World, c: Cursor, d: Cursor)
    requires Grows(w, v) && NotAfter(w, c, d)
    ensures NotAfter(v, c, d)
  {
  }

  lemma MarksGrow(w: World, v: World, c: Client, d: Client)
    requires MarksOk(w, c) && Grows(w, v) && d.received == c.received && d.reader.marks == c.reader.marks
    ensures MarksOk(v, d)
  {
    hide Grows, Genuine, NotAfter;
    var marks := c.reader.marks;
    forall j | 0 <= j < |marks| ensures Genuine(v, Resync(marks[j].cursor)) {
      FrameGrows(w, v, Resync(marks[j].cursor));
    }
    forall j | 0 <= j < |marks| && marks[j].after > 0
      ensures NotAfter(v, c.received[marks[j].after - 1].cursor, marks[j].cursor)
    {
      OrderGrows(w, v, c.received[marks[j].after - 1].cursor, marks[j].cursor);
    }
    forall j, k | 0 <= j < k < |marks| ensures NotAfter(v, marks[j].cursor, marks[k].cursor) {
      OrderGrows(w, v, marks[j].cursor, marks[k].cursor);
    }
  }

  lemma LinkGrows(w: World, v: World, c: Client, d: Client, i: nat)
    requires i < |c.received| && LinkOk(w, c, i) && Grows(w, v)
    requires |d.received| > i && d.received[i] == c.received[i] && Prev(d, i) == Prev(c, i)
    ensures LinkOk(v, d, i)
  {
    FrameGrows(w, v, c.received[i]);
    hide Genuine, Prev;
  }

  lemma LinkedGrows(w: World, v: World, c: Client, d: Client)
    requires Linked(w, c) && Grows(w, v) && d.received == c.received && d.reader.marks == c.reader.marks
    ensures Linked(v, d)
  {
    MarksGrow(w, v, c, d);
    forall i | 0 <= i < |d.received| ensures LinkOk(v, d, i) {
      assert LinkOk(w, c, i);
      LinkGrows(w, v, c, d, i);
    }
    hide MarksOk, LinkOk, Grows;
  }

  /** Only receiving and connecting touch what a client has received and its marks. */
  lemma SameReceived(w: World, a: Action, i: nat)
    requires i < |w.clients| && a != Receive(i) && a != Connect(i)
    ensures |Step(w, a).clients| == |w.clients|
    ensures Step(w, a).clients[i].received == w.clients[i].received
    ensures Step(w, a).clients[i].reader.marks == w.clients[i].reader.marks
  {
    hide Opened, Pushed;
  }

  /** Whatever is genuine is not after the tail. */
  lemma NotAfterTail(w: World, f: Frame)
    requires HistoryOk(w) && Genuine(w, f)
    ensures NotAfter(w, f.cursor, Tail(w.store))
  {
  }

  lemma MarkBefore(marks: seq<Mark>, i: nat)
    requires marks != [] && marks[|marks| - 1].after < i
    requires forall j, k | 0 <= j < k < |marks| :: marks[j].after <= marks[k].after
    ensures MarkAt(marks, i).None?
  {
    if |marks| > 1 {
      MarkBefore(marks[..|marks| - 1], i);
    }
  }

  /** The last thing a client knows is what its next frame follows. */
  lemma KnownLastIs(w: World, c: Client, d: Client)
    requires KnownOk(c) && c.conn.Serving? && MarksOk(w, c)
    requires |d.received| == |c.received| + 1 && d.received[..|c.received|] == c.received
    requires d.reader.marks == c.reader.marks
    ensures c.known != [] && Prev(d, |c.received|) == Some(c.known[|c.known| - 1])
  {
    var marks, n := c.reader.marks, |c.received|;
    var mark := marks[|marks| - 1];
    if mark.after < n {
      MarkBefore(marks, n);
      assert c.known[1..][|c.known| - 2] == c.received[mark.after..][n - mark.after - 1];
      assert d.received[n - 1] == c.received[n - 1];
    }
  }

  /** The frame a client receives follows the last thing it knows. */
  lemma NextFollows(w: World, c: nat)
    requires Enabled(w, Receive(c)) && ClientOk(w, w.clients[c]) && w.clients[c].known != []
    ensures var a := w.clients[c];
      Genuine(w, a.conn.socket[0]) && Follows(w, a.known[|a.known| - 1], a.conn.socket[0])
  {
    hide Genuine, Follows;
    var a := w.clients[c];
    var all := a.known + Coming(w.store, a.conn);
    assert all[|a.known|] == a.conn.socket[0] && all[|a.known| - 1] == a.known[|a.known| - 1];
  }

  lemma ReceiveLinks(w: World, c: nat)
    requires Inv(w) && Enabled(w, Receive(c)) && Linked(w, w.clients[c])
    ensures var v := Step(w, Receive(c)); Linked(v, v.clients[c])
  {
    var v, a := Step(w, Receive(c)), w.clients[c];
    assert ClientOk(w, a) && KnownOk(a);
    KnownLastIs(w, a, v.clients[c]);
    NextFollows(w, c);
    assert v.logs == w.logs && v.born == w.born;
    var b, f := v.clients[c], a.conn.socket[0];
    assert b.received == a.received + [f] && b.reader.marks == a.reader.marks;
    hide Inv, ClientOk, KnownOk, Enabled, Step;
    OneMoreFrame(w, v, a, b, f);
  }

  lemma OneMoreFrame(w: World, v: World, a: Client, b: Client, f: Frame)
    requires Linked(w, a) && v.logs == w.logs && v.born == w.born
    requires b.received == a.received + [f] && b.reader.marks == a.reader.marks
    requires Genuine(w, f) && Prev(b, |a.received|).Some? && Follows(w, Prev(b, |a.received|).value, f)
    ensures Linked(v, b)
  {
    assert Grows(w, v);
    var was := b.(received := a.received);
    assert forall i | 0 <= i < |a.received| :: b.received[i] == a.received[i];
    assert LinkOk(v, b, |a.received|) by { FrameGrows(w, v, f); }
    MarksGrow(w, v, a, was);
    assert MarksOk(v, b) by { hide Genuine, NotAfter; }
    forall i | 0 <= i < |a.received| ensures LinkOk(v, b, i) {
      assert LinkOk(w, a, i) && Prev(b, i) == Prev(a, i);
      LinkGrows(w, v, a, b, i);
    }
    hide MarksOk, LinkOk, Grows;
  }

  lemma ConnectLinks(w: World, c: nat)
    requires Inv(w) && Enabled(w, Connect(c)) && Linked(w, w.clients[c])
    ensures var v := Step(w, Connect(c)); Linked(v, v.clients[c])
  {
    hide Linked, Grows, Opened, Subscribed, ClientOk, KnownOk, HistoryOk, Wired;
    var v, a := Step(w, Connect(c)), w.clients[c];
    StepGrows(w, Connect(c));
    if Offered(a).None? {
      var b := Greeted(a, Tail(w.store));
      MarkAdded(w, a, b);
      LinkedGrows(w, v, b, v.clients[c]);
    } else {
      LinkedGrows(w, v, a, v.clients[c]);
    }
  }

  lemma MarkAdded(w: World, a: Client, b: Client)
    requires HistoryOk(w) && Linked(w, a) && b.received == a.received
    requires b.reader.marks == a.reader.marks + [Mark(|a.received|, Tail(w.store))]
    ensures Linked(w, b)
  {
    var n, marks := |a.received|, a.reader.marks;
    assert b.reader.marks[..|marks|] == marks;
    if n > 0 {
      assert LinkOk(w, a, n - 1);
      NotAfterTail(w, a.received[n - 1]);
    }
    forall j | 0 <= j < |marks| ensures NotAfter(w, marks[j].cursor, Tail(w.store)) {
      NotAfterTail(w, Resync(marks[j].cursor));
    }
    assert Genuine(w, Resync(Tail(w.store)));
    forall i | 0 <= i < n ensures LinkOk(w, b, i) {
      assert LinkOk(w, a, i) && Prev(b, i) == Prev(a, i);
    }
    hide LinkOk, Genuine, HistoryOk, NotAfter;
  }

  lemma StepLinks(w: World, a: Action)
    requires Inv(w) && AllLinked(w)
    ensures AllLinked(Step(w, a))
  {
    var v := Step(w, a);
    StepGrows(w, a);
    forall i | 0 <= i < |v.clients| ensures Linked(v, v.clients[i]) {
      if a == Receive(i) && Enabled(w, a) {
        ReceiveLinks(w, i);
      } else if a == Connect(i) && Enabled(w, a) {
        ConnectLinks(w, i);
      } else {
        if a != Receive(i) && a != Connect(i) {
          SameReceived(w, a, i);
        }
        hide Linked, Grows;
        LinkedGrows(w, v, w.clients[i], v.clients[i]);
      }
    }
  }

  lemma {:induction false} RunLinks(streamId: string, readers: seq<bool>, actions: seq<Action>)
    ensures AllLinked(Run(Init(streamId, readers), actions))
    decreases |actions|
  {
    if actions != [] {
      RunLinks(streamId, readers, actions[..|actions| - 1]);
      Reachable(streamId, readers, actions[..|actions| - 1]);
      hide Init, AllLinked;
      StepLinks(Run(Init(streamId, readers), actions[..|actions| - 1]), actions[|actions| - 1]);
    }
  }

  // ---------------------------------------------------------------- what follows for the frames

  /** The last mark after `i` frames, if there is one. */
  lemma {:induction false} MarkAtIs(marks: seq<Mark>, i: nat) returns (j: nat)
    ensures MarkAt(marks, i).None? ==> forall k | 0 <= k < |marks| :: marks[k].after != i
    ensures MarkAt(marks, i).Some? ==> j < |marks| && marks[j] == Mark(i, MarkAt(marks, i).value)
    ensures forall k | j < k < |marks| :: marks[k].after != i
  {
    j := 0;
    if marks != [] {
      var n := |marks| - 1;
      if marks[n].after == i {
        j := n;
      } else {
        j := MarkAtIs(marks[..n], i);
        assert forall k | 0 <= k < n :: marks[..n][k] == marks[k];
      }
    }
  }

  function Next(c: Cursor): Cursor {
    Cursor(c.streamId, c.sequence + 1)
  }

  lemma PastIsPast(w: World, a: Cursor, b: Cursor, c: Cursor)
    requires NotAfter(w, a, b) && b != a && NotAfter(w, b, c)
    ensures c != a
  {
  }

  /** The client started anew after frame `i - 1`, at another place than `last`. */
  predicate StartedElsewhere(marks: seq<Mark>, i: nat, last: Cursor) {
    exists j | 0 <= j < |marks| :: marks[j].after == i && marks[j].cursor != last
  }

  /** A notification skips something exactly when some mark just before it is not at the frame before. */
  lemma SkipsAtMarks(w: World, c: Client, i: nat)
    requires Linked(w, c) && 0 < i < |c.received| && c.received[i].Notification?
    ensures c.received[i].cursor != Next(c.received[i - 1].cursor)
      <==> StartedElsewhere(c.reader.marks, i, c.received[i - 1].cursor)
  {
    hide MarkAt, Genuine, NotAfter;
    var marks, last := c.reader.marks, c.received[i - 1].cursor;
    assert LinkOk(w, c, i);
    var j := MarkAtIs(marks, i);
    if MarkAt(marks, i).None? {
      assert c.received[i].cursor == Next(last);
      return;
    }
    var m := MarkAt(marks, i).value;
    assert c.received[i].cursor == Next(m);
    hide LinkOk, Prev, Follows;
    assert NotAfter(w, last, m);
    if StartedElsewhere(marks, i, last) {
      var k :| 0 <= k < |marks| && marks[k].after == i && marks[k].cursor != last;
      assert NotAfter(w, last, marks[k].cursor);
      if k < j {
        assert NotAfter(w, marks[k].cursor, marks[j].cursor);
        PastIsPast(w, last, marks[k].cursor, m);
      }
    }
  }

  /** For every client, strict or not: what it receives is genuine and never repeats. */
  lemma {:induction false} NothingTwice(streamId: string, readers: seq<bool>, actions: seq<Action>, c: nat)
    requires c < |readers|
    ensures var w := Run(Init(streamId, readers), actions);
      c < |w.clients|
      && var got := w.clients[c].received;
      && (forall i | 0 <= i < |got| :: Genuine(w, got[i]))
      && (forall i, j | 0 <= i < j < |got| :: got[i].cursor != got[j].cursor)
  {
    hide Run, Init;
    var w := Run(Init(streamId, readers), actions);
    Reachable(streamId, readers, actions);
    RunLinks(streamId, readers, actions);
    var client := w.clients[c];
    assert Linked(w, client);
    forall i | 0 <= i < |client.received| ensures Genuine(w, client.received[i]) {
      assert LinkOk(w, client, i);
    }
    forall i, j | 0 <= i < j < |client.received| ensures client.received[i].cursor != client.received[j].cursor {
      Increasing(w, client, i, j);
    }
  }

  lemma {:induction false} Increasing(w: World, c: Client, i: nat, j: nat)
    requires Linked(w, c) && i < j < |c.received|
    ensures Before(w, c.received[i].cursor, c.received[j].cursor)
    decreases j
  {
    assert LinkOk(w, c, j);
    var m := MarkAtIs(c.reader.marks, j);
    assert Before(w, c.received[j - 1].cursor, c.received[j].cursor) by { hide MarkAt, Genuine; }
    if i < j - 1 {
      Increasing(w, c, i, j - 1);
    }
    hide Linked, LinkOk, MarkAt, Genuine;
  }
}
