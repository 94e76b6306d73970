/** The frames `serve` writes, and what they become at the client: `src/notification_stream.rs`. */
module NotificationStreams {
  import opened Json
  import opened Cursors
  import opened EventStores
  import opened Sse
  import opened Streams

  /** What one `recv_timeout` on the live channel returned. */
  datatype Live = Received(event: Event) | Timeout | Disconnected

  /** What goes on the wire for a frame: its kind, the text of its cursor, and its data as `json` writes them. */
  predicate Says(event: string, id: string, data: string, f: Streams.Frame, json: Value -> string) {
    && id == Encode(f.cursor)
    && match f
       case Notification(_, e) =>
         && event == "notification"
         && data == json(Obj(map["sequence" := Num(Int(e.sequence)), "receivedAt" := Str(e.notice.receivedAt),
                                 "method" := Str(e.notice.name), "params" := e.notice.params]))
       case Resync(cursor) =>
         && event == "resync"
         && data == json(Obj(map["streamId" := Str(cursor.streamId), "latestSequence" := Num(Int(cursor.sequence))]))
  }

  /** `payload`. */
  function Payload(e: Event): Value {
    Obj(map["sequence" := Num(Int(e.sequence)), "receivedAt" := Str(e.notice.receivedAt),
            "method" := Str(e.notice.name), "params" := e.notice.params])
  }

  /** Text `serde_json` can have produced, as far as framing goes: not empty, no raw line break. */
  predicate JsonText(data: string) {
    data != "" && OneLine(data)
  }

  /** The chunks are these frames in this order, with keepalive comments anywhere between them. */
  predicate Written(chunks: seq<Chunk>, frames: seq<Streams.Frame>, json: Value -> string) {
    if chunks == [] then frames == []
    else match chunks[0]
    case KeepAlive => Written(chunks[1..], frames, json)
    case Frame(event, id, data) =>
      && frames != [] && Says(event, id, data, frames[0], json) && JsonText(data)
      && Written(chunks[1..], frames[1..], json)
  }

  /** The events that arrived before the channel was disconnected. */
  function Arrived(live: seq<Live>): seq<Event> {
    if live == [] || live[0].Disconnected? then []
    else if live[0].Timeout? then Arrived(live[1..])
    else [live[0].event] + Arrived(live[1..])
  }

  /** All that `serve` owes its client. */
  function Owed(streamId: string, subscription: Subscription, live: seq<Live>): seq<Streams.Frame> {
    (if subscription.resync.Some? then [Resync(subscription.resync.value)] else [])
    + Entries(streamId, subscription.backlog + Arrived(live))
  }

  lemma {:induction false} WrittenConcat(
    a: seq<Chunk>, f: seq<Streams.Frame>, b: seq<Chunk>, g: seq<Streams.Frame>, json: Value -> string)
    requires Written(a, f, json) && Written(b, g, json)
    ensures Written(a + b, f + g, json)
    decreases a
  {
    hide Says;
    if a == [] {
      assert a + b == b && f + g == g;
    } else {
      assert (a + b)[1..] == a[1..] + b;
      if a[0].KeepAlive? {
        WrittenConcat(a[1..], f, b, g, json);
      } else {
        WrittenConcat(a[1..], f[1..], b, g, json);
        assert (f + g)[1..] == f[1..] + g;
      }
    }
  }

  /** `write_event`, for the frame `f`. */
  method WriteEvent(before: seq<Chunk>, event: string, id: string, data: Value, json: Value -> string,
                    ghost f: Streams.Frame, ghost sent: seq<Streams.Frame>)
    returns (written: seq<Chunk>)
    requires Written(before, sent, json) && JsonText(json(data)) && Says(event, id, json(data), f, json)
    ensures Written(written, sent + [f], json)
    ensures written == before + [Chunk.Frame(event, id, json(data))]
  {
    var chunk := Chunk.Frame(event, id, json(data));
    assert Written([], [], json) && [chunk][1..] == [] && [f][1..] == [];
    assert Written([chunk], [f], json);
    WrittenConcat(before, sent, [chunk], [f], json);
    written := before + [chunk];
  }

  /** `write_entry`. */
  method WriteEntry(before: seq<Chunk>, cursor: Cursor, data: Value, json: Value -> string,
                    ghost e: Event, ghost sent: seq<Streams.Frame>)
    returns (written: seq<Chunk>)
    requires Written(before, sent, json) && JsonText(json(data)) && data == Payload(e)
    ensures Written(written, sent + [Notification(cursor, e)], json)
  {
    written := WriteEvent(before, "notification", Encode(cursor), data, json, Notification(cursor, e), sent);
  }

  lemma Advance(sent: seq<Streams.Frame>, f: Streams.Frame, rest: seq<Streams.Frame>, owed: seq<Streams.Frame>)
    requires sent + ([f] + rest) == owed
    ensures (sent + [f]) + rest == owed
  {
  }

  /** `serve`, while the socket accepts its writes: the resync, the backlog, then the live channel until
      it is disconnected (or `live` ends). */
  method Serve(streamId: string, subscription: Subscription, live: seq<Live>, json: Value -> string)
    returns (written: seq<Chunk>)
    requires forall v :: JsonText(json(v))
    ensures Written(written, Owed(streamId, subscription, live), json)
  {
    hide Payload;
    written := [];
    ghost var sent := [];
    if subscription.resync.Some? {
      var cursor := subscription.resync.value;
      var data := Obj(map["streamId" := Str(cursor.streamId), "latestSequence" := Num(Int(cursor.sequence))]);
      written := WriteEvent(written, "resync", Encode(cursor), data, json, Resync(cursor), sent);
      sent := [Resync(cursor)];
    }
    hide Says;
    written := ServeBacklog(streamId, subscription.backlog, json, written, sent);
    sent := sent + Entries(streamId, subscription.backlog);
    EntriesConcat(streamId, subscription.backlog, Arrived(live));
    ghost var first := if subscription.resync.Some? then [Resync(subscription.resync.value)] else [];
    assert (first + Entries(streamId, subscription.backlog)) + Entries(streamId, Arrived(live))
        == Owed(streamId, subscription, live);
    written := ServeLive(streamId, live, json, written, sent, Owed(streamId, subscription, live));
  }

  method ServeBacklog(streamId: string, backlog: seq<Event>, json: Value -> string, before: seq<Chunk>,
                      ghost done: seq<Streams.Frame>)
    returns (written: seq<Chunk>)
    requires (forall v :: JsonText(json(v))) && Written(before, done, json)
    ensures Written(written, done + Entries(streamId, backlog), json)
  {
    hide Payload, Written;
    written := before;
    ghost var sent := done;
    for i := 0 to |backlog|
      invariant Written(written, sent, json)
      invariant sent + Entries(streamId, backlog[i..]) == done + Entries(streamId, backlog)
    {
      var e := backlog[i];
      assert backlog[i..][1..] == backlog[i + 1..];
      Advance(sent, Entry(streamId, e), Entries(streamId, backlog[i + 1..]), done + Entries(streamId, backlog));
      written := WriteEntry(written, Cursor(streamId, e.sequence), Payload(e), json, e, sent);
      sent := sent + [Entry(streamId, e)];
    }
    assert sent + Entries(streamId, []) == sent;
  }

  /** The loop over the live channel; a keepalive comment is written on each timeout. */
  method ServeLive(streamId: string, live: seq<Live>, json: Value -> string, before: seq<Chunk>,
                   ghost done: seq<Streams.Frame>, ghost owed: seq<Streams.Frame>)
    returns (written: seq<Chunk>)
    requires forall v :: JsonText(json(v))
    requires Written(before, done, json) && done + Entries(streamId, Arrived(live)) == owed
    ensures Written(written, owed, json)
  {
    hide Payload;
    written := before;
    ghost var sent := done;
    var k := 0;
    while k < |live| && !live[k].Disconnected?
      invariant k <= |live| && Written(written, sent, json)
      invariant sent + Entries(streamId, Arrived(live[k..])) == owed
    {
      if live[k].Timeout? {
        assert Written([KeepAlive], [], json);
        WrittenConcat(written, sent, [KeepAlive], [], json);
        assert sent + [] == sent;
        written := written + [KeepAlive];
      } else {
        var e := live[k].event;
        Advance(sent, Entry(streamId, e), Entries(streamId, Arrived(live[k + 1..])), owed);
        written := WriteEntry(written, Cursor(streamId, e.sequence), Payload(e), json, e, sent);
        sent := sent + [Entry(streamId, e)];
      }
      k := k + 1;
    }
    assert Arrived(live[k..]) == [] && sent + [] == sent;
  }

  // ---------------------------------------------------------------- at the client

  /** The messages are the first of the frames: same kind, same id, same data. */
  predicate Matches(seen: seq<Message>, frames: seq<Streams.Frame>, json: Value -> string) {
    && |seen| <= |frames|
    && forall k | 0 <= k < |seen| :: Says(seen[k].event, seen[k].id, seen[k].data, frames[k], json)
  }

  lemma {:induction false} WrittenPrefix(
    chunks: seq<Chunk>, frames: seq<Streams.Frame>, n: nat, json: Value -> string)
    requires Written(chunks, frames, json) && n <= |chunks|
    requires forall f | f in frames :: Valid(f.cursor)
    ensures AllWritable(chunks)
    ensures Matches(Messages(chunks[..n]), frames, json)
    decreases chunks
  {
    hide Says, OneLine, JsonText, Valid;
    if chunks != [] {
      var rest := if n == 0 then 0 else n - 1;
      if chunks[0].KeepAlive? {
        WrittenPrefix(chunks[1..], frames, rest, json);
      } else {
        WrittenPrefix(chunks[1..], frames[1..], rest, json);
        FrameWritable(chunks[0].event, chunks[0].id, chunks[0].data, frames[0], json);
      }
      if n > 0 {
        assert chunks[..n][1..] == chunks[1..][..rest];
      }
    }
  }

  lemma FrameWritable(event: string, id: string, data: string, f: Streams.Frame, json: Value -> string)
    requires Says(event, id, data, f, json) && Valid(f.cursor) && JsonText(data)
    ensures Writable(Chunk.Frame(event, id, data))
  {
    Text.DecimalReadsBack(f.cursor.sequence);
    forall i | 0 <= i < |Encode(f.cursor)| ensures !Text.IsControl(Encode(f.cursor)[i]) {
    }
  }

  /** Wherever the connection is cut, the client has dispatched a prefix of the frames, kind, id and data intact,
      and the Last-Event-ID it will reconnect with is read back as the cursor of the last of them; a connection that
      brought keepalives and no frame leaves it none, and one that brought nothing whole leaves it its own. */
  lemma CutClientResumesAfterLastFrame(
    lastId: string, chunks: seq<Chunk>, frames: seq<Streams.Frame>, cut: nat, json: Value -> string)
    requires Written(chunks, frames, json) && cut <= |Wire(chunks)|
    requires forall f | f in frames :: Valid(f.cursor)
    ensures var client := Read(lastId, Wire(chunks)[..cut]);
      && Matches(client.out, frames, json)
      && (client.out != [] ==> Parse(client.lastId) == Some(frames[|client.out| - 1].cursor))
      && (client.out == [] ==> client.lastId == if Whole(chunks, cut) == 0 then lastId else "")
  {
    WrittenPrefix(chunks, frames, Whole(chunks, cut), json);
    CutStreamDeliversWholeFrames(lastId, chunks, cut);
    ResumePoint(lastId, Read(lastId, Wire(chunks)[..cut]), Whole(chunks, cut), frames, json);
  }

  lemma ResumePoint(lastId: string, client: Reader, whole: nat, frames: seq<Streams.Frame>,
                    json: Value -> string)
    requires Matches(client.out, frames, json) && (client.out != [] ==> whole > 0)
    requires client.lastId == LeftId(lastId, client.out, whole, "")
    requires forall f | f in frames :: Valid(f.cursor)
    ensures client.out != [] ==> Parse(client.lastId) == Some(frames[|client.out| - 1].cursor)
  {
    if client.out != [] {
      EncodeThenParse(frames[|client.out| - 1].cursor);
    }
  }
}
