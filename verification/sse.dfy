/** Server-sent events: the frames the connector writes and the algorithm that reads them
    (WHATWG HTML Living Standard, sections 9.2.5 and 9.2.6). */
module Sse {
  // ---------------------------------------------------------------- writing

  /** One write to the socket. */
  datatype Chunk = Frame(event: string, id: string, data: string) | KeepAlive

  function Bytes(c: Chunk): string {
    match c
    case Frame(event, id, data) => "event: " + event + "\nid: " + id + "\ndata: " + data + "\n\n"
    case KeepAlive => ": keepalive\n\n"
  }

  function Wire(chunks: seq<Chunk>): string {
    if chunks == [] then "" else Bytes(chunks[0]) + Wire(chunks[1..])
  }

  predicate IsEol(c: char) {
    c == '\n' || c == '\r'
  }

  predicate OneLine(s: string) {
    forall i | 0 <= i < |s| :: !IsEol(s[i])
  }

  /** The frames the connector writes: single-line fields, a named event, and JSON text, which is never empty. */
  predicate Writable(c: Chunk) {
    c.Frame? ==>
      && OneLine(c.event) && OneLine(c.id) && OneLine(c.data)
      && c.event != "" && c.data != "" && '\0' !in c.id
  }

  predicate AllWritable(chunks: seq<Chunk>) {
    forall c | c in chunks :: Writable(c)
  }

  // ---------------------------------------------------------------- reading

  /** What the reader dispatches. */
  datatype Message = Message(event: string, id: string, data: string)

  /** The reader's buffers, its last event ID string, and everything dispatched so far. */
  datatype Reader = Reader(data: string, event: string, id: string, lastId: string, out: seq<Message>)

  /** A reader at the start of a connection: its buffers are empty, its last event ID string is what
      earlier connections left. */
  function Opened(lastId: string): Reader {
    Reader("", "", "", lastId, [])
  }

  /** The complete lines of a text, ended by CRLF, LF or CR; an unended last line is not one. */
  function Lines(s: string): seq<string> {
    LinesFrom(s, 0)
  }

  function LinesFrom(s: string, scanned: nat): seq<string>
    requires scanned <= |s|
    decreases |s|, |s| - scanned
  {
    if scanned == |s| then []
    else if !IsEol(s[scanned]) then LinesFrom(s, scanned + 1)
    else
      var next := if s[scanned] == '\r' && scanned + 1 < |s| && s[scanned + 1] == '\n'
                  then scanned + 2 else scanned + 1;
      [s[..scanned]] + LinesFrom(s[next..], 0)
  }

  function FirstColon(line: string, from: nat := 0): nat
    requires from <= |line|
    ensures from <= FirstColon(line, from) <= |line|
    decreases |line| - from
  {
    if from == |line| || line[from] == ':' then from else FirstColon(line, from + 1)
  }

  function ReadLine(r: Reader, line: string): Reader {
    if line == "" then Dispatch(r)
    else if line[0] == ':' then r
    else
      var colon := FirstColon(line);
      if colon == |line| then ReadField(r, line, "")
      else
        var value := line[colon + 1..];
        ReadField(r, line[..colon], if value != "" && value[0] == ' ' then value[1..] else value)
  }

  function ReadField(r: Reader, field: string, value: string): Reader {
    if field == "event" then r.(event := value)
    else if field == "data" then r.(data := r.data + value + "\n")
    else if field == "id" then (if '\0' in value then r else r.(id := value))
    else r
  }

  function Dispatch(r: Reader): Reader {
    if r.data == "" then r.(lastId := r.id, event := "")
    else
      var data := if r.data[|r.data| - 1] == '\n' then r.data[..|r.data| - 1] else r.data;
      var message := Message(if r.event == "" then "message" else r.event, r.id, data);
      Reader("", "", r.id, r.id, r.out + [message])
  }

  function ReadLines(r: Reader, lines: seq<string>): Reader
    decreases lines
  {
    if lines == [] then r else ReadLines(ReadLine(r, lines[0]), lines[1..])
  }

  /** The reader's state after a connection delivered `text` and ended. */
  function Read(lastId: string, text: string): Reader {
    ReadLines(Opened(lastId), Lines(text))
  }

  // ---------------------------------------------------------------- what the reader must see

  function Messages(chunks: seq<Chunk>): seq<Message> {
    if chunks == [] then []
    else (match chunks[0]
          case Frame(event, id, data) => [Message(event, id, data)]
          case KeepAlive => []) + Messages(chunks[1..])
  }

  /** How many chunks lie wholly within the first `cut` characters of the wire. */
  function Whole(chunks: seq<Chunk>, cut: nat): (n: nat)
    ensures n <= |chunks|
  {
    if chunks == [] || cut < |Bytes(chunks[0])| then 0
    else 1 + Whole(chunks[1..], cut - |Bytes(chunks[0])|)
  }

  /** The last event ID string a connection leaves: that of the last message; with no message, the old
      one if nothing arrived whole, and the empty string once a keepalive's blank line has been read. */
  function LeftId(lastId: string, messages: seq<Message>, whole: nat, buffered: string): string {
    if whole == 0 then lastId
    else if messages == [] then buffered
    else messages[|messages| - 1].id
  }

  // ---------------------------------------------------------------- lines of a prefix

  /** The text of a list of lines. */
  function Joined(lines: seq<string>): string {
    if lines == [] then "" else lines[0] + "\n" + Joined(lines[1..])
  }

  function WholeLines(lines: seq<string>, cut: nat): (n: nat)
    ensures n <= |lines|
  {
    if lines == [] || cut <= |lines[0]| then 0 else 1 + WholeLines(lines[1..], cut - |lines[0]| - 1)
  }

  lemma {:induction false} ScanLine(line: string, rest: string, scanned: nat)
    requires OneLine(line) && scanned <= |line|
    ensures LinesFrom(line + "\n" + rest, scanned) == [line] + Lines(rest)
    decreases |line| - scanned
  {
    var s := line + "\n" + rest;
    if scanned < |line| {
      assert s[scanned] == line[scanned];
      ScanLine(line, rest, scanned + 1);
    } else {
      assert s[..scanned] == line && s[scanned + 1..] == rest;
    }
  }

  lemma {:induction false} ScanUnended(s: string, scanned: nat)
    requires OneLine(s) && scanned <= |s|
    ensures LinesFrom(s, scanned) == []
    decreases |s| - scanned
  {
    if scanned < |s| {
      ScanUnended(s, scanned + 1);
    }
  }

  lemma {:induction false} LinesOfPrefix(lines: seq<string>, cut: nat)
    requires forall l | l in lines :: OneLine(l)
    requires cut <= |Joined(lines)|
    ensures Lines(Joined(lines)[..cut]) == lines[..WholeLines(lines, cut)]
  {
    if lines == [] {
    } else if cut <= |lines[0]| {
      assert lines[0] in lines;
      assert Joined(lines)[..cut] == lines[0][..cut];
      ScanUnended(lines[0][..cut], 0);
    } else {
      var rest := cut - |lines[0]| - 1;
      assert Joined(lines)[..cut] == lines[0] + "\n" + Joined(lines[1..])[..rest];
      ScanLine(lines[0], Joined(lines[1..])[..rest], 0);
      LinesOfPrefix(lines[1..], rest);
      assert lines[..WholeLines(lines, cut)] == [lines[0]] + lines[1..][..WholeLines(lines[1..], rest)];
    }
  }

  lemma {:induction false} JoinedConcat(a: seq<string>, b: seq<string>)
    ensures Joined(a + b) == Joined(a) + Joined(b)
  {
    if a == [] {
      assert a + b == b;
    } else {
      assert (a + b)[1..] == a[1..] + b;
      JoinedConcat(a[1..], b);
    }
  }

  lemma {:induction false} ReadConcat(r: Reader, a: seq<string>, b: seq<string>)
    ensures ReadLines(r, a + b) == ReadLines(ReadLines(r, a), b)
    decreases a
  {
    if a == [] {
      assert a + b == b;
    } else {
      assert (a + b)[1..] == a[1..] + b;
      ReadConcat(ReadLine(r, a[0]), a[1..], b);
    }
  }

  lemma {:induction false} WholeLinesConcat(a: seq<string>, b: seq<string>, cut: nat)
    ensures cut < |Joined(a)| ==> WholeLines(a + b, cut) == WholeLines(a, cut) < |a|
    ensures cut >= |Joined(a)| ==> WholeLines(a + b, cut) == |a| + WholeLines(b, cut - |Joined(a)|)
  {
    if a == [] {
      assert a + b == b;
    } else {
      assert (a + b)[1..] == a[1..] + b;
      if cut > |a[0]| {
        WholeLinesConcat(a[1..], b, cut - |a[0]| - 1);
      }
    }
  }

  // ---------------------------------------------------------------- groups of lines that deliver one chunk

  /** Between chunks the reader's data and event buffers are empty. */
  predicate Idle(r: Reader) {
    r.data == "" && r.event == ""
  }

  /** Read from an idle reader, some of the lines leave the output and the last event ID alone;
      all of them deliver the chunk. */
  predicate DeliversFrom(r: Reader, lines: seq<string>, c: Chunk, n: nat)
    requires n <= |lines|
  {
    var after := ReadLines(r, lines[..n]);
    if n < |lines| then after.out == r.out && after.lastId == r.lastId
    else Idle(after) && after.out == r.out + Messages([c])
         && after.id == after.lastId == (if c.Frame? then c.id else r.id)
  }

  ghost predicate Delivers(lines: seq<string>, c: Chunk) {
    forall r: Reader, n: nat | Idle(r) && n <= |lines| :: DeliversFrom(r, lines, c, n)
  }

  function Flatten(groups: seq<seq<string>>): seq<string> {
    if groups == [] then [] else groups[0] + Flatten(groups[1..])
  }

  function WholeGroups(groups: seq<seq<string>>, cut: nat): (n: nat)
    ensures n <= |groups|
  {
    if groups == [] || cut < |Joined(groups[0])| then 0
    else 1 + WholeGroups(groups[1..], cut - |Joined(groups[0])|)
  }

  /** The reader's state once `cut` characters of the groups' text have arrived. */
  function ReadCut(r: Reader, lines: seq<string>, cut: nat): Reader {
    ReadLines(r, lines[..WholeLines(lines, cut)])
  }

  lemma ReadCutFront(r: Reader, a: seq<string>, b: seq<string>, cut: nat)
    requires cut < |Joined(a)|
    ensures WholeLines(a, cut) < |a| && ReadCut(r, a + b, cut) == ReadLines(r, a[..WholeLines(a, cut)])
  {
    hide Joined, WholeLines, ReadLines;
    WholeLinesConcat(a, b, cut);
    var n := WholeLines(a, cut);
    assert (a + b)[..n] == a[..n];
  }

  lemma ReadCutBack(r: Reader, a: seq<string>, b: seq<string>, cut: nat)
    requires cut >= |Joined(a)|
    ensures ReadCut(r, a + b, cut) == ReadCut(ReadLines(r, a), b, cut - |Joined(a)|)
  {
    hide Joined, WholeLines, ReadLines;
    WholeLinesConcat(a, b, cut);
    var m := WholeLines(b, cut - |Joined(a)|);
    assert (a + b)[..|a| + m] == a + b[..m];
    ReadConcat(r, a, b[..m]);
  }

  lemma {:induction false} ReadGroups(r: Reader, groups: seq<seq<string>>, chunks: seq<Chunk>, cut: nat)
    requires |groups| == |chunks| && Idle(r)
    requires forall i | 0 <= i < |groups| :: Delivers(groups[i], chunks[i])
    ensures var whole := WholeGroups(groups, cut);
      var seen := Messages(chunks[..whole]);
      && ReadCut(r, Flatten(groups), cut).out == r.out + seen
      && ReadCut(r, Flatten(groups), cut).lastId == LeftId(r.lastId, seen, whole, r.id)
    decreases groups
  {
    if groups == [] {
      assert r.out + Messages([]) == r.out;
    } else {
      hide Joined, WholeLines, ReadLines;
      var a, rest := groups[0], groups[1..];
      if cut < |Joined(a)| {
        ReadCutFront(r, a, Flatten(rest), cut);
        assert DeliversFrom(r, a, chunks[0], WholeLines(a, cut));
        assert r.out + Messages(chunks[..0]) == r.out;
      } else {
        ReadCutBack(r, a, Flatten(rest), cut);
        assert a[..|a|] == a && DeliversFrom(r, a, chunks[0], |a|);
        var left := cut - |Joined(a)|;
        ReadGroups(ReadLines(r, a), rest, chunks[1..], left);
        MessagesOfMore(r, ReadLines(r, a), chunks, WholeGroups(rest, left));
      }
    }
  }

  lemma MessagesOfMore(before: Reader, after: Reader, chunks: seq<Chunk>, n: nat)
    requires n < |chunks| && after.out == before.out + Messages([chunks[0]])
    requires after.id == after.lastId == (if chunks[0].Frame? then chunks[0].id else before.id)
    ensures var seen, later := Messages(chunks[..1 + n]), Messages(chunks[1..][..n]);
      && after.out + later == before.out + seen
      && LeftId(after.lastId, later, n, after.id) == LeftId(before.lastId, seen, 1 + n, before.id)
  {
    assert chunks[..1 + n][1..] == chunks[1..][..n];
    var first, later := Messages([chunks[0]]), Messages(chunks[1..][..n]);
    assert (before.out + first) + later == before.out + (first + later);
    assert n == 0 ==> later == [];
  }

  // ---------------------------------------------------------------- the lines of a chunk

  function LinesOf(c: Chunk): seq<string> {
    match c
    case Frame(event, id, data) => ["event: " + event, "id: " + id, "data: " + data, ""]
    case KeepAlive => [": keepalive", ""]
  }

  lemma ChunkText(c: Chunk)
    ensures Joined(LinesOf(c)) == Bytes(c)
  {
    var lines := LinesOf(c);
    assert Joined(lines) == lines[0] + "\n" + Joined(lines[1..]);
    assert Joined(lines[1..]) == lines[1] + "\n" + Joined(lines[2..]);
    if c.Frame? {
      assert Joined(lines[2..]) == lines[2] + "\n" + Joined(lines[3..]);
      assert Joined(lines[3..]) == "" + "\n" + Joined(lines[4..]);
    }
  }

  lemma LinesAreOneLine(c: Chunk)
    requires Writable(c)
    ensures forall l | l in LinesOf(c) :: OneLine(l)
  {
    assert OneLine("event: ") && OneLine("id: ") && OneLine("data: ") && OneLine(": keepalive");
  }

  lemma {:induction false} FirstColonAfter(name: string, rest: string, from: nat)
    requires ':' !in name && from <= |name|
    ensures FirstColon(name + ":" + rest, from) == |name|
    decreases |name| - from
  {
    if from < |name| {
      assert (name + ":" + rest)[from] == name[from];
      FirstColonAfter(name, rest, from + 1);
    }
  }

  lemma ReadNamed(r: Reader, name: string, value: string)
    requires name != "" && ':' !in name
    ensures ReadLine(r, name + ": " + value) == ReadField(r, name, value)
  {
    var line := name + ": " + value;
    FirstColonAfter(name, " " + value, 0);
    assert line == name + ":" + (" " + value);
    assert line[0] == name[0];
    assert line[..|name|] == name && line[|name| + 1..] == " " + value;
    assert (" " + value)[1..] == value;
  }

  lemma ReadFrame(r: Reader, c: Chunk)
    requires c.Frame? && Writable(c) && Idle(r)
    ensures ReadLine(r, LinesOf(c)[0]) == r.(event := c.event)
    ensures ReadLine(r.(event := c.event), LinesOf(c)[1]) == r.(event := c.event, id := c.id)
    ensures ReadLine(r.(event := c.event, id := c.id), LinesOf(c)[2])
         == r.(event := c.event, id := c.id, data := c.data + "\n")
    ensures ReadLine(r.(event := c.event, id := c.id, data := c.data + "\n"), LinesOf(c)[3])
         == Reader("", "", c.id, c.id, r.out + [Message(c.event, c.id, c.data)])
  {
    assert "event" + ": " == "event: " && "id" + ": " == "id: " && "data" + ": " == "data: ";
    ReadNamed(r, "event", c.event);
    ReadNamed(r.(event := c.event), "id", c.id);
    ReadNamed(r.(event := c.event, id := c.id), "data", c.data);
    assert r.data + c.data + "\n" == c.data + "\n";
    assert (c.data + "\n")[..|c.data|] == c.data;
  }

  /** Four unfoldings of `ReadLines`. */
  lemma Unroll(r: Reader, lines: seq<string>)
    requires |lines| <= 4
    ensures |lines| == 0 ==> ReadLines(r, lines) == r
    ensures |lines| == 1 ==> ReadLines(r, lines) == ReadLine(r, lines[0])
    ensures |lines| == 2 ==> ReadLines(r, lines) == ReadLine(ReadLine(r, lines[0]), lines[1])
    ensures |lines| == 3 ==>
      ReadLines(r, lines) == ReadLine(ReadLine(ReadLine(r, lines[0]), lines[1]), lines[2])
    ensures |lines| == 4 ==>
      ReadLines(r, lines) == ReadLine(ReadLine(ReadLine(ReadLine(r, lines[0]), lines[1]), lines[2]), lines[3])
    decreases lines
  {
    if |lines| > 0 {
      Unroll(ReadLine(r, lines[0]), lines[1..]);
    }
  }

  lemma ChunkDelivers(c: Chunk)
    requires Writable(c)
    ensures Delivers(LinesOf(c), c)
  {
    forall r: Reader, n: nat | Idle(r) && n <= |LinesOf(c)| ensures DeliversFrom(r, LinesOf(c), c, n) {
      Unroll(r, LinesOf(c)[..n]);
      if c.Frame? {
        ReadFrame(r, c);
        assert Messages([c]) == [Message(c.event, c.id, c.data)];
      } else {
        assert ReadLine(r, ": keepalive") == r;
      }
    }
  }

  function Groups(chunks: seq<Chunk>): (groups: seq<seq<string>>)
    ensures |groups| == |chunks|
    ensures forall i | 0 <= i < |chunks| :: groups[i] == LinesOf(chunks[i])
  {
    if chunks == [] then [] else [LinesOf(chunks[0])] + Groups(chunks[1..])
  }

  lemma {:induction false} WireText(chunks: seq<Chunk>, cut: nat)
    requires AllWritable(chunks)
    ensures Joined(Flatten(Groups(chunks))) == Wire(chunks)
    ensures WholeGroups(Groups(chunks), cut) == Whole(chunks, cut)
    ensures forall l | l in Flatten(Groups(chunks)) :: OneLine(l)
  {
    if chunks != [] {
      ChunkText(chunks[0]);
      LinesAreOneLine(chunks[0]);
      JoinedConcat(LinesOf(chunks[0]), Flatten(Groups(chunks[1..])));
      WireText(chunks[1..], if cut < |Bytes(chunks[0])| then 0 else cut - |Bytes(chunks[0])|);
    }
  }

  // ---------------------------------------------------------------- main results

  /** Wherever the connection is cut, the client has dispatched exactly the frames that fitted whole,
      in order and unchanged, and the last event ID it is left with is determined by them. */
  lemma {:induction false} CutStreamDeliversWholeFrames(lastId: string, chunks: seq<Chunk>, cut: nat)
    requires AllWritable(chunks) && cut <= |Wire(chunks)|
    ensures var whole := Whole(chunks, cut);
      var after := Read(lastId, Wire(chunks)[..cut]);
      && after.out == Messages(chunks[..whole])
      && after.lastId == LeftId(lastId, after.out, whole, "")
  {
    WireText(chunks, cut);
    LinesOfPrefix(Flatten(Groups(chunks)), cut);
    forall i | 0 <= i < |chunks| ensures Delivers(Groups(chunks)[i], chunks[i]) {
      ChunkDelivers(chunks[i]);
    }
    ReadGroups(Opened(lastId), Groups(chunks), chunks, cut);
  }

  /** The client still holds the cursor of its last frame unless the connection carried
      keepalive comments and no frame: the comment's blank line commits an empty ID buffer. */
  lemma {:induction false} CursorSurvivesUnlessOnlyKeepalives(lastId: string, chunks: seq<Chunk>, cut: nat)
    requires AllWritable(chunks) && cut <= |Wire(chunks)| && lastId != ""
    ensures var whole := Whole(chunks, cut);
      var kept := Read(lastId, Wire(chunks)[..cut]).lastId;
      var seen := Messages(chunks[..whole]);
      kept == (if seen == [] then lastId else seen[|seen| - 1].id) <==> (seen != [] || whole == 0)
  {
    CutStreamDeliversWholeFrames(lastId, chunks, cut);
  }

  /** The lost case is real: one keepalive comment, and the id it came with is gone. */
  lemma AKeepaliveAloneLosesTheCursor()
    ensures Read("s:1", Wire([KeepAlive])).lastId == ""
  {
    var chunks := [KeepAlive];
    WholeWire(chunks);
    CutStreamDeliversWholeFrames("s:1", chunks, |Wire(chunks)|);
    assert Wire(chunks)[..|Wire(chunks)|] == Wire(chunks) && chunks[..1] == chunks;
  }

  lemma {:induction false} WholeWire(chunks: seq<Chunk>)
    ensures Whole(chunks, |Wire(chunks)|) == |chunks|
  {
    if chunks != [] {
      WholeWire(chunks[1..]);
    }
  }

  /** An uncut stream is read back exactly; keepalive comments leave no message. */
  lemma {:induction false} StreamReadsBack(lastId: string, chunks: seq<Chunk>)
    requires AllWritable(chunks)
    ensures Read(lastId, Wire(chunks)).out == Messages(chunks)
  {
    WholeWire(chunks);
    CutStreamDeliversWholeFrames(lastId, chunks, |Wire(chunks)|);
    assert Wire(chunks)[..|Wire(chunks)|] == Wire(chunks) && chunks[..|chunks|] == chunks;
  }
}
