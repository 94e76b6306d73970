/** Listing threads page by page until a limit is met: `request_unique_threads` of `src/invoke.rs`. */
module Pages {
  import opened Json
  import opened Threads
  import opened ThreadIdentity
  import Text

  const MAX_THREAD_LIST_PAGES: nat := 100

  /** The app-server's side of one listing: what it answers to the i-th request. */
  type Server = (nat, Fields) -> Result<Value, string>

  function CursorOf(params: Fields): Value {
    Obj(params).GetOrNull("cursor")
  }

  function Clamp(n: nat, low: nat, high: nat): nat {
    if n < low then low else if n > high then high else n
  }

  function RequestedLimit(params: Fields): Option<nat> {
    match Obj(params).GetOrNull("limit").AsU64()
    case Some(n) => Some(Clamp(n, 1, 100))
    case None => None
  }

  /** The caller's limit counts when it is an unsigned integer, and then as one from 1 to 100. */
  lemma LimitIs(params: Fields)
    ensures RequestedLimit(params).Some? <==>
      "limit" in params && params["limit"].Num? && params["limit"].n.Int?
      && 0 <= params["limit"].n.i < 18446744073709551616
    ensures RequestedLimit(params).Some? ==>
      var n, limit := params["limit"].n.i, RequestedLimit(params).value;
      1 <= limit <= 100 && (1 <= n <= 100 ==> limit == n) && (n < 1 ==> limit == 1) && (n > 100 ==> limit == 100)
  {
  }

  function Normalized(items: seq<Value>): (r: seq<Value>)
    ensures |r| == |items|
  {
    seq(|items|, i requires 0 <= i < |items| => NormalizeItem(items[i]))
  }

  function PageThreads(page: Value): seq<Value> {
    match page.Get("data")
    case Some(Arr(items)) => Normalized(items)
    case _ => []
  }

  // ---------------------------------------------------------------- a server that pages through one list

  /** A list and the cursors that denote its offsets. */
  datatype Source = Source(items: seq<Value>, cursor: nat -> Value)

  predicate Denotes(source: Source, c: Value, offset: nat) {
    c == source.cursor(offset) || (c.Null? && offset == 0)
  }

  /** What follows a page that ended at `offset`: null exactly when the list is exhausted. */
  function NextCursor(source: Source, offset: nat): Value {
    if offset >= |source.items| then Null else source.cursor(offset)
  }

  predicate PageAt(source: Source, page: Value, offset: nat, end: nat) {
    && offset <= end <= |source.items|
    && page.Obj? && page.Get("data") == Some(Arr(source.items[offset..end]))
    && page.GetOrNull("nextCursor") == NextCursor(source, end)
  }

  /** Cursors are distinct and not null; every answer is a page from the offset asked for, of any length up to
      the limit asked for. */
  ghost predicate Honest(server: Server, source: Source) {
    && (forall k :: !source.cursor(k).Null?)
    && (forall j, k :: source.cursor(j) == source.cursor(k) ==> j == k)
    && (forall i: nat, params: Fields, offset: nat
          | offset <= |source.items| && Denotes(source, CursorOf(params), offset) ::
          Answers(source, server(i, params), params, offset))
  }

  ghost predicate Answers(source: Source, answer: Result<Value, string>, params: Fields, offset: nat) {
    answer.Ok? && exists end: nat ::
      && PageAt(source, answer.value, offset, end)
      && (Obj(params).GetOrNull("limit").AsU64().Some? ==>
            end - offset <= Obj(params).GetOrNull("limit").AsU64().value)
  }

  // ---------------------------------------------------------------- the loop

  /** The request for the page at `cursor`, with room for `remaining` threads. */
  function PageParams(params: Fields, cursor: Value, remaining: Option<nat>): Fields {
    var placed := if cursor.Null? then params - {"cursor"} else params["cursor" := cursor];
    if remaining.Some? then placed["limit" := Num(Int(remaining.value))] else placed
  }

  /** No request repeats another's cursor, and all are otherwise the caller's, up to the limit. */
  ghost predicate SentWell(params: Fields, sent: seq<Fields>) {
    && (forall i, j | 0 <= i < j < |sent| :: CursorOf(sent[i]) != CursorOf(sent[j]))
    && (forall i | 0 <= i < |sent| :: sent[i] - {"cursor", "limit"} == params - {"cursor", "limit"})
    && (RequestedLimit(params).Some? ==> forall i | 0 <= i < |sent| ::
          Obj(sent[i]).GetOrNull("limit").AsU64().Some?
          && 1 <= Obj(sent[i]).GetOrNull("limit").AsU64().value <= RequestedLimit(params).value)
  }

  lemma SentMore(params: Fields, sent: seq<Fields>, cursor: Value, remaining: Option<nat>)
    requires SentWell(params, sent)
    requires forall i | 0 <= i < |sent| :: CursorOf(sent[i]) != cursor
    requires remaining.Some? <==> RequestedLimit(params).Some?
    requires remaining.Some? ==> 1 <= remaining.value <= RequestedLimit(params).value
    ensures SentWell(params, sent + [PageParams(params, cursor, remaining)])
    ensures CursorOf(PageParams(params, cursor, remaining)) == cursor
  {
    var p := PageParams(params, cursor, remaining);
    assert p - {"cursor", "limit"} == params - {"cursor", "limit"};
  }

  // ---------------------------------------------------------------- one honest page

  /** What has been gathered is the fold of the source's slice from `start` to `end`. */
  ghost predicate Gathered(source: Source, acc: Acc, start: nat, end: nat) {
    start <= end <= |source.items| && InRange(acc)
    && acc == AddAll(NOTHING, Normalized(source.items[start..end]))
  }

  lemma {:induction false} AddAllGrows(acc: Acc, incoming: seq<Value>)
    requires InRange(acc)
    ensures |AddAll(acc, incoming).threads| <= |acc.threads| + |incoming|
    decreases incoming
  {
    if incoming != [] {
      AddAllGrows(acc, incoming[..|incoming| - 1]);
    }
  }

  /** Asked at `end`, an honest server extends the slice, and by no more than the room left. */
  lemma GatherMore(server: Server, source: Source, i: nat, asked: Fields, acc: Acc, start: nat, end: nat)
    returns (next: nat)
    requires Honest(server, source) && Gathered(source, acc, start, end) && Denotes(source, CursorOf(asked), end)
    ensures server(i, asked).Ok? && end <= next
    ensures var page := server(i, asked).value;
      && page.Obj? && page.GetOrNull("nextCursor") == NextCursor(source, next)
      && |PageThreads(page)| == next - end
      && Gathered(source, AddAll(acc, PageThreads(page)), start, next)
      && (Obj(asked).GetOrNull("limit").AsU64().Some? ==>
            |AddAll(acc, PageThreads(page)).threads|
              <= |acc.threads| + Obj(asked).GetOrNull("limit").AsU64().value)
  {
    assert Answers(source, server(i, asked), asked, end);
    var page := server(i, asked).value;
    next :| PageAt(source, page, end, next) && (Obj(asked).GetOrNull("limit").AsU64().Some? ==>
            next - end <= Obj(asked).GetOrNull("limit").AsU64().value);
    hide Answers, Honest, Denotes, NextCursor, Gathered, InRange, AddAll;
    GatheredOn(source, acc, start, end, next);
    AddAllGrows(acc, PageThreads(page)) by { assert Gathered(source, acc, start, end); }
  }

  /** A longer slice is gathered by adding the rest of it. */
  lemma GatheredOn(source: Source, acc: Acc, start: nat, end: nat, next: nat)
    requires Gathered(source, acc, start, end) && end <= next <= |source.items|
    ensures Gathered(source, AddAll(acc, Normalized(source.items[end..next])), start, next)
  {
    hide AddAll;
    var items := source.items;
    assert Normalized(items[start..next]) == Normalized(items[start..end]) + Normalized(items[end..next]);
    AddAllConcat(NOTHING, Normalized(items[start..end]), Normalized(items[end..next]));
  }

  // ---------------------------------------------------------------- why it stopped

  /** With a limit: it is met, the list is exhausted, the hundredth page was read, or the last page was empty. */
  predicate StoppedWell(server: Server, source: Source, limit: nat, threads: seq<Value>, sent: seq<Fields>, end: nat) {
    && |threads| <= limit
    && (|threads| == limit || end == |source.items| || |sent| == 100
        || (sent != [] && server(|sent| - 1, sent[|sent| - 1]).Ok?
            && PageThreads(server(|sent| - 1, sent[|sent| - 1]).value) == []))
  }

  // ---------------------------------------------------------------- the loop's invariants

  /** Every request so far was answered and its cursor remembered; `cursor` is the next, not asked yet. */
  ghost predicate Asked(server: Server, params: Fields, sent: seq<Fields>, cursor: Value, visited: set<Value>) {
    && SentWell(params, sent) && (cursor.Null? || cursor in visited)
    && (forall i | 0 <= i < |sent| ::
          server(i, sent[i]).Ok? && CursorOf(sent[i]) != cursor
          && (CursorOf(sent[i]).Null? || CursorOf(sent[i]) in visited))
  }

  lemma AskedMore(server: Server, params: Fields, sent: seq<Fields>, cursor: Value, visited: set<Value>,
                  asked: Fields, next: Value)
    requires Asked(server, params, sent, cursor, visited) && SentWell(params, sent + [asked])
    requires CursorOf(asked) == cursor && server(|sent|, asked).Ok? && !next.Null? && next !in visited
    ensures Asked(server, params, sent + [asked], next, visited + {next})
  {
  }

  /** With an honest server: the fold of a slice, the cursor of its end, and only passed cursors remembered. */
  ghost predicate OnTrack(source: Source, acc: Acc, start: nat, end: nat, cursor: Value, visited: set<Value>) {
    && Gathered(source, acc, start, end) && Denotes(source, cursor, end)
    && forall c | c in visited :: exists k: nat | k <= end :: c == source.cursor(k)
  }

  lemma CursorAhead(server: Server, source: Source, end: nat, next: nat, visited: set<Value>)
    requires Honest(server, source) && end < next
    requires forall c | c in visited :: exists k: nat | k <= end :: c == source.cursor(k)
    ensures source.cursor(next) !in visited
    ensures forall c | c in visited + {source.cursor(next)} :: exists k: nat | k <= next :: c == source.cursor(k)
  {
    forall c | c in visited
      ensures c != source.cursor(next)
      ensures exists k: nat | k <= next :: c == source.cursor(k)
    {
      var k: nat :| k <= end && c == source.cursor(k);
      assert k <= next;
    }
  }

  /** One answer of an honest server, as the loop sees it. */
  lemma OnTrackMore(server: Server, source: Source, i: nat, asked: Fields, acc: Acc, start: nat, end: nat,
                    cursor: Value, visited: set<Value>) returns (next: nat)
    requires Honest(server, source) && OnTrack(source, acc, start, end, cursor, visited) && CursorOf(asked) == cursor
    ensures server(i, asked).Ok? && server(i, asked).value.Obj?
    ensures var page := server(i, asked).value;
      var nextCursor := page.GetOrNull("nextCursor");
      && nextCursor == NextCursor(source, next) && Gathered(source, AddAll(acc, PageThreads(page)), start, next)
      && (Obj(asked).GetOrNull("limit").AsU64().Some? ==>
            |AddAll(acc, PageThreads(page)).threads|
              <= |acc.threads| + Obj(asked).GetOrNull("limit").AsU64().value)
      && (PageThreads(page) != [] && !nextCursor.Null? ==>
            nextCursor !in visited
            && OnTrack(source, AddAll(acc, PageThreads(page)), start, next, nextCursor, visited + {nextCursor}))
  {
    next := GatherMore(server, source, i, asked, acc, start, end);
    if PageThreads(server(i, asked).value) != [] {
      CursorAhead(server, source, end, next, visited);
    }
  }

  // ---------------------------------------------------------------- the loop, turn by turn

  /** The loop's variables; `sent` is every request so far. */
  datatype Loop = Loop(
    acc: Acc, cursor: Value, visited: set<Value>, first: Option<Value>, next: Value,
    sent: seq<Fields>, failed: Option<string>, more: bool)

  function Start(params: Fields): Loop {
    var cursor := CursorOf(params);
    Loop(NOTHING, cursor, if cursor.Null? then {} else {cursor}, None, Null, [], None, true)
  }

  function Remaining(params: Fields, l: Loop): Option<nat> {
    match RequestedLimit(params)
    case Some(limit) => Some(if |l.acc.threads| < limit then limit - |l.acc.threads| else 0)
    case None => None
  }

  function Asking(params: Fields, l: Loop): Fields {
    PageParams(params, l.cursor, Remaining(params, l))
  }

  function Turn(server: Server, params: Fields, l: Loop): (r: Loop)
    requires InRange(l.acc)
    ensures InRange(r.acc)
  {
    var asked := Asking(params, l);
    match server(|l.sent|, asked)
    case Err(error) => l.(sent := l.sent + [asked], failed := Some(error), more := false)
    case Ok(page) =>
      var acc, next := AddAll(l.acc, PageThreads(page)), page.GetOrNull("nextCursor");
      var limit := RequestedLimit(params);
      var more := && limit.Some? && |acc.threads| < limit.value && !next.Null? && PageThreads(page) != []
                  && next !in l.visited;
      Loop(acc, if more then next else l.cursor, if more then l.visited + {next} else l.visited,
           if l.first.Some? then l.first else Some(page), next, l.sent + [asked], None, more)
  }

  function Turns(server: Server, params: Fields, n: nat): (r: Loop)
    ensures InRange(r.acc)
  {
    if n == 0 then Start(params)
    else
      var l := Turns(server, params, n - 1);
      if l.more then Turn(server, params, l) else l
  }

  /** For any server: while the loop goes on, every request was answered and a new cursor waits, with room
      left; the original's guard for no room never fires. */
  ghost predicate Sound(server: Server, params: Fields, l: Loop, n: nat) {
    && |l.sent| <= n && SentWell(params, l.sent)
    && (l.more ==>
          && |l.sent| == n && l.failed.None? && Asked(server, params, l.sent, l.cursor, l.visited)
          && (RequestedLimit(params).Some? ==> |l.acc.threads| < RequestedLimit(params).value))
    && (l.failed.None? ==> forall i | 0 <= i < |l.sent| :: server(i, l.sent[i]).Ok?)
    && (l.failed.Some? ==> l.sent != [] && server(|l.sent| - 1, l.sent[|l.sent| - 1]).Err?)
  }

  lemma TurnSound(server: Server, params: Fields, l: Loop, n: nat)
    requires Sound(server, params, l, n) && l.more && InRange(l.acc)
    ensures Sound(server, params, Turn(server, params, l), n + 1)
  {
    var asked, r := Asking(params, l), Turn(server, params, l);
    SentMore(params, l.sent, l.cursor, Remaining(params, l));
    if r.more {
      AskedMore(server, params, l.sent, l.cursor, l.visited, asked, r.cursor);
    }
  }

  lemma {:induction false} TurnsSound(server: Server, params: Fields, n: nat)
    ensures Sound(server, params, Turns(server, params, n), n)
  {
    if n > 0 {
      TurnsSound(server, params, n - 1);
      var l := Turns(server, params, n - 1);
      if l.more {
        TurnSound(server, params, l, n - 1);
      }
    }
  }

  lemma TurnFails(server: Server, params: Fields, l: Loop, asked: Fields, error: string)
    requires InRange(l.acc) && asked == Asking(params, l) && server(|l.sent|, asked) == Err(error)
    ensures Turn(server, params, l) == l.(sent := l.sent + [asked], failed := Some(error), more := false)
  {
  }

  lemma TurnGoesOn(server: Server, params: Fields, l: Loop, asked: Fields, page: Value, acc: Acc, more: bool)
    requires InRange(l.acc) && asked == Asking(params, l) && server(|l.sent|, asked) == Ok(page)
    requires acc == AddAll(l.acc, PageThreads(page))
    requires var next, limit := page.GetOrNull("nextCursor"), RequestedLimit(params);
      more <==>
        && limit.Some? && |acc.threads| < limit.value && !next.Null? && PageThreads(page) != []
        && next !in l.visited
    ensures var next := page.GetOrNull("nextCursor");
      Turn(server, params, l)
        == Loop(acc, if more then next else l.cursor, if more then l.visited + {next} else l.visited,
                if l.first.Some? then l.first else Some(page), next, l.sent + [asked], None, more)
  {
    hide AddAll, PageThreads, RequestedLimit;
  }

  lemma RoomLeft(server: Server, params: Fields, n: nat)
    requires Turns(server, params, n).more
    ensures |Turns(server, params, n).sent| == n
    ensures RequestedLimit(params).Some? ==> |Turns(server, params, n).acc.threads| < RequestedLimit(params).value
  {
    TurnsSound(server, params, n);
  }

  /** Where the loop is with an honest server: on the way, or stopped for a reason. */
  ghost predicate Tracked(server: Server, params: Fields, source: Source, start: nat, l: Loop, end: nat) {
    && l.failed.None? && Gathered(source, l.acc, start, end)
    && (l.first.Some? ==> l.first.value.Obj? && l.next == NextCursor(source, end))
    && (l.more ==> OnTrack(source, l.acc, start, end, l.cursor, l.visited))
    && (!l.more ==> l.first.Some? && (RequestedLimit(params).Some? ==>
          StoppedWell(server, source, RequestedLimit(params).value, l.acc.threads, l.sent, end)))
  }

  lemma TurnTracked(server: Server, params: Fields, source: Source, start: nat, l: Loop, n: nat, end: nat)
    returns (next: nat)
    requires Honest(server, source) && Sound(server, params, l, n) && l.more && InRange(l.acc)
    requires Tracked(server, params, source, start, l, end)
    ensures Tracked(server, params, source, start, Turn(server, params, l), next)
  {
    hide AddAll, Dedup, LogicalId, Came;
    next := OnTrackMore(server, source, |l.sent|, Asking(params, l), l.acc, start, end, l.cursor, l.visited);
  }

  lemma {:induction false} TurnsTracked(server: Server, params: Fields, source: Source, start: nat, n: nat)
    returns (end: nat)
    requires Honest(server, source) && start <= |source.items| && Denotes(source, CursorOf(params), start)
    ensures Tracked(server, params, source, start, Turns(server, params, n), end)
  {
    hide Tracked, Turn, Sound;
    if n == 0 {
      end := start;
      StartTracked(server, params, source, start);
    } else {
      end := TurnsTracked(server, params, source, start, n - 1);
      TurnsSound(server, params, n - 1);
      end := StepTracked(server, params, source, start, n, end);
    }
  }

  lemma StepTracked(server: Server, params: Fields, source: Source, start: nat, n: nat, end: nat) returns (next: nat)
    requires n > 0 && Honest(server, source) && Sound(server, params, Turns(server, params, n - 1), n - 1)
    requires Tracked(server, params, source, start, Turns(server, params, n - 1), end)
    ensures Tracked(server, params, source, start, Turns(server, params, n), next)
  {
    var l := Turns(server, params, n - 1);
    if l.more {
      assert Turns(server, params, n) == Turn(server, params, l);
      next := TurnTracked(server, params, source, start, l, n - 1, end);
    } else {
      assert Turns(server, params, n) == l;
      next := end;
    }
  }

  lemma StartTracked(server: Server, params: Fields, source: Source, start: nat)
    requires Honest(server, source) && start <= |source.items| && Denotes(source, CursorOf(params), start)
    ensures Tracked(server, params, source, start, Start(params), start)
  {
  }

  lemma {:induction false} FirstPageKept(server: Server, params: Fields, n: nat)
    ensures n > 0 && Turns(server, params, n).failed.None? ==> Turns(server, params, n).first.Some?
  {
    if n > 1 {
      FirstPageKept(server, params, n - 1);
    }
  }

  // ---------------------------------------------------------------- the method

  /** The first page with its data and next cursor replaced; a page that is not an object is left alone. */
  function ShowThreads(first: Option<Value>, threads: seq<Value>, nextCursor: Value): Value {
    var shown := if first.Some? then first.value else Obj(map["data" := Arr([]), "nextCursor" := Null]);
    if shown.Obj? then Obj(shown.fields["data" := Arr(threads)]["nextCursor" := nextCursor]) else shown
  }

  function Listing(server: Server, params: Fields): Result<Value, string> {
    var l := Turns(server, params, MAX_THREAD_LIST_PAGES);
    if l.failed.Some? then Err(l.failed.value) else Ok(ShowThreads(l.first, l.acc.threads, l.next))
  }

  /** `request_unique_threads`, with the app-server's answers as an oracle. */
  method RequestUniqueThreads(server: Server, params: Fields)
    returns (result: Result<Value, string>, sent: seq<Fields>)
    ensures sent != [] && (result.Ok? ==> ShowsAll(server, sent, result.value))
    ensures result.Err? ==> server(|sent| - 1, sent[|sent| - 1]) == Err(result.error)
    ensures result == Listing(server, params)
    ensures sent == Turns(server, params, MAX_THREAD_LIST_PAGES).sent
  {
    ShowsWhatCame(server, params);
    result, sent := RunPages(server, params);
  }

  /** The loop. */
  method RunPages(server: Server, params: Fields)
    returns (result: Result<Value, string>, sent: seq<Fields>)
    ensures result == Listing(server, params)
    ensures sent == Turns(server, params, MAX_THREAD_LIST_PAGES).sent
  {
    hide Sound, Turn, ShowThreads, PageThreads, PageParams, AddAll;
    var limit, cursor := RequestedLimit(params), CursorOf(params);
    var visited: set<Value> := if cursor.Null? then {} else {cursor};
    var first: Option<Value>, threads: seq<Value>, indexes: map<string, nat> := None, [], map[];
    var nextCursor := Null;
    sent := [];
    for page := 0 to MAX_THREAD_LIST_PAGES
      invariant Turns(server, params, page)
        == Loop(Acc(threads, indexes), cursor, visited, first, nextCursor, sent, None, true)
    {
      RoomLeft(server, params, page);
      ghost var l := Turns(server, params, page);
      var asked := PageParams(params, cursor, if limit.Some? then Some(limit.value - |threads|) else None);
      assert asked == Asking(params, l);
      sent := sent + [asked];
      var answer := server(page, asked);
      if answer.Err? {
        TurnFails(server, params, l, asked, answer.error);
        Stopped(server, params, page + 1);
        return Err(answer.error), sent;
      }
      var pageThreads := PageThreads(answer.value);
      threads, indexes := MergeUniqueThreads(threads, indexes, pageThreads);
      nextCursor := answer.value.GetOrNull("nextCursor");
      if first.None? {
        first := Some(answer.value);
      }
      if limit.None? || |threads| >= limit.value || nextCursor.Null? || pageThreads == [] || nextCursor in visited {
        TurnGoesOn(server, params, l, asked, answer.value, Acc(threads, indexes), false);
        Stopped(server, params, page + 1);
        return Ok(ShowThreads(first, threads, nextCursor)), sent;
      }
      TurnGoesOn(server, params, l, asked, answer.value, Acc(threads, indexes), true);
      visited := visited + {nextCursor};
      cursor := nextCursor;
    }
    result := Ok(ShowThreads(first, threads, nextCursor));
  }

  lemma {:induction false} Stopped(server: Server, params: Fields, n: nat)
    requires n <= MAX_THREAD_LIST_PAGES && !Turns(server, params, n).more
    ensures Turns(server, params, MAX_THREAD_LIST_PAGES) == Turns(server, params, n)
    decreases MAX_THREAD_LIST_PAGES - n
  {
    if n < MAX_THREAD_LIST_PAGES {
      assert Turns(server, params, n + 1) == Turns(server, params, n);
      Stopped(server, params, n + 1);
    }
  }

  // ---------------------------------------------------------------- what came, and what is shown of it

  /** The threads of a page: its data, if that is an array. */
  function DataOf(page: Value): seq<Value> {
    if page.Get("data").Some? && page.Get("data").value.Arr? then page.Get("data").value.items else []
  }

  /** All that the answers to these requests brought, in order. */
  function Came(server: Server, sent: seq<Fields>): seq<Value> {
    if sent == [] then []
    else
      var front, n := sent[..|sent| - 1], |sent| - 1;
      Came(server, front) + if server(n, sent[n]).Ok? then DataOf(server(n, sent[n]).value) else []
  }

  /** Shown is the first page, with all that came, lifted and merged by logical id, for its data, and with the last
      page's cursor; a first page that is no object is shown as it is. */
  ghost predicate ShowsAll(server: Server, sent: seq<Fields>, shown: Value)
    requires sent != []
  {
    var first, last := server(0, sent[0]), server(|sent| - 1, sent[|sent| - 1]);
    && first.Ok? && last.Ok? && (!first.value.Obj? ==> shown == first.value)
    && (first.value.Obj? ==>
          && shown.Obj? && shown.Get("nextCursor") == Some(last.value.GetOrNull("nextCursor"))
          && (forall k | k != "data" && k != "nextCursor" :: shown.Get(k) == first.value.Get(k))
          && exists lifted :: AllLifted(Came(server, sent), lifted) && shown.Get("data") == Some(Arr(Dedup(lifted))))
  }

  lemma NormalizedIs(items: seq<Value>, lifted: seq<Value>)
    ensures AllLifted(items, lifted) <==> lifted == Normalized(items)
  {
    hide Lifted, NormalizeItem;
    forall k | 0 <= k < |items| && k < |lifted|
      ensures Lifted(items[k], lifted[k]) <==> lifted[k] == NormalizeItem(items[k])
    {
      LiftedIs(items[k], lifted[k]);
    }
  }

  /** Until it fails, the loop has gathered all that came, and kept the first page and the last cursor. */
  ghost predicate GatheredAll(server: Server, l: Loop) {
    && InRange(l.acc)
    && (l.failed.None? ==>
          && l.acc == AddAll(NOTHING, Normalized(Came(server, l.sent)))
          && (l.sent == [] ==> l.first.None?)
          && (l.sent != [] ==>
                && server(0, l.sent[0]).Ok? && l.first == Some(server(0, l.sent[0]).value)
                && server(|l.sent| - 1, l.sent[|l.sent| - 1]).Ok?
                && l.next == server(|l.sent| - 1, l.sent[|l.sent| - 1]).value.GetOrNull("nextCursor")))
  }

  /** It has failed exactly as the last answer did, and stops when it has. */
  predicate Ended(server: Server, l: Loop) {
    && (l.more ==> l.failed.None?)
    && (l.failed.Some? ==>
          l.sent != [] && server(|l.sent| - 1, l.sent[|l.sent| - 1]) == Err(l.failed.value))
  }

  /** One more answer adds its page's threads to what came. */
  lemma CameMore(server: Server, sent: seq<Fields>, asked: Fields)
    ensures Came(server, sent + [asked]) ==
      Came(server, sent) + if server(|sent|, asked).Ok? then DataOf(server(|sent|, asked).value) else []
  {
    assert (sent + [asked])[..|sent|] == sent;
  }

  lemma Merges(came: seq<Value>, page: Value)
    ensures AddAll(NOTHING, Normalized(came + DataOf(page)))
      == AddAll(AddAll(NOTHING, Normalized(came)), PageThreads(page))
  {
    hide AddAll, NormalizeItem;
    var data := DataOf(page);
    assert Normalized(came + data) == Normalized(came) + Normalized(data);
    assert PageThreads(page) == Normalized(data);
    hide Normalized, PageThreads;
    AddAllConcat(NOTHING, Normalized(came), Normalized(data));
  }

  lemma TurnGathers(server: Server, params: Fields, l: Loop)
    requires GatheredAll(server, l) && l.failed.None?
    ensures GatheredAll(server, Turn(server, params, l)) && Ended(server, Turn(server, params, l))
    ensures Turn(server, params, l).sent != []
  {
    hide AddAll, Normalized, Came, PageThreads, Asking, RequestedLimit;
    var asked, r := Asking(params, l), Turn(server, params, l);
    CameMore(server, l.sent, asked);
    if server(|l.sent|, asked).Ok? {
      Merges(Came(server, l.sent), server(|l.sent|, asked).value);
    }
    assert r.sent == l.sent + [asked];
  }

  lemma {:induction false} TurnsGather(server: Server, params: Fields, n: nat)
    ensures GatheredAll(server, Turns(server, params, n)) && Ended(server, Turns(server, params, n))
    ensures n > 0 ==> Turns(server, params, n).sent != []
  {
    hide Turn, GatheredAll;
    if n == 0 {
      NothingCame(server, params);
    } else {
      TurnsGather(server, params, n - 1);
      var l := Turns(server, params, n - 1);
      if l.more {
        TurnGathers(server, params, l);
      }
    }
  }

  lemma NothingCame(server: Server, params: Fields)
    ensures GatheredAll(server, Start(params)) && Ended(server, Start(params))
  {
  }

  /** Whatever the app-server answers, what is shown is what came. */
  lemma ShowsWhatCame(server: Server, params: Fields)
    ensures var sent, r := Turns(server, params, MAX_THREAD_LIST_PAGES).sent, Listing(server, params);
      && sent != []
      && (r.Ok? ==> ShowsAll(server, sent, r.value))
      && (r.Err? ==> server(|sent| - 1, sent[|sent| - 1]) == Err(r.error))
  {
    TurnsGather(server, params, MAX_THREAD_LIST_PAGES);
    var l := Turns(server, params, MAX_THREAD_LIST_PAGES);
    hide Turns, AddAll, Dedup, Normalized;
    var came := Came(server, l.sent);
    NormalizedIs(came, Normalized(came));
    MergingIsGrouping(Normalized(came));
  }

  /** Without a limit, one request is all. */
  lemma OneWithoutLimit(server: Server, params: Fields)
    requires RequestedLimit(params).None?
    ensures |Turns(server, params, MAX_THREAD_LIST_PAGES).sent| == 1
  {
    assert Turns(server, params, 1) == Turn(server, params, Start(params)) by {
      assert Turns(server, params, 0) == Start(params);
    }
    Stopped(server, params, 1);
  }

  // ---------------------------------------------------------------- main results

  /** Whatever the server answers: at most 100 requests, no cursor asked for twice, every request the
      caller's own but for cursor and a limit within the caller's, and an error exactly when an answer was. */
  lemma {:induction false} AnyServer(server: Server, params: Fields)
    ensures var sent := Turns(server, params, MAX_THREAD_LIST_PAGES).sent;
      && |sent| <= MAX_THREAD_LIST_PAGES && SentWell(params, sent)
      && |sent| <= 100 && (RequestedLimit(params).None? ==> |sent| == 1)
      && (Listing(server, params).Err? <==> exists i | 0 <= i < |sent| :: server(i, sent[i]).Err?)
  {
    TurnsSound(server, params, MAX_THREAD_LIST_PAGES);
    if RequestedLimit(params).None? {
      OneWithoutLimit(server, params);
    }
    var l := Turns(server, params, MAX_THREAD_LIST_PAGES);
    if l.failed.Some? {
      assert server(|l.sent| - 1, l.sent[|l.sent| - 1]).Err?;
    }
  }

  /** From the cursor of offset `start`, an honest server's list is shown as the de-duplicated contiguous slice
      [start, end); `nextCursor` is the cursor of `end`, or null at the end of the list, so the next call
      continues where this one stopped; and with a limit the slice fits it and ends early only at the list's
      end, on an empty page, or at the hundredth page. */
  lemma {:induction false} ListsASlice(server: Server, params: Fields, source: Source, start: nat)
    returns (end: nat, lifted: seq<Value>)
    requires Honest(server, source) && start <= |source.items| && Denotes(source, CursorOf(params), start)
    ensures start <= end <= |source.items| && Listing(server, params).Ok?
    ensures AllLifted(source.items[start..end], lifted)
    ensures var shown, threads := Listing(server, params).value, Dedup(lifted);
      && shown.Get("data") == Some(Arr(threads))
      && shown.GetOrNull("nextCursor") == NextCursor(source, end)
      && (RequestedLimit(params).Some? ==>
            StoppedWell(server, source, RequestedLimit(params).value, threads,
                        Turns(server, params, MAX_THREAD_LIST_PAGES).sent, end))
  {
    end := TurnsTracked(server, params, source, start, MAX_THREAD_LIST_PAGES);
    TurnsSound(server, params, MAX_THREAD_LIST_PAGES);
    FirstPageKept(server, params, MAX_THREAD_LIST_PAGES);
    lifted := Normalized(source.items[start..end]);
    NormalizedIs(source.items[start..end], lifted);
    MergingIsGrouping(lifted);
    hide AllLifted, Lifted;
  }

  /** A second call from the first one's `nextCursor` shows the slice that follows: nothing between them is skipped. */
  lemma {:induction false} NextCallContinues(
    server: Server, server': Server, params: Fields, source: Source, start: nat)
    returns (middle: nat, end: nat, lifted: seq<Value>, rest: seq<Value>)
    requires Honest(server, source) && Honest(server', source) && start <= |source.items|
    requires Denotes(source, CursorOf(params), start)
    ensures start <= middle <= end <= |source.items| && Listing(server, params).Ok?
    ensures AllLifted(source.items[start..middle], lifted) && AllLifted(source.items[middle..end], rest)
    ensures Listing(server, params).value.Get("data") == Some(Arr(Dedup(lifted)))
    ensures var cursor := Listing(server, params).value.GetOrNull("nextCursor");
      && (cursor.Null? ==> middle == end == |source.items|)
      && (!cursor.Null? ==>
            && Listing(server', params["cursor" := cursor]).Ok?
            && Listing(server', params["cursor" := cursor]).value.Get("data") == Some(Arr(Dedup(rest))))
  {
    middle, lifted := ListsASlice(server, params, source, start);
    end, rest := middle, [];
    var cursor := Listing(server, params).value.GetOrNull("nextCursor");
    hide AllLifted, Listing;
    if !cursor.Null? {
      end, rest := ListsASlice(server', params["cursor" := cursor], source, middle);
    } else {
      assert AllLifted(source.items[middle..middle], []) by { NormalizedIs([], []); }
    }
  }

  // ---------------------------------------------------------------- search hits

  /** A search hit: the thread is nested in it, and `id` is that thread's id without the white space around it. */
  predicate Hit(item: Value, id: string) {
    && item.Get("thread").Some? && item.Get("thread").value.Obj?
    && item.Get("threadId").None? && item.Get("sessionId").None?
    && var thread := item.Get("thread").value;
       && thread.Get("threadId").None? && thread.Get("sessionId").None?
       && thread.GetStr("id").Some? && Text.Trim(thread.GetStr("id").value) == id != ""
  }

  ghost predicate IsHit(item: Value) {
    exists id :: Hit(item, id)
  }

  lemma HitIs(item: Value, id: string, lifted: Value)
    requires Hit(item, id) && Lifted(item, lifted)
    ensures LogicalId(lifted) == Some(id) && PlainIds(lifted)
  {
    assert lifted.Get("threadId").None? && lifted.Get("sessionId").None?;
    assert lifted.Get("id") == item.Get("thread").value.Get("id");
  }

  /** Nested threads are lifted before they are told apart: of the hits of an honest search, those with one id are shown
      as one thread, and nothing else is shown. */
  lemma {:induction false} HitsAreShownOnce(server: Server, params: Fields, source: Source, start: nat)
    returns (end: nat, threads: seq<Value>)
    requires Honest(server, source) && start <= |source.items| && Denotes(source, CursorOf(params), start)
    requires forall k | 0 <= k < |source.items| :: IsHit(source.items[k])
    ensures start <= end <= |source.items| && Listing(server, params).Ok?
    ensures Listing(server, params).value.Get("data") == Some(Arr(threads))
    ensures OncePerId(source.items[start..end], threads)
  {
    hide Honest, Denotes, Listing, Dedup, StoppedWell, AllLifted, IsHit, OncePerId, Turns, NextCursor;
    var lifted;
    end, lifted := ListsASlice(server, params, source, start);
    threads := Dedup(lifted);
    var hits := source.items[start..end];
    assert forall k | 0 <= k < |hits| :: hits[k] == source.items[start + k];
    OnceEach(hits, lifted);
  }

  /** Each hit's thread is shown, each thread shown is some hit's, and no two shown have the same id. */
  ghost predicate OncePerId(hits: seq<Value>, threads: seq<Value>) {
    && (forall k, id | 0 <= k < |hits| && Hit(hits[k], id) :: IsShown(threads, id))
    && (forall g | 0 <= g < |threads| :: IsSome(hits, threads[g]))
    && (forall g, h | 0 <= g < h < |threads| :: LogicalId(threads[g]) != LogicalId(threads[h]))
  }

  predicate IsShown(threads: seq<Value>, id: string) {
    exists g | 0 <= g < |threads| :: LogicalId(threads[g]) == Some(id)
  }

  /** The thread has the id of one of the hits. */
  ghost predicate IsSome(hits: seq<Value>, thread: Value) {
    exists k, id | 0 <= k < |hits| :: Hit(hits[k], id) && LogicalId(thread) == Some(id)
  }

  lemma OnceEach(hits: seq<Value>, lifted: seq<Value>)
    requires AllLifted(hits, lifted) && forall k | 0 <= k < |hits| :: IsHit(hits[k])
    ensures OncePerId(hits, Dedup(lifted))
  {
    hide Lifted, Hit, LogicalId, PlainIds, Firsts, Dedup;
    var threads, ids := Dedup(lifted), Ids(lifted);
    forall k, id | 0 <= k < |hits| && Hit(hits[k], id) ensures PlainIds(lifted[k]) && ids[k] == Some(id) {
      HitIs(hits[k], id, lifted[k]);
    }
    forall k | 0 <= k < |lifted| ensures PlainIds(lifted[k]) && ids[k].Some? {
      var id :| Hit(hits[k], id);
      assert ids[k] == Some(id);
    }
    PlainOrder(lifted);
    FirstsDistinct(ids);
    forall k, id | 0 <= k < |hits| && Hit(hits[k], id)
      ensures IsShown(threads, id)
    {
      SomeInFirsts(ids, ids[k]);
      var g :| 0 <= g < |Firsts(ids)| && Firsts(ids)[g] == ids[k];
      assert LogicalId(threads[g]) == Ids(threads)[g] == Some(id);
    }
    forall g | 0 <= g < |threads|
      ensures IsSome(hits, threads[g])
    {
      SomeInFirsts(ids, Ids(threads)[g]);
      var k :| 0 <= k < |ids| && ids[k] == Ids(threads)[g];
      var id :| Hit(hits[k], id);
      assert ids[k] == Some(id);
    }
    forall g, h | 0 <= g < h < |threads| ensures LogicalId(threads[g]) != LogicalId(threads[h]) {
      SomeInFirsts(ids, Ids(threads)[g]);
      assert Ids(threads)[g] in ids;
      assert Ids(threads)[g] == Firsts(ids)[g] != Firsts(ids)[h] == Ids(threads)[h];
    }
  }
}
