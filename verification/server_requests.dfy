/** Requests the app-server makes of its client: the bounded table of those still pending, replies to them and
    what removes them (`src/app_server/server_requests.rs`, `src/app_server.rs`). */
module ServerRequests {
  import opened Json
  import opened Text
  import opened Rpc

  const MAX_PENDING_REQUESTS: nat := 128
  const I64_LIMIT: int := 0x8000_0000_0000_0000

  datatype RequestId = Number(i: int) | Name(s: string)

  /** An untagged `i64` or string; any other id is not decoded. */
  function DecodeId(v: Value): Option<RequestId> {
    match v
    case Num(Int(i)) => if -I64_LIMIT <= i < I64_LIMIT then Some(Number(i)) else None
    case Str(s) => Some(Name(s))
    case _ => None
  }

  // ---------------------------------------------------------------- keys: the JSON text of an id

  function Hex(n: nat): char
    requires n < 16
  {
    if n < 10 then ('0' as int + n) as char else ('a' as int + n - 10) as char
  }

  /** One character inside a JSON string, as `serde_json` writes it. */
  function Escape(c: char): (r: string)
    ensures r != ""
  {
    if c == '"' then "\\\""
    else if c == '\\' then "\\\\"
    else if c == 8 as char then "\\b"
    else if c == 9 as char then "\\t"
    else if c == 10 as char then "\\n"
    else if c == 12 as char then "\\f"
    else if c == 13 as char then "\\r"
    else if c < 32 as char then "\\u00" + [Hex(c as int / 16), Hex(c as int % 16)]
    else [c]
  }

  function Escaped(s: string): string {
    if s == "" then "" else Escape(s[0]) + Escaped(s[1..])
  }

  function KeyOf(id: RequestId): string {
    match id
    case Number(i) => if i < 0 then "-" + Decimal(-i) else Decimal(i)
    case Name(s) => "\"" + Escaped(s) + "\""
  }

  /** `to_string` of any JSON value, so far as it can equal a key; a literal, a float, an array or an object never
      does. */
  function KeyOfValue(v: Value): Option<string> {
    match v
    case Num(Int(i)) => Some(KeyOf(Number(i)))
    case Str(s) => Some(KeyOf(Name(s)))
    case _ => None
  }

  lemma EscapePrefixFree(c: char, d: char, s: string, t: string)
    requires Escape(c) + s == Escape(d) + t
    ensures c == d && s == t
  {
    var a, b := Escape(c) + s, Escape(d) + t;
    assert a[0] == Escape(c)[0] && b[0] == Escape(d)[0];
    if |Escape(c)| > 1 && |Escape(d)| > 1 {
      assert a[1] == Escape(c)[1] && b[1] == Escape(d)[1];
      if |Escape(c)| == 6 && |Escape(d)| == 6 {
        assert a[4] == Escape(c)[4] && b[4] == Escape(d)[4];
        assert a[5] == Escape(c)[5] && b[5] == Escape(d)[5];
      }
    }
    assert c == d;
    assert a[|Escape(c)|..] == s && b[|Escape(d)|..] == t;
  }

  lemma {:induction false} EscapedInjective(s: string, t: string)
    requires Escaped(s) == Escaped(t)
    ensures s == t
  {
    if s != "" && t != "" {
      EscapePrefixFree(s[0], t[0], Escaped(s[1..]), Escaped(t[1..]));
      EscapedInjective(s[1..], t[1..]);
      assert s == [s[0]] + s[1..] && t == [t[0]] + t[1..];
    }
  }

  lemma KeyShape(id: RequestId)
    ensures KeyOf(id) != ""
    ensures match id
      case Number(i) =>
        && KeyOf(id)[0] == (if i < 0 then '-' else Decimal(i)[0])
        && IsDigit(Decimal(if i < 0 then -i else i)[0])
      case Name(s) => KeyOf(id)[0] == '"'
  {
    if id.Number? {
      DecimalReadsBack(if id.i < 0 then -id.i else id.i);
    }
  }

  /** Different ids have different keys: 7 is not "7". */
  lemma KeyInjective(a: RequestId, b: RequestId)
    requires KeyOf(a) == KeyOf(b)
    ensures a == b
  {
    KeyShape(a);
    KeyShape(b);
    match a
    case Number(i) =>
      DecimalReadsBack(if i < 0 then -i else i);
      DecimalReadsBack(if b.i < 0 then -b.i else b.i);
      if i < 0 {
        assert KeyOf(a)[1..] == Decimal(-i) && KeyOf(b)[1..] == Decimal(-b.i);
      }
    case Name(s) =>
      assert KeyOf(a)[1..|KeyOf(a)| - 1] == Escaped(s) && KeyOf(b)[1..|KeyOf(b)| - 1] == Escaped(b.s);
      EscapedInjective(s, b.s);
  }

  // ---------------------------------------------------------------- what arrives, and what goes out

  datatype Request = Request(requestId: RequestId, name: string, threadId: string, turnId: string, params: Value)

  datatype Decision = Accept | Decline | Cancel

  datatype ReplyResult = Decided(decision: Decision) | Answers(answers: map<string, seq<string>>)

  datatype ClientReply = ClientReply(threadId: string, turnId: string, requestId: RequestId, result: ReplyResult)

  datatype Outgoing = ErrorFrame(id: Value, code: int) | ResultFrame(requestId: RequestId, result: ReplyResult)

  type Table = map<string, Request>

  const APPROVALS: set<string> := {"item/commandExecution/requestApproval", "item/fileChange/requestApproval"}
  const USER_INPUT: string := "item/tool/requestUserInput"

  /** A request of one of the three supported methods, with an id, a thread and a turn. */
  function DecodeRequest(v: Value): Option<Request> {
    var id, name := DecodeId(v.GetOrNull("id")), if v.GetStr("method").Some? then v.GetStr("method").value else "";
    var params := v.GetOrNull("params");
    if id.None? || (name !in APPROVALS && name != USER_INPUT) then None
    else if params.GetStr("threadId").None? || params.GetStr("turnId").None? then None
    else Some(Request(id.value, name, params.GetStr("threadId").value, params.GetStr("turnId").value, params))
  }

  /** The frame is this request: its id is an `i64` or a string, its method one of three, and its params name a thread
      and a turn. */
  predicate Carries(v: Value, r: Request) {
    && (match r.requestId
        case Number(i) => v.Get("id") == Some(Num(Int(i))) && -0x8000_0000_0000_0000 <= i < 0x8000_0000_0000_0000
        case Name(s) => v.Get("id") == Some(Str(s)))
    && v.Get("method") == Some(Str(r.name))
    && r.name in {"item/commandExecution/requestApproval", "item/fileChange/requestApproval",
                  "item/tool/requestUserInput"}
    && v.Get("params") == Some(r.params)
    && r.params.Get("threadId") == Some(Str(r.threadId)) && r.params.Get("turnId") == Some(Str(r.turnId))
  }

  lemma DecodedIs(v: Value, r: Request)
    ensures DecodeRequest(v) == Some(r) <==> Carries(v, r)
  {
  }

  /** `receive_server_request`: the request it admits, or the error it answers with. */
  function Admission(table: Table, v: Value): Result<Request, int> {
    var request := DecodeRequest(v);
    if request.None? then Err(-32601)
    else if |table| >= MAX_PENDING_REQUESTS || KeyOf(request.value.requestId) in table then Err(-32000)
    else Ok(request.value)
  }

  /** The reply is to this request: of its thread, its turn and its id. */
  predicate IsTo(r: Request, reply: ClientReply) {
    reply.threadId == r.threadId && reply.turnId == r.turnId && reply.requestId == r.requestId
  }

  /** The reply's result is of the kind the request asks for: a decision on an approval, or as many answers as there are
      questions, with one for the string id of each. */
  predicate Suits(r: Request, reply: ClientReply) {
    match reply.result
    case Decided(_) => r.name in {"item/commandExecution/requestApproval", "item/fileChange/requestApproval"}
    case Answers(answers) =>
      && r.name == "item/tool/requestUserInput"
      && r.params.Get("questions").Some? && r.params.Get("questions").value.Arr?
      && |answers| == |r.params.Get("questions").value.items|
      && forall k | 0 <= k < |r.params.Get("questions").value.items| ::
           exists id :: r.params.Get("questions").value.items[k].Get("id") == Some(Str(id)) && id in answers
  }

  predicate Fits(table: Table, reply: ClientReply) {
    && KeyOf(reply.requestId) in table
    && IsTo(table[KeyOf(reply.requestId)], reply) && Suits(table[KeyOf(reply.requestId)], reply)
  }

  /** The id and the thread a `serverRequest/resolved` names. */
  predicate Resolves(params: Value, r: Request) {
    && (match r.requestId
        case Number(i) => params.Get("requestId") == Some(Num(Int(i)))
        case Name(s) => params.Get("requestId") == Some(Str(s)))
    && params.Get("threadId") == Some(Str(r.threadId))
  }

  /** The thread and turn a `turn/completed` names. */
  predicate Completes(params: Value, r: Request) {
    && params.Get("threadId") == Some(Str(r.threadId))
    && params.GetOrNull("turn").Get("id") == Some(Str(r.turnId))
  }

  lemma ResolvesByKey(params: Value, r: Request)
    ensures Resolves(params, r) <==>
      && params.Get("requestId").Some? && KeyOfValue(params.Get("requestId").value) == Some(KeyOf(r.requestId))
      && params.GetStr("threadId") == Some(r.threadId)
  {
    hide KeyOf;
    if params.Get("requestId").Some? {
      match params.Get("requestId").value
      case Num(Int(i)) =>
        if KeyOf(Number(i)) == KeyOf(r.requestId) {
          KeyInjective(Number(i), r.requestId);
        }
      case Str(s) =>
        if KeyOf(Name(s)) == KeyOf(r.requestId) {
          KeyInjective(Name(s), r.requestId);
        }
      case _ =>
    }
  }

  /** What a notification leaves of the table. */
  function Noticed(table: Table, name: string, params: Value): Table {
    if name == "serverRequest/resolved" then map k | k in table && !Resolves(params, table[k]) :: table[k]
    else if name == "turn/completed" then map k | k in table && !Completes(params, table[k]) :: table[k]
    else table
  }

  // ---------------------------------------------------------------- the table's own methods

  class PendingRequests {
    var pending: Table
    var written: seq<Outgoing>
    var events: seq<Request>

    /** At most 128, each under the text of its own id. */
    ghost predicate Valid()
      reads this
    {
      Keyed(pending) && |pending| <= MAX_PENDING_REQUESTS
    }

    constructor ()
      ensures Valid() && pending == map[] && written == [] && events == []
    {
      pending, written, events := map[], [], [];
    }

    /** `written` is what the input took: with `ok` false the write failed and is ignored. */
    method Receive(v: Value, ok: bool)
      requires Valid()
      modifies this
      ensures Valid()
      ensures forall r | Carries(v, r) && |old(pending)| < 128 && !HasId(old(pending), r.requestId) ::
        && pending == old(pending)[KeyOf(r.requestId) := r]
        && events == old(events) + [r] && written == old(written)
      ensures forall r | Carries(v, r) && (|old(pending)| >= 128 || HasId(old(pending), r.requestId)) ::
        && pending == old(pending) && events == old(events)
        && written == if ok then old(written) + [ErrorFrame(v.GetOrNull("id"), -32000)] else old(written)
      ensures (forall r :: !Carries(v, r)) ==>
        && pending == old(pending) && events == old(events)
        && written == if ok then old(written) + [ErrorFrame(v.GetOrNull("id"), -32601)] else old(written)
      ensures pending == match Admission(old(pending), v)
                         case Ok(request) => old(pending)[KeyOf(request.requestId) := request]
                         case Err(_) => old(pending)
    {
      forall r ensures Carries(v, r) <==> DecodeRequest(v) == Some(r) {
        DecodedIs(v, r);
      }
      hide Carries;
      forall r: Request ensures HasId(pending, r.requestId) <==> KeyOf(r.requestId) in pending {
        HasIdByKey(pending, r.requestId);
      }
      hide HasId, KeyOf;
      var id := v.GetOrNull("id");
      var request := DecodeRequest(v);
      if request.None? {
        if ok {
          written := written + [ErrorFrame(id, -32601)];
        }
        return;
      }
      var key := KeyOf(request.value.requestId);
      if |pending| >= MAX_PENDING_REQUESTS || key in pending {
        if ok {
          written := written + [ErrorFrame(id, -32000)];
        }
        return;
      }
      pending := pending[key := request.value];
      events := events + [request.value];
    }

    /** `validate_reply`: the HTTP status of the refusal, if it refuses. */
    static method ValidateReply(r: Request, reply: ClientReply) returns (refusal: Option<nat>)
      ensures !IsTo(r, reply) ==> refusal == Some(403)
      ensures IsTo(r, reply) ==> refusal == if Suits(r, reply) then None else Some(400)
    {
      if reply.threadId != r.threadId || reply.turnId != r.turnId || reply.requestId != r.requestId {
        return Some(403);
      }
      if reply.result.Decided? && r.name in APPROVALS {
        return None;
      }
      if reply.result.Answers? && r.name == USER_INPUT {
        var questions := r.params.Get("questions");
        if questions.None? || !questions.value.Arr? || |reply.result.answers| != |questions.value.items| {
          return Some(400);
        }
        for k := 0 to |questions.value.items|
          invariant forall i | 0 <= i < k ::
            exists id :: questions.value.items[i].Get("id") == Some(Str(id)) && id in reply.result.answers
        {
          var id := questions.value.items[k].GetStr("id");
          if id.None? || id.value !in reply.result.answers {
            return Some(400);
          }
        }
        return None;
      }
      refusal := Some(400);
    }

    /** A reply removes its request before it is written: a failed write is an error, and is not repeated. Without a
        pending request of its id it is refused with 409, when that one is of another thread or turn with 403, and when
        the result is not of the kind asked for with 400. */
    method Respond(reply: ClientReply, ok: bool) returns (refusal: Option<nat>)
      requires Valid()
      modifies this
      ensures Valid() && events == old(events)
      ensures refusal.Some? && (refusal.value == 409 || refusal.value == 403 || refusal.value == 400) ==>
        pending == old(pending) && written == old(written)
      ensures !HasId(old(pending), reply.requestId) ==> refusal == Some(409)
      ensures forall r | r in old(pending).Values && r.requestId == reply.requestId ::
        if reply.threadId != r.threadId || reply.turnId != r.turnId then refusal == Some(403)
        else if !Suits(r, reply) then refusal == Some(400)
        else
          && refusal == (if ok then None else Some(500))
          && pending == old(pending) - {KeyOf(reply.requestId)}
          && written == if ok then old(written) + [ResultFrame(reply.requestId, reply.result)] else old(written)
      ensures pending == if Fits(old(pending), reply) then old(pending) - {KeyOf(reply.requestId)} else old(pending)
    {
      hide Suits;
      HasIdByKey(pending, reply.requestId);
      var key := KeyOf(reply.requestId);
      if key !in pending {
        return Some(409);
      }
      assert forall r | r in pending.Values && r.requestId == reply.requestId :: r == pending[key];
      refusal := ValidateReply(pending[key], reply);
      if refusal.Some? {
        return;
      }
      pending := pending - {key};
      if !ok {
        return Some(500);
      }
      written := written + [ResultFrame(reply.requestId, reply.result)];
    }

    method Notice(name: string, params: Value)
      requires Valid()
      modifies this`pending
      ensures Valid() && pending == Noticed(old(pending), name, params)
    {
      if name == "serverRequest/resolved" {
        Resolved(params);
      }
      if name == "turn/completed" {
        TurnCompleted(params);
      }
    }

    method Resolved(params: Value)
      requires Valid()
      modifies this`pending
      ensures Valid() && pending == map k | k in old(pending) && !Resolves(params, old(pending)[k]) :: old(pending)[k]
    {
      forall r ensures Resolves(params, r) <==>
        && params.Get("requestId").Some? && KeyOfValue(params.Get("requestId").value) == Some(KeyOf(r.requestId))
        && params.GetStr("threadId") == Some(r.threadId)
      {
        ResolvesByKey(params, r);
      }
      hide Resolves, KeyOf;
      var id, thread := params.Get("requestId"), params.GetStr("threadId");
      if id.Some? && thread.Some? && KeyOfValue(id.value).Some? {
        var key := KeyOfValue(id.value).value;
        if key in pending && pending[key].threadId == thread.value {
          pending := pending - {key};
        }
      }
    }

    method TurnCompleted(params: Value)
      requires Valid()
      modifies this`pending
      ensures Valid() && pending == map k | k in old(pending) && !Completes(params, old(pending)[k]) :: old(pending)[k]
    {
      var thread, turn := params.GetStr("threadId"), params.GetOrNull("turn").GetStr("id");
      if thread.Some? && turn.Some? {
        var kept := map k | k in pending
                         && (pending[k].threadId != thread.value || pending[k].turnId != turn.value) :: pending[k];
        assert forall r :: Completes(params, r) <==> r.threadId == thread.value && r.turnId == turn.value;
        hide Completes;
        SmallerTable(kept, pending);
        pending := kept;
      } else {
        assert forall r :: !Completes(params, r);
        hide Completes;
        assert pending == map k | k in pending && !Completes(params, pending[k]) :: pending[k];
      }
    }

    /** `pending_server_requests`. */
    method PendingFor(thread: string) returns (requests: set<Request>)
      requires Valid()
      ensures forall r :: r in requests <==> r in pending.Values && r.threadId == thread
      ensures forall r, q | r in requests && q in requests && r.requestId == q.requestId :: r == q
    {
      requests := set r | r in pending.Values && r.threadId == thread;
    }
  }

  /** A request with this id is in the table. */
  predicate HasId(table: Table, id: RequestId) {
    exists r :: r in table.Values && r.requestId == id
  }

  lemma HasIdByKey(table: Table, id: RequestId)
    requires Keyed(table)
    ensures HasId(table, id) <==> KeyOf(id) in table
    ensures KeyOf(id) in table ==> table[KeyOf(id)].requestId == id
  {
    hide KeyOf;
    if KeyOf(id) in table {
      KeyInjective(table[KeyOf(id)].requestId, id);
    }
  }

  predicate Keyed(table: Table) {
    forall k | k in table :: k == KeyOf(table[k].requestId)
  }

  lemma SmallerTable(a: Table, b: Table)
    requires a.Keys <= b.Keys
    ensures |a| <= |b|
  {
    SubsetSize(a.Keys, b.Keys);
  }

  lemma SubsetSize(a: set<string>, b: set<string>)
    requires a <= b
    ensures |a| <= |b|
  {
    assert b == a + (b - a);
  }

  /** `dispatch_value` over both tables: ids of the client's calls and of the server's requests never meet. */
  class Connection {
    const calls: ProcessSession
    const requests: PendingRequests

    constructor ()
      ensures calls.Valid() && requests.Valid()
    {
      calls := new ProcessSession();
      requests := new PendingRequests();
    }

    method DispatchValue(v: Value, ok: bool)
      requires calls.Valid() && requests.Valid()
      modifies calls`pending, calls.pending.Values`queue, requests
      ensures calls.Valid() && requests.Valid()
      // a response: no method, and an unsigned id
      ensures v.Get("method").None? && v.Get("id").Some? && v.Get("id").value.AsU64().Some? ==>
        && requests.pending == old(requests.pending)
        && requests.written == old(requests.written) && requests.events == old(requests.events)
      ensures forall id: nat
        | v.Get("method").None? && v.Get("id") == Some(Num(Int(id))) && id < 0x1_0000_0000_0000_0000 ::
        && calls.pending == old(calls.pending) - {id}
        && (forall other | other in old(calls.pending) && other != id :: old(calls.pending)[other].queue == [])
        && (id in old(calls.pending) && v.Get("error").None? ==>
              old(calls.pending)[id].queue == [Ok(v.GetOrNull("result"))])
        && (id in old(calls.pending) && v.Get("error").Some? ==>
              var error := v.Get("error").value;
              var message := if error.GetStr("message").Some? then error.GetStr("message").value
                             else "codex app-server error";
              old(calls.pending)[id].queue == [Err(Failure(message, error.Get("code"), error.Get("data")))])
      // anything else
      ensures !(v.Get("method").None? && v.Get("id").Some? && v.Get("id").value.AsU64().Some?) ==>
        && calls.pending == old(calls.pending)
        && forall id | id in calls.pending :: calls.pending[id].queue == []
      ensures v.Get("method").Some? && v.Get("id").Some? ==>
        && (forall r | Carries(v, r) && |old(requests.pending)| < 128 && !HasId(old(requests.pending), r.requestId) ::
              requests.pending == old(requests.pending)[KeyOf(r.requestId) := r])
        && ((forall r | Carries(v, r) ::
               |old(requests.pending)| >= 128 || HasId(old(requests.pending), r.requestId)) ==>
              requests.pending == old(requests.pending))
      ensures (v.Get("method").None? || v.Get("id").None?)
              && !(v.Get("method").None? && v.Get("id").Some? && v.Get("id").value.AsU64().Some?) ==>
        var params := if v.Get("params").Some? then v.Get("params").value else v;
        && requests.written == old(requests.written) && requests.events == old(requests.events)
        && requests.pending.Keys <= old(requests.pending).Keys
        && forall k | k in old(requests.pending) ::
             && (k in requests.pending ==> requests.pending[k] == old(requests.pending)[k])
             && (k !in requests.pending <==>
                   || (v.Get("method") == Some(Str("serverRequest/resolved"))
                       && Resolves(params, old(requests.pending)[k]))
                   || (v.Get("method") == Some(Str("turn/completed"))
                       && Completes(params, old(requests.pending)[k])))
    {
      FrameIs(v);
      if Classify(v).Response? {
        ResponseIs(v, Classify(v).id, Classify(v).reply);
      }
      hide Classify, Carries, Resolves, Completes, KeyOf;
      match Classify(v)
      case ServerRequest =>
        requests.Receive(v, ok);
      case Response(id, reply) =>
        var matched := calls.DispatchResponse(id, reply);
      case Notification(name, params) =>
        requests.Notice(name, params);
    }
  }

  // ---------------------------------------------------------------- the table's history

  datatype Fate =
    | Pending
    | Replied(reply: ClientReply, written: bool)
    | WasResolved(params: Value)
    | WasCompleted(params: Value)

  /** One admission, and what became of it. */
  datatype Ticket = Ticket(request: Request, fate: Fate)

  datatype History = History(
    table: Table,
    tickets: seq<Ticket>,       // in the order of admission
    numbers: map<string, nat>,  // the ticket of each key in the table
    results: seq<nat>)          // the tickets of the result frames, in the order written

  datatype Action =
    | Received(v: Value)
    | Responded(reply: ClientReply, ok: bool)
    | Notified(name: string, params: Value)

  function KeyOfTicket(t: Ticket): string {
    KeyOf(t.request.requestId)
  }

  /** Tickets that have left the table, and why. */
  function Ended(tickets: seq<Ticket>, table: Table, fate: Fate): (r: seq<Ticket>)
    ensures |r| == |tickets|
  {
    seq(|tickets|, n requires 0 <= n < |tickets| =>
      if tickets[n].fate.Pending? && KeyOfTicket(tickets[n]) !in table then tickets[n].(fate := fate) else tickets[n])
  }

  /** The table has shrunk to `table`, for the reason `fate`. */
  function Shrunk(h: History, table: Table, fate: Fate): History {
    h.(table := table, tickets := Ended(h.tickets, table, fate),
       numbers := map k | k in h.numbers && k in table :: h.numbers[k])
  }

  function Answer(h: History, reply: ClientReply, ok: bool): History {
    var key := KeyOf(reply.requestId);
    var shrunk := Shrunk(h, h.table - {key}, Replied(reply, ok));
    if ok && key in h.numbers then shrunk.(results := h.results + [h.numbers[key]]) else shrunk
  }

  function Step(h: History, a: Action): History {
    match a
    case Received(v) =>
      (match Admission(h.table, v)
       case Ok(request) => Admitted(h, KeyOf(request.requestId), request)
       case Err(_) => h)
    case Responded(reply, ok) => if Fits(h.table, reply) then Answer(h, reply, ok) else h
    case Notified(name, params) =>
      Shrunk(h, Noticed(h.table, name, params),
             if name == "turn/completed" then WasCompleted(params) else WasResolved(params))
  }

  function Admitted(h: History, key: string, request: Request): History {
    h.(table := h.table[key := request], tickets := h.tickets + [Ticket(request, Pending)],
       numbers := h.numbers[key := |h.tickets|])
  }

  function Run(h: History, actions: seq<Action>): History {
    if actions == [] then h else Step(Run(h, actions[..|actions| - 1]), actions[|actions| - 1])
  }

  const START := History(map[], [], map[], [])

  /** The table is the pending tickets: each key has exactly one. */
  predicate TableIsPending(h: History) {
    && Keyed(h.table) && |h.table| <= MAX_PENDING_REQUESTS
    && h.numbers.Keys == h.table.Keys
    && (forall k | k in h.numbers ::
          h.numbers[k] < |h.tickets| && h.tickets[h.numbers[k]] == Ticket(h.table[k], Pending))
    && forall n | 0 <= n < |h.tickets| && h.tickets[n].fate.Pending? ::
         KeyOfTicket(h.tickets[n]) in h.numbers && h.numbers[KeyOfTicket(h.tickets[n])] == n
  }

  /** A ticket left the table by something that fits its own request. */
  predicate Deserved(t: Ticket) {
    match t.fate
    case Pending => true
    case Replied(reply, _) => IsTo(t.request, reply) && Suits(t.request, reply)
    case WasResolved(params) => Resolves(params, t.request)
    case WasCompleted(params) => Completes(params, t.request)
  }

  /** The result frames written are those of the tickets whose reply was written, one each. */
  predicate ResultsAreReplies(h: History) {
    && (forall j | 0 <= j < |h.results| ::
          h.results[j] < |h.tickets| && h.tickets[h.results[j]].fate.Replied? && h.tickets[h.results[j]].fate.written)
    && (forall i, j | 0 <= i < j < |h.results| :: h.results[i] != h.results[j])
    && forall n | 0 <= n < |h.tickets| && h.tickets[n].fate.Replied? && h.tickets[n].fate.written :: n in h.results
  }

  predicate AllDeserved(tickets: seq<Ticket>) {
    forall n | 0 <= n < |tickets| :: Deserved(tickets[n])
  }

  predicate Inv(h: History) {
    TableIsPending(h) && AllDeserved(h.tickets) && ResultsAreReplies(h)
  }

  lemma AdmitKeeps(h: History, request: Request)
    requires Inv(h) && |h.table| < MAX_PENDING_REQUESTS && KeyOf(request.requestId) !in h.table
    ensures Inv(Admitted(h, KeyOf(request.requestId), request))
  {
    AdmitKeepsTable(h, request);
    hide KeyOf, TableIsPending;
    var t := Admitted(h, KeyOf(request.requestId), request);
    assert Deserved(Ticket(request, Pending));
    hide Deserved;
    assert AllDeserved(t.tickets);
    hide AllDeserved;
    assert ResultsAreReplies(t);
  }

  lemma AdmitKeepsTable(h: History, request: Request)
    requires TableIsPending(h) && |h.table| < MAX_PENDING_REQUESTS && KeyOf(request.requestId) !in h.table
    ensures TableIsPending(Admitted(h, KeyOf(request.requestId), request))
  {
    hide KeyOf;
  }

  /** Shrinking the table ends exactly the tickets whose keys went. */
  lemma ShrunkKeeps(h: History, table: Table, fate: Fate)
    requires TableIsPending(h) && !fate.Pending?
    requires table.Keys <= h.table.Keys && forall k | k in table :: table[k] == h.table[k]
    ensures TableIsPending(Shrunk(h, table, fate))
  {
    hide KeyOf;
    SmallerTable(table, h.table);
    var t := Shrunk(h, table, fate);
    forall k | k in t.numbers
      ensures t.numbers[k] < |t.tickets| && t.tickets[t.numbers[k]] == Ticket(t.table[k], Pending)
    {
      StillPending(h, table, fate, k);
    }
    forall n | 0 <= n < |t.tickets| && t.tickets[n].fate.Pending?
      ensures KeyOfTicket(t.tickets[n]) in t.numbers && t.numbers[KeyOfTicket(t.tickets[n])] == n
    {
      StillMapped(h, table, fate, n);
    }
    hide Ended, KeyOfTicket;
  }

  /** A ticket whose key stays in the table is untouched. */
  lemma StillPending(h: History, table: Table, fate: Fate, k: string)
    requires TableIsPending(h) && k in h.numbers && k in table && table[k] == h.table[k]
    ensures h.numbers[k] < |h.tickets| && Ended(h.tickets, table, fate)[h.numbers[k]] == Ticket(table[k], Pending)
  {
    hide KeyOf;
    assert h.tickets[h.numbers[k]] == Ticket(h.table[k], Pending);
  }

  /** A pending ticket was pending before, and its key has stayed. */
  lemma StillMapped(h: History, table: Table, fate: Fate, n: nat)
    requires TableIsPending(h) && !fate.Pending? && n < |h.tickets| && Ended(h.tickets, table, fate)[n].fate.Pending?
    ensures Ended(h.tickets, table, fate)[n] == h.tickets[n] && KeyOfTicket(h.tickets[n]) in table
    ensures KeyOfTicket(h.tickets[n]) in h.numbers && h.numbers[KeyOfTicket(h.tickets[n])] == n
  {
    hide KeyOf, KeyOfTicket;
  }

  lemma ShrunkDeserved(h: History, table: Table, fate: Fate)
    requires TableIsPending(h) && AllDeserved(h.tickets)
    requires forall k | k in h.table && k !in table :: Deserved(Ticket(h.table[k], fate))
    ensures AllDeserved(Ended(h.tickets, table, fate))
  {
    hide KeyOf, Deserved, Keyed;
    forall n | 0 <= n < |h.tickets| ensures Deserved(Ended(h.tickets, table, fate)[n]) {
      assert Deserved(h.tickets[n]);
    }
  }

  /** Ending a ticket by anything but a written reply concerns no result frame. */
  lemma ShrunkResults(h: History, table: Table, fate: Fate)
    requires ResultsAreReplies(h) && !(fate.Replied? && fate.written)
    ensures ResultsAreReplies(Shrunk(h, table, fate))
  {
    hide KeyOf;
  }

  lemma ResultsIrrelevant(h: History, results: seq<nat>)
    requires TableIsPending(h)
    ensures TableIsPending(h.(results := results))
  {
  }

  lemma AnswerKeeps(h: History, reply: ClientReply, ok: bool)
    requires Inv(h) && Fits(h.table, reply)
    ensures Inv(Answer(h, reply, ok))
  {
    hide KeyOf;
    var key, fate := KeyOf(reply.requestId), Replied(reply, ok);
    var table := h.table - {key};
    assert Deserved(Ticket(h.table[key], fate));
    hide Deserved, Fits, IsTo, Suits;
    ShrunkKeeps(h, table, fate);
    ShrunkDeserved(h, table, fate);
    hide TableIsPending, AllDeserved;
    ResultsIrrelevant(Shrunk(h, table, fate), Answer(h, reply, ok).results);
    if ok {
      AnswerResults(h, reply);
    } else {
      ShrunkResults(h, table, fate);
    }
    hide ResultsAreReplies, Ended;
  }

  lemma AnswerResults(h: History, reply: ClientReply)
    requires TableIsPending(h) && ResultsAreReplies(h) && KeyOf(reply.requestId) in h.table
    ensures ResultsAreReplies(Answer(h, reply, true))
  {
    hide KeyOf, Keyed;
    var key := KeyOf(reply.requestId);
    var t, n := Answer(h, reply, true), h.numbers[key];
    assert t.results == h.results + [n];
    OneEnded(h, key, Replied(reply, true));
    hide Ended, TableIsPending;
  }

  /** Taking one key out of the table ends its ticket and no other. */
  lemma OneEnded(h: History, key: string, fate: Fate)
    requires TableIsPending(h) && key in h.table
    ensures h.numbers[key] < |h.tickets| && h.tickets[h.numbers[key]].fate.Pending?
    ensures Ended(h.tickets, h.table - {key}, fate)
         == h.tickets[h.numbers[key] := h.tickets[h.numbers[key]].(fate := fate)]
  {
    hide KeyOf;
    var n := h.numbers[key];
    assert key in h.numbers && h.tickets[n] == Ticket(h.table[key], Pending);
    forall m | 0 <= m < |h.tickets| && m != n && h.tickets[m].fate.Pending?
      ensures KeyOfTicket(h.tickets[m]) in h.table - {key}
    {
      assert KeyOfTicket(h.tickets[m]) in h.numbers;
    }
  }

  lemma NoticeKeeps(h: History, name: string, params: Value)
    requires Inv(h)
    ensures Inv(Step(h, Notified(name, params)))
  {
    hide Resolves, Completes, IsTo, Suits, KeyOf;
    var table := Noticed(h.table, name, params);
    var fate := if name == "turn/completed" then WasCompleted(params) else WasResolved(params);
    ShrunkKeeps(h, table, fate);
    ShrunkDeserved(h, table, fate);
    ShrunkResults(h, table, fate);
  }

  lemma {:induction false} StepKeeps(h: History, a: Action)
    requires Inv(h)
    ensures Inv(Step(h, a))
  {
    match a
    case Received(v) =>
      if Admission(h.table, v).Ok? {
        AdmitKeeps(h, Admission(h.table, v).value);
      }
    case Responded(reply, ok) =>
      if Fits(h.table, reply) {
        AnswerKeeps(h, reply, ok);
      }
    case Notified(name, params) => NoticeKeeps(h, name, params);
  }

  lemma {:induction false} RunKeeps(actions: seq<Action>)
    ensures Inv(Run(START, actions))
  {
    if actions != [] {
      RunKeeps(actions[..|actions| - 1]);
      StepKeeps(Run(START, actions[..|actions| - 1]), actions[|actions| - 1]);
    }
  }

  // ---------------------------------------------------------------- what every run guarantees

  /** Conservation: each admitted request is pending or has exactly one end, which was meant for it (a reply of
      its own thread, turn and id, a resolution of its thread and id, or the completion of its own turn); the
      pending ones are the table, at most 128, each under its own key; and each admission has at most one result
      frame, and one exactly when its reply was written. */
  lemma {:induction false} Conservation(actions: seq<Action>)
    ensures var h := Run(START, actions);
      && |h.table| <= 128
      && (forall k | k in h.table :: k == KeyOf(h.table[k].requestId)
            && exists n | 0 <= n < |h.tickets| :: h.tickets[n] == Ticket(h.table[k], Pending))
      && (forall n | 0 <= n < |h.tickets| && h.tickets[n].fate.Pending? ::
            KeyOfTicket(h.tickets[n]) in h.table && h.table[KeyOfTicket(h.tickets[n])] == h.tickets[n].request)
      && (forall m, n | 0 <= m < n < |h.tickets| && h.tickets[m].fate.Pending? && h.tickets[n].fate.Pending? ::
            h.tickets[m].request.requestId != h.tickets[n].request.requestId)
      && AllDeserved(h.tickets)
      && (forall i, j | 0 <= i < j < |h.results| :: h.results[i] != h.results[j])
      && (forall n | 0 <= n < |h.tickets| ::
            n in h.results <==> h.tickets[n].fate.Replied? && h.tickets[n].fate.written)
  {
    hide KeyOf, Run, AllDeserved;
    RunKeeps(actions);
    var h := Run(START, actions);
    forall k | k in h.table ensures exists n | 0 <= n < |h.tickets| :: h.tickets[n] == Ticket(h.table[k], Pending) {
      assert k in h.numbers && h.tickets[h.numbers[k]] == Ticket(h.table[k], Pending);
    }
  }

  /** What one action makes of ticket `n`: nothing, its end, or its admission. */
  lemma TicketStep(h: History, a: Action, n: nat)
    requires Inv(h) && n < |Step(h, a).tickets|
    ensures var t := Step(h, a).tickets[n];
      if n >= |h.tickets| then a.Received? && Carries(a.v, t.request) && t.fate.Pending?
      else t == h.tickets[n] || (h.tickets[n].fate.Pending? && t.request == h.tickets[n].request && EndedBy(t.fate, a))
  {
    hide KeyOf, Carries, Fits, Inv, Ended, Noticed;
    match a
    case Received(v) =>
      if DecodeRequest(v).Some? {
        DecodedIs(v, DecodeRequest(v).value);
      }
      hide DecodeRequest;
    case Responded(reply, ok) => OneOf(h, h.table - {KeyOf(reply.requestId)}, Replied(reply, ok), n);
    case Notified(name, params) =>
      OneOf(h, Noticed(h.table, name, params),
            if name == "turn/completed" then WasCompleted(params) else WasResolved(params), n);
      if name != "serverRequest/resolved" && name != "turn/completed" {
        KeptByOthers(h, name, params, n);
      }
  }

  lemma OneOf(h: History, table: Table, fate: Fate, n: nat)
    requires n < |h.tickets|
    ensures var t := Ended(h.tickets, table, fate)[n];
      || t == h.tickets[n]
      || (h.tickets[n].fate.Pending? && t == h.tickets[n].(fate := fate) && KeyOfTicket(h.tickets[n]) !in table)
  {
    hide KeyOf;
  }

  /** Other notifications end nothing. */
  lemma KeptByOthers(h: History, name: string, params: Value, n: nat)
    requires Inv(h) && n < |h.tickets| && name != "serverRequest/resolved" && name != "turn/completed"
    ensures h.tickets[n].fate.Pending? ==> KeyOfTicket(h.tickets[n]) in Noticed(h.table, name, params)
  {
    hide KeyOf, AllDeserved, ResultsAreReplies;
    if h.tickets[n].fate.Pending? {
      assert KeyOfTicket(h.tickets[n]) in h.numbers;
    }
  }

  /** The action is the reply, the resolution or the completion that the fate tells of. */
  predicate EndedBy(fate: Fate, a: Action) {
    match fate
    case Pending => false
    case Replied(reply, written) => a == Responded(reply, written)
    case WasResolved(params) => a == Notified("serverRequest/resolved", params)
    case WasCompleted(params) => a == Notified("turn/completed", params)
  }

  /** Nothing is made up: each admitted request came in a frame that carries it, and each end is a reply, a resolution
      or a completion that came. */
  lemma {:induction false} EverythingCame(actions: seq<Action>, n: nat)
    requires n < |Run(START, actions).tickets|
    ensures var t := Run(START, actions).tickets[n];
      && (exists v :: Received(v) in actions && Carries(v, t.request))
      && (t.fate.Pending? || exists a :: a in actions && EndedBy(t.fate, a))
  {
    if actions != [] {
      var front, a := actions[..|actions| - 1], actions[|actions| - 1];
      var h := Run(START, front);
      RunKeeps(front);
      TicketStep(h, a, n);
      assert actions == front + [a];
      hide Carries, Step, Inv;
      if n < |h.tickets| {
        EverythingCame(front, n);
      } else {
        assert Received(a.v) in actions;
      }
    }
  }

  /** No request is admitted twice or comes back: a ticket once ended keeps its end. */
  lemma {:induction false} EndsAreFinal(h: History, more: seq<Action>, n: nat)
    requires n < |h.tickets| && !h.tickets[n].fate.Pending?
    ensures n < |Run(h, more).tickets| && Run(h, more).tickets[n] == h.tickets[n]
  {
    if more != [] {
      EndsAreFinal(h, more[..|more| - 1], n);
      hide Admission, Noticed, KeyOf, Fits;
    }
  }
}
