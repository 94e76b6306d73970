/** Domain events and their stable identities: `src/events.rs`. The SHA-256 digest is not modelled; an
    identity is the text that is digested. */
module Events {
  import opened Json
  import opened Text
  import opened EventStores

  const TAG := "baijimu-codex-domain-event-v1"

  datatype DomainEvent = DomainEvent(name: string, preimage: string, occurredAt: string, payload: Value)

  // ---------------------------------------------------------------- normalisation

  predicate FinalStatus(status: string) {
    status == "completed" || status == "interrupted" || status == "failed"
  }

  function NormalizeTurnCompleted(params: Value, occurredAt: string, version: string)
    : Result<Option<DomainEvent>, string>
  {
    match params.GetNonEmpty("threadId")
    case None => Err("turn/completed is missing string field threadId")
    case Some(thread) =>
      match params.Get("turn")
      case Some(Obj(turn)) =>
        (match Obj(turn).GetNonEmpty("id")
         case None => Err("turn/completed is missing turn.id")
         case Some(id) =>
           match Obj(turn).GetStr("status")
           case Some(status) =>
             if !FinalStatus(status) then Err("turn/completed has no final turn.status")
             else Ok(Some(DomainEvent(
               "codexTurnCompleted", Preimage("codexTurnCompleted", [thread, id]), occurredAt,
               TurnPayload(Obj(turn), thread, id, status, occurredAt, version))))
           case None => Err("turn/completed has no final turn.status"))
      case _ => Err("turn/completed is missing object field turn")
  }

  function TurnPayload(
    turn: Value, thread: string, id: string, status: string, occurredAt: string, version: string): Value
  {
    Obj(map["schemaVersion" := Num(Int(1)), "threadId" := Str(thread), "turnId" := Str(id), "status" := Str(status),
            "completedAt" := turn.GetOrNull("completedAt"), "durationMs" := turn.GetOrNull("durationMs"),
            "error" := turn.GetOrNull("error"),
            "occurredAt" := Str(occurredAt), "source" := Str("codex-app-server"),
            "sourceMethod" := Str("turn/completed"), "connectorVersion" := Str(version)])
  }

  function LifecycleName(sourceMethod: string): Option<string> {
    if sourceMethod == "thread/closed" then Some("codexThreadClosed")
    else if sourceMethod == "thread/archived" then Some("codexThreadArchived")
    else if sourceMethod == "thread/deleted" then Some("codexThreadDeleted")
    else None
  }

  function NormalizeLifecycle(
    name: string, sourceMethod: string, params: Value, occurredAt: string, streamId: string, sequence: nat,
    version: string)
    : Result<Option<DomainEvent>, string>
  {
    match params.GetNonEmpty("threadId")
    case None => Err(sourceMethod + " is missing string field threadId")
    case Some(thread) => Ok(Some(DomainEvent(
      name, Preimage(name, [streamId, Decimal(sequence), thread]), occurredAt,
      Obj(map["schemaVersion" := Num(Int(1)), "threadId" := Str(thread), "occurredAt" := Str(occurredAt),
              "source" := Str("codex-app-server"), "sourceMethod" := Str(sourceMethod),
              "connectorVersion" := Str(version)]))))
  }

  function Normalize(e: Event, streamId: string, version: string): Result<Option<DomainEvent>, string> {
    var n := e.notice;
    if n.name == "turn/completed" then NormalizeTurnCompleted(n.params, n.receivedAt, version)
    else match LifecycleName(n.name)
    case Some(name) => NormalizeLifecycle(name, n.name, n.params, n.receivedAt, streamId, e.sequence, version)
    case None => Ok(None)
  }

  // ---------------------------------------------------------------- what a domain event says

  /** The notification names a thread. */
  predicate OfThread(n: Notice, thread: string) {
    thread != "" && n.params.Get("threadId") == Some(Str(thread))
  }

  /** It is a turn that has ended, in one of three ways. */
  predicate OfTurn(n: Notice, turn: string, status: string) {
    && turn != "" && status in {"completed", "interrupted", "failed"}
    && n.params.GetOrNull("turn").Get("id") == Some(Str(turn))
    && n.params.GetOrNull("turn").Get("status") == Some(Str(status))
  }

  /** The members every payload has. */
  predicate Common(payload: Value, n: Notice, thread: string, version: string) {
    && payload.Get("schemaVersion") == Some(Num(Int(1))) && payload.Get("threadId") == Some(Str(thread))
    && payload.Get("occurredAt") == Some(Str(n.receivedAt)) && payload.Get("source") == Some(Str("codex-app-server"))
    && payload.Get("sourceMethod") == Some(Str(n.name)) && payload.Get("connectorVersion") == Some(Str(version))
  }

  /** The event of a completed turn: its thread, its turn and its status, the turn's own times and error, and nothing
      more. */
  predicate TellsOfTurn(d: DomainEvent, n: Notice, thread: string, id: string, status: string, version: string) {
    && d.name == "codexTurnCompleted" && d.preimage == TurnText(thread, id) && d.occurredAt == n.receivedAt
    && Common(d.payload, n, thread, version)
    && d.payload.Get("turnId") == Some(Str(id)) && d.payload.Get("status") == Some(Str(status))
    && (forall k | k in {"completedAt", "durationMs", "error"} ::
          d.payload.Get(k) == Some(n.params.GetOrNull("turn").GetOrNull(k)))
    && d.payload.Obj?
    && d.payload.fields.Keys == {"schemaVersion", "threadId", "turnId", "status", "completedAt", "durationMs", "error",
                                 "occurredAt", "source", "sourceMethod", "connectorVersion"}
  }

  /** A completed turn makes its event exactly when it names its thread, its turn and one of the three final statuses,
      and is an error otherwise. */
  lemma TurnEventIs(e: Event, streamId: string, version: string)
    requires e.notice.name == "turn/completed"
    ensures var r := Normalize(e, streamId, version);
      && (r.Err? <==> !exists thread, id, status :: OfThread(e.notice, thread) && OfTurn(e.notice, id, status))
      && forall thread, id, status | OfThread(e.notice, thread) && OfTurn(e.notice, id, status) ::
           r.Ok? && r.value.Some? && TellsOfTurn(r.value.value, e.notice, thread, id, status, version)
  {
    hide Preimage, TurnPayload, TellsOfTurn;
    var turn := e.notice.params.GetOrNull("turn");
    if Normalize(e, streamId, version).Ok? {
      assert OfThread(e.notice, e.notice.params.GetStr("threadId").value);
      assert OfTurn(e.notice, turn.GetStr("id").value, turn.GetStr("status").value);
    }
    forall thread, id, status | OfThread(e.notice, thread) && OfTurn(e.notice, id, status)
      ensures var r := Normalize(e, streamId, version);
        r.Ok? && r.value.Some? && TellsOfTurn(r.value.value, e.notice, thread, id, status, version)
    {
      PayloadTells(e.notice, thread, id, status, version);
    }
  }

  lemma PayloadTells(n: Notice, thread: string, id: string, status: string, version: string)
    requires n.name == "turn/completed"
    ensures var payload := TurnPayload(n.params.GetOrNull("turn"), thread, id, status, n.receivedAt, version);
      TellsOfTurn(DomainEvent("codexTurnCompleted", TurnText(thread, id), n.receivedAt, payload),
                  n, thread, id, status, version)
  {
    var turn := n.params.GetOrNull("turn");
    PayloadCommon(turn, thread, id, status, n.receivedAt, version);
    PayloadOwn(turn, thread, id, status, n.receivedAt, version);
    PayloadKeys(turn, thread, id, status, n.receivedAt, version);
    hide Preimage, TurnPayload;
  }

  lemma PayloadCommon(turn: Value, thread: string, id: string, status: string, occurredAt: string, version: string)
    ensures var payload := TurnPayload(turn, thread, id, status, occurredAt, version);
      && payload.Get("schemaVersion") == Some(Num(Int(1))) && payload.Get("threadId") == Some(Str(thread))
      && payload.Get("occurredAt") == Some(Str(occurredAt)) && payload.Get("source") == Some(Str("codex-app-server"))
      && payload.Get("sourceMethod") == Some(Str("turn/completed"))
      && payload.Get("connectorVersion") == Some(Str(version))
  {
  }

  lemma PayloadOwn(turn: Value, thread: string, id: string, status: string, occurredAt: string, version: string)
    ensures var payload := TurnPayload(turn, thread, id, status, occurredAt, version);
      && payload.Get("turnId") == Some(Str(id)) && payload.Get("status") == Some(Str(status))
      && payload.Get("completedAt") == Some(turn.GetOrNull("completedAt"))
      && payload.Get("durationMs") == Some(turn.GetOrNull("durationMs"))
      && payload.Get("error") == Some(turn.GetOrNull("error"))
  {
  }

  lemma PayloadKeys(turn: Value, thread: string, id: string, status: string, occurredAt: string, version: string)
    ensures var payload := TurnPayload(turn, thread, id, status, occurredAt, version);
      payload.Obj? && payload.fields.Keys
        == {"schemaVersion", "threadId", "turnId", "status", "completedAt", "durationMs", "error", "occurredAt",
            "source", "sourceMethod", "connectorVersion"}
  {
  }

  /** A thread that is closed, archived or deleted makes the event of that name exactly when it names the thread; any
      other notification makes none. */
  lemma LifecycleEventIs(e: Event, streamId: string, version: string)
    requires e.notice.name != "turn/completed"
    ensures var r := Normalize(e, streamId, version);
      if e.notice.name !in {"thread/closed", "thread/archived", "thread/deleted"} then r == Ok(None)
      else
        && (r.Err? <==> forall thread :: !OfThread(e.notice, thread))
        && forall thread | OfThread(e.notice, thread) ::
             r.Ok? && r.value.Some?
             && var d := r.value.value;
             && (e.notice.name == "thread/closed" ==> d.name == "codexThreadClosed")
             && (e.notice.name == "thread/archived" ==> d.name == "codexThreadArchived")
             && (e.notice.name == "thread/deleted" ==> d.name == "codexThreadDeleted")
             && d.preimage == Preimage(d.name, [streamId, Decimal(e.sequence), thread])
             && d.occurredAt == e.notice.receivedAt && Common(d.payload, e.notice, thread, version)
             && d.payload.fields.Keys == {"schemaVersion", "threadId", "occurredAt", "source", "sourceMethod",
                                          "connectorVersion"}
  {
    hide Preimage;
    if Normalize(e, streamId, version).Ok? && e.notice.params.GetStr("threadId").Some? {
      var thread := e.notice.params.GetStr("threadId").value;
      assert thread == "" || OfThread(e.notice, thread);
    }
  }

  // ---------------------------------------------------------------- the digested text

  /** `stable_event_id` feeds its digest the tag, the event name and the parts, each behind a NUL. */
  method StableEventId(name: string, identity: seq<string>) returns (digested: string)
    ensures digested == Preimage(name, identity)
    ensures "baijimu-codex-domain-event-v1\0" + name <= digested
  {
    digested := TAG + "\0";
    digested := digested + name;
    assert Separated([name] + identity[..0]) == name;
    for i := 0 to |identity|
      invariant digested == TAG + "\0" + Separated([name] + identity[..i])
    {
      SeparatedSnoc([name] + identity[..i], identity[i]);
      assert [name] + identity[..i + 1] == ([name] + identity[..i]) + [identity[i]];
      digested := digested + "\0";
      digested := digested + identity[i];
    }
    assert identity[..|identity|] == identity;
    assert TAG + "\0" + Separated([name] + identity) == Separated([TAG] + ([name] + identity));
    assert [TAG] + ([name] + identity) == [TAG, name] + identity;
  }

  /** The fields with a NUL between each two. */
  function Separated(fields: seq<string>): string {
    if fields == [] then "" else if |fields| == 1 then fields[0] else fields[0] + "\0" + Separated(fields[1..])
  }

  function Preimage(name: string, identity: seq<string>): string {
    Separated([TAG, name] + identity)
  }

  lemma {:induction false} SeparatedSnoc(fields: seq<string>, last: string)
    requires fields != []
    ensures Separated(fields + [last]) == Separated(fields) + "\0" + last
  {
    assert (fields + [last])[1..] == fields[1..] + [last];
    if |fields| > 1 {
      SeparatedSnoc(fields[1..], last);
    } else {
      assert fields[1..] + [last] == [last];
    }
  }

  // ---------------------------------------------------------------- reading it back

  /** The fields of a text, cut at every NUL. */
  function Split(s: string, from: nat := 0): seq<string>
    requires from <= |s|
    decreases |s|, |s| - from
  {
    if from == |s| then [s]
    else if s[from] == '\0' then [s[..from]] + Split(s[from + 1..])
    else Split(s, from + 1)
  }

  lemma {:induction false} SplitScans(field: string, rest: string, from: nat)
    requires '\0' !in field && from <= |field|
    ensures Split(field + "\0" + rest, from) == [field] + Split(rest)
    decreases |field| - from
  {
    var s := field + "\0" + rest;
    if from < |field| {
      assert s[from] == field[from];
      SplitScans(field, rest, from + 1);
    } else {
      assert s[..from] == field && s[from + 1..] == rest;
    }
  }

  lemma {:induction false} SplitWhole(field: string, from: nat)
    requires '\0' !in field && from <= |field|
    ensures Split(field, from) == [field]
    decreases |field| - from
  {
    if from < |field| {
      SplitWhole(field, from + 1);
    }
  }

  lemma {:induction false} SplitFieldsNulFree(s: string, from: nat)
    requires from <= |s| && '\0' !in s[..from]
    ensures Split(s, from) != [] && forall f | f in Split(s, from) :: '\0' !in f
    decreases |s|, |s| - from
  {
    if from < |s| {
      if s[from] == '\0' {
        SplitFieldsNulFree(s[from + 1..], 0);
      } else {
        assert s[..from + 1] == s[..from] + [s[from]];
        SplitFieldsNulFree(s, from + 1);
      }
    } else {
      assert s[..from] == s;
    }
  }

  /** The fields can be read back exactly when none of them contains a NUL. */
  lemma {:induction false} SeparatedReadsBack(fields: seq<string>)
    requires fields != []
    ensures Split(Separated(fields)) == fields <==> forall f | f in fields :: '\0' !in f
  {
    if forall f | f in fields :: '\0' !in f {
      SplitSeparated(fields);
    } else {
      SplitFieldsNulFree(Separated(fields), 0);
    }
  }

  lemma {:induction false} SplitSeparated(fields: seq<string>)
    requires fields != [] && forall f | f in fields :: '\0' !in f
    ensures Split(Separated(fields)) == fields
  {
    assert fields[0] in fields;
    if |fields| == 1 {
      SplitWhole(fields[0], 0);
    } else {
      SplitScans(fields[0], Separated(fields[1..]), 0);
      SplitSeparated(fields[1..]);
    }
  }

  // ---------------------------------------------------------------- main results

  function TurnText(thread: string, turn: string): string {
    Preimage("codexTurnCompleted", [thread, turn])
  }

  lemma PreimageCut(name: string, identity: seq<string>)
    requires identity != []
    ensures Preimage(name, identity) == TAG + "\0" + (name + "\0" + Separated(identity))
  {
    SeparatedCons(name, identity);
    SeparatedCons(TAG, [name] + identity);
    assert [TAG] + ([name] + identity) == [TAG, name] + identity;
  }

  lemma SeparatedCons(first: string, rest: seq<string>)
    requires rest != []
    ensures Separated([first] + rest) == first + "\0" + Separated(rest)
  {
    assert ([first] + rest)[1..] == rest;
  }

  lemma CutAtNul(a: string, b: string, c: string, d: string)
    requires '\0' !in a && '\0' !in c && a + "\0" + b == c + "\0" + d
    ensures a == c && b == d
  {
    var s := a + "\0" + b;
    assert s[|a|] == '\0' && s[|c|] == '\0';
    assert s[..|a|] == a && s[..|c|] == c;
    assert forall i | 0 <= i < |a| :: s[i] != '\0';
    assert forall i | 0 <= i < |c| :: s[i] != '\0';
    assert s[|a| + 1..] == b && s[|c| + 1..] == d;
  }

  /** Equal preimages: equal event names and equal separated identities, whatever the identities contain. */
  lemma {:induction false} PreimageSplits(name: string, a: seq<string>, other: string, b: seq<string>)
    requires '\0' !in name && '\0' !in other && a != [] && b != []
    ensures Preimage(name, a) == Preimage(other, b) <==> name == other && Separated(a) == Separated(b)
  {
    PreimageCut(name, a);
    PreimageCut(other, b);
    if Preimage(name, a) == Preimage(other, b) {
      CutAtNul(TAG, name + "\0" + Separated(a), TAG, other + "\0" + Separated(b));
      CutAtNul(name, Separated(a), other, Separated(b));
    }
  }

  /** A turn completion's identity is told apart from every other turn's exactly when moving the boundary
      between thread and turn to another NUL is impossible. */
  lemma {:induction false} TurnIdentity(thread: string, turn: string)
    requires thread != "" && turn != ""
    ensures (forall t, u | t != "" && u != "" && TurnText(t, u) == TurnText(thread, turn) :: t == thread && u == turn)
      <==> '\0' !in thread[1..] && '\0' !in turn[..|turn| - 1]
  {
    if i :| 1 <= i < |thread| && thread[i] == '\0' {
      var t, u := thread[..i], thread[i + 1..] + "\0" + turn;
      assert thread == t + "\0" + thread[i + 1..];
      assert t + "\0" + u == thread + "\0" + turn;
      SameTurnText(t, u, thread, turn);
      assert thread[1..][i - 1] == '\0' && |t| < |thread|;
    } else if i :| 0 <= i < |turn| - 1 && turn[i] == '\0' {
      var t, u := thread + "\0" + turn[..i], turn[i + 1..];
      assert turn == turn[..i] + "\0" + u;
      assert t + "\0" + u == thread + "\0" + turn;
      SameTurnText(t, u, thread, turn);
      assert turn[..|turn| - 1][i] == '\0' && |t| > |thread|;
    } else {
      assert '\0' !in thread[1..] && '\0' !in turn[..|turn| - 1];
      forall t, u | t != "" && u != "" && TurnText(t, u) == TurnText(thread, turn)
        ensures t == thread && u == turn
      {
        SameTurnText(t, u, thread, turn);
        OnlyBoundary(t, u, thread, turn);
      }
    }
  }

  /** The shared identity is real: a NUL on either side of the boundary. */
  lemma ANulLetsTurnsCollide()
    ensures TurnText("a\0b", "c") == TurnText("a", "b\0c")
  {
    assert "a\0b" + "\0" + "c" == "a" + "\0" + "b\0c";
    SameTurnText("a\0b", "c", "a", "b\0c");
  }

  lemma SameTurnText(t: string, u: string, thread: string, turn: string)
    ensures TurnText(t, u) == TurnText(thread, turn) <==> t + "\0" + u == thread + "\0" + turn
  {
    PreimageSplits("codexTurnCompleted", [t, u], "codexTurnCompleted", [thread, turn]);
    SeparatedCons(t, [u]);
    SeparatedCons(thread, [turn]);
    assert [t] + [u] == [t, u] && [thread] + [turn] == [thread, turn];
  }

  lemma OnlyBoundary(t: string, u: string, thread: string, turn: string)
    requires t != "" && u != "" && t + "\0" + u == thread + "\0" + turn
    requires forall i | 1 <= i < |thread| :: thread[i] != '\0'
    requires forall i | 0 <= i < |turn| - 1 :: turn[i] != '\0'
    ensures t == thread && u == turn
  {
    var s := t + "\0" + u;
    assert s[|t|] == '\0';
    assert forall i | 1 <= i < |thread| :: s[i] != '\0';
    assert forall i | |thread| < i < |s| - 1 :: s[i] == turn[i - |thread| - 1] != '\0';
    assert |t| == |thread|;
    assert s[..|t|] == t && s[..|thread|] == thread;
    assert s[|t| + 1..] == u && s[|thread| + 1..] == turn;
  }

  /** A lifecycle event's identity fixes its kind, stream, sequence and thread; the thread comes last, so
      even a NUL inside it is harmless. */
  lemma LifecycleIdentity(
    name: string, stream: string, sequence: nat, thread: string,
    other: string, stream': string, sequence': nat, thread': string)
    requires '\0' !in name && '\0' !in other && '\0' !in stream && '\0' !in stream'
    requires Preimage(name, [stream, Decimal(sequence), thread])
          == Preimage(other, [stream', Decimal(sequence'), thread'])
    ensures name == other && stream == stream' && sequence == sequence' && thread == thread'
  {
    PreimageSplits(name, [stream, Decimal(sequence), thread], other, [stream', Decimal(sequence'), thread']);
    SeparatedThree(stream, Decimal(sequence), thread);
    SeparatedThree(stream', Decimal(sequence'), thread');
    DecimalReadsBack(sequence);
    DecimalReadsBack(sequence');
    CutAtNul(stream, Decimal(sequence) + "\0" + thread, stream', Decimal(sequence') + "\0" + thread');
    CutAtNul(Decimal(sequence), thread, Decimal(sequence'), thread');
  }

  lemma SeparatedThree(a: string, b: string, c: string)
    ensures Separated([a, b, c]) == a + "\0" + (b + "\0" + c)
  {
    SeparatedCons(b, [c]);
    SeparatedCons(a, [b, c]);
    assert [a] + [b, c] == [a, b, c] && [b] + [c] == [b, c];
  }

  /** The domain event of a pushed notification, if it has one. */
  function DomainOf(e: Event, streamId: string, version: string): Option<DomainEvent> {
    match Normalize(e, streamId, version)
    case Ok(d) => d
    case Err(_) => None
  }

  predicate IsLifecycle(e: Event) {
    LifecycleName(e.notice.name).Some?
  }

  /** Over everything one process ever pushed: two domain events that share an identity are the same
      lifecycle push, or two completions with the same thread and turn text. */
  lemma {:induction false} IdentitiesOverALog(s: Store, log: seq<Event>, i: nat, j: nat, version: string)
    requires Logs(s, log) && '\0' !in s.streamId && i < |log| && j < |log|
    requires DomainOf(log[i], s.streamId, version).Some? && DomainOf(log[j], s.streamId, version).Some?
    ensures DomainOf(log[i], s.streamId, version).value.preimage == DomainOf(log[j], s.streamId, version).value.preimage
      <==> i == j || (!IsLifecycle(log[i]) && !IsLifecycle(log[j]) && TurnKey(log[i]) == TurnKey(log[j]))
  {
    var e, f, id := log[i], log[j], s.streamId;
    var (name, parts) := IdentityOf(e, id);
    var (other, parts') := IdentityOf(f, id);
    IdentityIs(e, id, version);
    IdentityIs(f, id, version);
    KindOf(e, id);
    KindOf(f, id);
    PreimageSplits(name, parts, other, parts');
    if IsLifecycle(e) && IsLifecycle(f) {
      if Preimage(name, parts) == Preimage(other, parts') {
        LifecycleIdentity(name, id, e.sequence, parts[2], other, id, f.sequence, parts'[2]);
      }
    } else if !IsLifecycle(e) && !IsLifecycle(f) {
      SameTurnText(parts[0], parts[1], parts'[0], parts'[1]);
    }
  }

  /** What a completion's identity depends on: its thread and turn, and nothing of stream or sequence. */
  function TurnKey(e: Event): string {
    StrOf(e.notice.params.Get("threadId")) + "\0" + StrOf(e.notice.params.GetOrNull("turn").Get("id"))
  }

  /** The event name and identity parts behind a domain event. */
  function IdentityOf(e: Event, streamId: string): (string, seq<string>) {
    var params := e.notice.params;
    match LifecycleName(e.notice.name)
    case Some(name) => (name, [streamId, Decimal(e.sequence), StrOf(params.Get("threadId"))])
    case None => ("codexTurnCompleted", [StrOf(params.Get("threadId")), StrOf(params.GetOrNull("turn").Get("id"))])
  }

  function StrOf(v: Option<Value>): string {
    if v.Some? && v.value.Str? then v.value.s else ""
  }

  lemma IdentityIs(e: Event, streamId: string, version: string)
    requires DomainOf(e, streamId, version).Some?
    ensures DomainOf(e, streamId, version).value.preimage
         == Preimage(IdentityOf(e, streamId).0, IdentityOf(e, streamId).1)
    ensures !IsLifecycle(e) ==> e.notice.name == "turn/completed"
  {
  }

  lemma KindOf(e: Event, streamId: string)
    ensures '\0' !in IdentityOf(e, streamId).0
    ensures IsLifecycle(e) <==> IdentityOf(e, streamId).0 != "codexTurnCompleted"
  {
  }
}
