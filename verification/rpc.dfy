/** Calls to the app-server: the pending table, the one-shot reply channels, and what timeouts, late responses
    and the process's exit do to them (`src/app_server.rs`). */
module Rpc {
  import opened Json

  datatype Failure = Failure(message: string, code: Option<Value>, data: Option<Value>)

  type Reply = Result<Value, Failure>

  // ---------------------------------------------------------------- frames

  datatype Frame =
    | ServerRequest
    | Response(id: nat, reply: Reply)
    | Notification(name: string, params: Value)

  function ReplyOf(v: Value): Reply {
    match v.Get("error")
    case Some(error) =>
      Err(Failure(if error.GetStr("message").Some? then error.GetStr("message").value else "codex app-server error",
                  error.Get("code"), error.Get("data")))
    case None => Ok(v.GetOrNull("result"))
  }

  function IdOf(v: Value): Option<nat> {
    if v.Get("id").Some? then v.Get("id").value.AsU64() else None
  }

  /** `dispatch_value`: method and id make a server request, an unsigned id a response, all else a notification. */
  function Classify(v: Value): Frame {
    if v.Get("method").Some? && v.Get("id").Some? then ServerRequest
    else if IdOf(v).Some? then Response(IdOf(v).value, ReplyOf(v))
    else Notification(
      if v.GetStr("method").Some? then v.GetStr("method").value else "codex/notification",
      if v.Get("params").Some? then v.Get("params").value else v)
  }

  /** The failure says what the error member does: its message, if that is a string, its code and its data. */
  predicate Tells(error: Value, failure: Failure) {
    && (error.Get("message").Some? && error.Get("message").value.Str?
        ==> failure.message == error.Get("message").value.s)
    && (error.Get("message").None? || !error.Get("message").value.Str? ==> failure.message == "codex app-server error")
    && failure.code == error.Get("code") && failure.data == error.Get("data")
  }

  /** What a response frame is, and what it gives its caller, member by member. */
  lemma ResponseIs(v: Value, id: nat, reply: Reply)
    ensures Classify(v) == Response(id, reply) <==>
      && v.Get("method").None? && v.Get("id") == Some(Num(Int(id))) && id < 18446744073709551616
      && match reply
         case Ok(result) => v.Get("error").None? && result == v.GetOrNull("result")
         case Err(failure) => v.Get("error").Some? && Tells(v.Get("error").value, failure)
  {
  }

  /** What is neither: a request has both a method and an id, and a notification is all the rest. */
  lemma FrameIs(v: Value)
    ensures Classify(v).ServerRequest? <==> v.Get("method").Some? && v.Get("id").Some?
    ensures Classify(v).Response? <==>
      v.Get("method").None? && exists id: nat :: v.Get("id") == Some(Num(Int(id))) && id < 18446744073709551616
    ensures Classify(v).Notification? ==>
      && (v.GetStr("method").Some? ==> v.GetStr("method") == Some(Classify(v).name))
      && (v.GetStr("method").None? ==> Classify(v).name == "codex/notification")
      && Classify(v).params == (if v.Get("params").Some? then v.Get("params").value else v)
  {
    if v.Get("id").Some? && v.Get("id").value.AsU64().Some? {
      assert v.Get("id") == Some(Num(Int(v.Get("id").value.AsU64().value)));
    }
  }

  // ---------------------------------------------------------------- the session's own methods

  /** `sync_channel(1)`: sending into a full channel blocks while the receiver is there; without it the send fails. */
  class ReplyChannel {
    var queue: seq<Reply>
    var open: bool

    constructor ()
      ensures queue == [] && open
    {
      queue, open := [], true;
    }

    /** `open` is false when the receiver is gone: the reply is dropped. */
    method Send(reply: Reply)
      requires open ==> queue == []
      modifies this`queue
      ensures queue == if open then [reply] else old(queue)
    {
      if open {
        queue := [reply];
      }
    }
  }

  class ProcessSession {
    var nextId: nat
    var pending: map<nat, ReplyChannel>
    var alive: bool
    var initialized: bool
    var exit: Option<Value>

    /** The channels in the table are empty, and no two calls share one. */
    ghost predicate Valid()
      reads this, pending.Values
    {
      && Fresh()
      && forall id :: id in pending ==> pending[id].open && pending[id].queue == []
    }

    ghost predicate Fresh()
      reads this
    {
      && (forall id :: id in pending ==> id < nextId)
      && (forall i, j | i in pending && j in pending && i != j :: pending[i] != pending[j])
      && (alive ==> exit == None)
    }

    constructor ()
      ensures Valid() && alive && !initialized && pending == map[] && exit == None && nextId == 1
    {
      nextId, pending, alive, initialized, exit := 1, map[], true, false, None;
    }

    /** The first steps of `request`: an id never used before, and its channel in the table. */
    method Register() returns (r: Option<(nat, ReplyChannel)>)
      requires Valid()
      modifies this
      ensures Valid() && alive == old(alive) && initialized == old(initialized) && exit == old(exit)
      ensures r.Some? <==> alive
      ensures r.None? ==> pending == old(pending) && nextId == old(nextId)
      ensures r.Some? ==>
        && fresh(r.value.1) && r.value.0 !in old(pending) && r.value.0 == old(nextId) && nextId == old(nextId) + 1
        && pending == old(pending)[r.value.0 := r.value.1]
    {
      if !alive {
        return None;
      }
      var id := nextId;
      nextId := nextId + 1;
      var channel := new ReplyChannel();
      pending := pending[id := channel];
      r := Some((id, channel));
    }

    method RemovePending(id: nat)
      requires Valid()
      modifies this`pending
      ensures Valid() && pending == old(pending) - {id}
    {
      pending := pending - {id};
    }

    /** How `request` ends after a failed write or a timeout: its entry goes, then its receiver. A sender already taken
        from the table then sends into nothing. */
    method GiveUp(id: nat, channel: ReplyChannel)
      requires Valid() && forall other | other in pending && other != id :: pending[other] != channel
      modifies this`pending, channel`open
      ensures Valid() && pending == old(pending) - {id} && !channel.open
    {
      RemovePending(id);
      channel.open := false;
    }

    /** A response frame: exactly the call with its id gets the reply, and leaves the table. */
    method DispatchResponse(id: nat, reply: Reply) returns (matched: bool)
      requires Valid()
      modifies this`pending, pending.Values`queue
      ensures Valid() && pending == old(pending) - {id}
      ensures matched == (id in old(pending))
      ensures matched ==> old(pending)[id].queue == [reply]
      ensures forall other | other in old(pending) && other != id :: old(pending)[other].queue == []
    {
      matched := id in pending;
      if matched {
        var sender := pending[id];
        pending := pending - {id};
        sender.Send(reply);
      }
    }

    /** The first exit wins: a later one changes nothing. */
    method SetExit(cause: Value)
      modifies this`alive, this`initialized, this`exit
      ensures !alive
      ensures old(alive) ==> !initialized && exit == Some(cause)
      ensures !old(alive) ==> initialized == old(initialized) && exit == old(exit)
    {
      var was := alive;
      alive := false;
      if was {
        initialized := false;
        exit := Some(cause);
      }
    }

    /** Drains the table and fails every call that was in it; each channel is sent into once. */
    method FailPending(failure: Failure)
      requires Valid()
      modifies this`pending, pending.Values`queue
      ensures Valid() && pending == map[]
      ensures forall id | id in old(pending) :: old(pending)[id].queue == [Err(failure)]
    {
      var drained := pending;
      pending := map[];
      var left := drained.Keys;
      while left != {}
        invariant Valid() && pending == map[] && left <= drained.Keys
        invariant forall id | id in drained :: drained[id].queue == if id in left then [] else [Err(failure)]
      {
        var id :| id in left;
        drained[id].Send(Err(failure));
        left := left - {id};
      }
    }

    method MarkExited(cause: Value, failure: Failure)
      requires Valid()
      modifies this, pending.Values`queue
      ensures Valid() && !alive && pending == map[] && nextId == old(nextId)
      ensures exit == if old(alive) then Some(cause) else old(exit)
      ensures forall id | id in old(pending) :: old(pending)[id].queue == [Err(failure)]
    {
      SetExit(cause);
      FailPending(failure);
    }

    /** `status` is what `try_wait` says of the child: None while it runs. */
    method RefreshProcessState(status: Option<Value>)
      requires Valid()
      modifies this, pending.Values`queue
      ensures Valid() && nextId == old(nextId) && alive == (old(alive) && status.None?)
      ensures !old(alive) || status.None? ==>
        && pending == old(pending) && exit == old(exit) && initialized == old(initialized)
        && forall id | id in old(pending) :: old(pending)[id].queue == []
      ensures old(alive) && status.Some? ==>
        && pending == map[] && exit == status && !initialized
        && forall id | id in old(pending) ::
             old(pending)[id].queue == [Err(Failure("codex app-server exited", None, None))]
    {
      if alive && status.Some? {
        SetExit(status.value);
        FailPending(Failure("codex app-server exited", None, None));
      }
    }
  }

  // ---------------------------------------------------------------- all interleavings

  datatype Outcome = Returned(reply: Reply) | WriteFailed | TimedOut | Disconnected | Exited

  /** How far `request` has come: passed the liveness check, has its id, is in the table, waits for the reply,
      is to remove its entry again (after a failed write or a timeout), has returned. */
  datatype Phase = Checked | Allocated | Registered | Waiting | Unwritten | Expired | Done(outcome: Outcome)

  /** What took a call's sender out of the table: response frame number `frame`, or the drain at exit. */
  datatype Source = Frame(frame: nat) | Drained(failure: Failure)

  datatype Call = Call(
    id: nat,
    phase: Phase,
    queue: seq<Reply>,       // sent, not yet received
    inFlight: seq<Reply>,    // the sender was removed from the table; this is about to be sent
    since: nat,              // how many frames had been read when it was registered
    source: Option<Source>)

  datatype State = State(
    alive: bool,
    reading: bool,
    writable: bool,
    nextId: nat,
    calls: seq<Call>,
    pending: map<nat, nat>,  // id to call
    read: seq<Value>,
    owner: seq<Option<nat>>, // the call each frame was given to
    unmatched: set<nat>)     // frames reported as `connector/unmatchedResponse`

  const START := State(true, true, true, 1, [], map[], [], [], {})

  datatype Action =
    | Check
    | Allocate(k: nat)
    | Register(k: nat)
    | Write(k: nat, ok: bool)
    | Expire(k: nat)
    | Abandon(k: nat)
    | Receive(k: nat)
    | Read(v: Value)
    | Deliver(k: nat)
    | Exit
    | Drain(failure: Failure)
    | CloseInput
    | StopReading

  predicate Has(s: State, k: nat, p: Phase) {
    k < |s.calls| && s.calls[k].phase == p
  }

  predicate InTable(s: State, k: nat)
    requires k < |s.calls|
  {
    s.calls[k].id in s.pending && s.pending[s.calls[k].id] == k
  }

  /** Some thread still owns the sender. */
  predicate SenderLives(s: State, k: nat)
    requires k < |s.calls|
  {
    s.calls[k].phase.Allocated? || InTable(s, k) || s.calls[k].inFlight != []
  }

  /** A send goes through at once: there is room, or the receiver is gone. */
  predicate CanSend(c: Call) {
    c.phase.Done? || c.queue == []
  }

  function Taken(c: Call, reply: Reply, source: Source): Call {
    c.(inFlight := c.inFlight + [reply], source := Some(source))
  }

  function DrainCalls(s: State, failure: Failure): (calls: seq<Call>)
    ensures |calls| == |s.calls|
  {
    seq(|s.calls|, k requires 0 <= k < |s.calls| =>
      if InTable(s, k) then Taken(s.calls[k], Err(failure), Drained(failure)) else s.calls[k])
  }

  function To(s: State, k: nat, p: Phase): State
    requires k < |s.calls|
  {
    s.(calls := s.calls[k := s.calls[k].(phase := p)])
  }

  /** `remove_pending`, and the error return after it. */
  function Abandoned(s: State, k: nat, o: Outcome): State
    requires k < |s.calls|
  {
    To(s, k, Done(o)).(pending := s.pending - {s.calls[k].id})
  }

  function Received(s: State, v: Value): State {
    match Classify(v)
    case Response(id, reply) => if id in s.pending then Answered(s, v, id, reply) else Heard(s, v, true)
    case _ => Heard(s, v, false)
  }

  function Heard(s: State, v: Value, response: bool): State {
    s.(read := s.read + [v], owner := s.owner + [None],
       unmatched := if response then s.unmatched + {|s.read|} else s.unmatched)
  }

  function Answered(s: State, v: Value, id: nat, reply: Reply): State
    requires id in s.pending
  {
    var k := s.pending[id];
    if k >= |s.calls| then s
    else s.(read := s.read + [v], owner := s.owner + [Some(k)], pending := s.pending - {id},
            calls := s.calls[k := Taken(s.calls[k], reply, Frame(|s.read|))])
  }

  /** One atomic step of a caller, the reader, the status poller or the shutdown; an action that is not
      enabled changes nothing. */
  function Step(s: State, a: Action): State {
    match a
    case Check =>
      s.(calls := s.calls + [Call(0, if s.alive then Checked else Done(Exited), [], [], 0, None)])
    case Allocate(k) =>
      if Has(s, k, Checked)
      then s.(nextId := s.nextId + 1, calls := s.calls[k := s.calls[k].(phase := Allocated, id := s.nextId)])
      else s
    case Register(k) =>
      if Has(s, k, Allocated)
      then s.(pending := s.pending[s.calls[k].id := k],
              calls := s.calls[k := s.calls[k].(phase := Registered, since := |s.read|)])
      else s
    case Write(k, ok) =>
      if Has(s, k, Registered) && (ok ==> s.writable) then To(s, k, if ok then Waiting else Unwritten) else s
    case Expire(k) =>
      if Has(s, k, Waiting) && s.calls[k].queue == [] then To(s, k, Expired) else s
    case Abandon(k) =>
      if Has(s, k, Unwritten) || Has(s, k, Expired)
      then Abandoned(s, k, if s.calls[k].phase.Expired? then TimedOut else WriteFailed)
      else s
    case Receive(k) =>
      if !Has(s, k, Waiting) then s
      else if s.calls[k].queue != []
      then
        var c := s.calls[k];
        s.(calls := s.calls[k := c.(phase := Done(Returned(c.queue[0])), queue := c.queue[1..])])
      else if !SenderLives(s, k) then To(s, k, Done(Disconnected))
      else s
    case Read(v) => if s.reading then Received(s, v) else s
    case Deliver(k) =>
      if k < |s.calls| && s.calls[k].inFlight != [] && CanSend(s.calls[k])
      then
        var c := s.calls[k];
        s.(calls := s.calls[k := c.(inFlight := c.inFlight[1..],
                                    queue := if c.phase.Done? then c.queue else c.queue + [c.inFlight[0]])])
      else s
    case Exit => s.(alive := false)
    case Drain(failure) => if s.alive then s else s.(calls := DrainCalls(s, failure), pending := map[])
    case CloseInput => s.(writable := false)
    case StopReading => s.(reading := false)
  }

  function Run(s: State, actions: seq<Action>): State {
    if actions == [] then s else Step(Run(s, actions[..|actions| - 1]), actions[|actions| - 1])
  }

  // ---------------------------------------------------------------- the invariant

  /** The reply a call's source stands for. */
  predicate Justifies(s: State, c: Call, reply: Reply) {
    match c.source
    case None => false
    case Some(Frame(j)) => c.since <= j < |s.read| && Classify(s.read[j]) == Response(c.id, reply)
    case Some(Drained(failure)) => reply == Err(failure)
  }

  /** One call: until it returns, its reply is in exactly one place, the table meaning there is none yet. */
  ghost predicate CallInv(s: State, k: nat)
    requires k < |s.calls|
  {
    var c := s.calls[k];
    && c.since <= |s.read|
    && (forall r | r in c.queue || r in c.inFlight :: Justifies(s, c, r))
    && match c.phase
       case Checked => c.queue == [] && c.inFlight == [] && c.source.None?
       case Allocated => c.queue == [] && c.inFlight == [] && c.source.None?
       case Done(Returned(r)) => c.queue == [] && c.inFlight == [] && Justifies(s, c, r)
       case Done(Exited) => c.queue == [] && c.inFlight == [] && c.source.None?
       case Done(Disconnected) => false
       case Done(_) => |c.queue| + |c.inFlight| <= 1
       case _ => && |c.queue| + |c.inFlight| == (if InTable(s, k) then 0 else 1)
                 && (c.source.None? <==> InTable(s, k))
  }

  predicate Numbered(c: Call) {
    !c.phase.Checked? && c.phase != Done(Exited)
  }

  /** Ids are handed out once, and the table maps the ids of unfinished calls to those calls. */
  predicate Identified(s: State) {
    && (forall k | 0 <= k < |s.calls| && Numbered(s.calls[k]) :: 0 < s.calls[k].id < s.nextId)
    && (forall j, k | 0 <= j < k < |s.calls| && Numbered(s.calls[j]) && Numbered(s.calls[k]) ::
          s.calls[j].id != s.calls[k].id)
    && forall id | id in s.pending ::
         && s.pending[id] < |s.calls|
         && s.calls[s.pending[id]].id == id
         && s.calls[s.pending[id]].phase in {Registered, Waiting, Unwritten, Expired}
  }

  /** Every response frame went to one call or was reported unmatched. */
  predicate Owned(s: State) {
    && |s.owner| == |s.read|
    && (forall j | 0 <= j < |s.read| && s.owner[j].Some? ::
          s.owner[j].value < |s.calls| && s.calls[s.owner[j].value].source == Some(Frame(j)))
    && (forall k | 0 <= k < |s.calls| && s.calls[k].source.Some? && s.calls[k].source.value.Frame? ::
          s.calls[k].source.value.frame < |s.read| && s.owner[s.calls[k].source.value.frame] == Some(k))
    && (forall j | j in s.unmatched :: j < |s.read|)
    && forall j | 0 <= j < |s.read| :: (Classify(s.read[j]).Response? && s.owner[j].None?) <==> j in s.unmatched
  }

  ghost predicate Inv(s: State) {
    && s.nextId > 0
    && Identified(s)
    && Owned(s)
    && forall k | 0 <= k < |s.calls| :: CallInv(s, k)
  }

  /** Nothing that concerns call `k` has changed. */
  predicate Same(s: State, t: State, k: nat) {
    && k < |s.calls| && k < |t.calls| && t.calls[k] == s.calls[k]
    && (InTable(s, k) <==> InTable(t, k))
    && s.read <= t.read
  }

  lemma SameInv(s: State, t: State, k: nat)
    requires Same(s, t, k) && CallInv(s, k)
    ensures CallInv(t, k)
  {
  }

  /** A step on one call that leaves table, frames and ids alone keeps the invariant if it keeps that call's. */
  lemma OneCall(s: State, k: nat, c: Call)
    requires Inv(s) && k < |s.calls|
    requires c.id == s.calls[k].id && c.source == s.calls[k].source && Numbered(s.calls[k]) && Numbered(c)
    requires InTable(s, k) ==> c.phase in {Registered, Waiting, Unwritten, Expired}
    requires var t := s.(calls := s.calls[k := c]); CallInv(t, k)
    ensures Inv(s.(calls := s.calls[k := c]))
  {
    hide CallInv;
    var t := s.(calls := s.calls[k := c]);
    forall j | 0 <= j < |t.calls| ensures CallInv(t, j) {
      if j != k {
        SameInv(s, t, j);
      }
    }
  }

  lemma CheckKeeps(s: State)
    requires Inv(s)
    ensures Inv(Step(s, Check))
  {
    var t := Step(s, Check);
    forall j | 0 <= j < |t.calls| ensures CallInv(t, j) {
      if j < |s.calls| {
        SameInv(s, t, j);
      }
    }
  }

  lemma AllocateKeeps(s: State, k: nat)
    requires Inv(s)
    ensures Inv(Step(s, Allocate(k)))
  {
    var t := Step(s, Allocate(k));
    if Has(s, k, Checked) {
      forall j | 0 <= j < |t.calls| ensures CallInv(t, j) {
        assert CallInv(s, j);
        if j != k {
          SameInv(s, t, j);
        }
      }
    }
  }

  lemma RegisterKeeps(s: State, k: nat)
    requires Inv(s)
    ensures Inv(Step(s, Register(k)))
  {
    var t := Step(s, Register(k));
    if Has(s, k, Allocated) {
      forall j | 0 <= j < |t.calls| ensures CallInv(t, j) {
        assert CallInv(s, j);
        if j != k {
          SameInv(s, t, j);
        }
      }
    }
  }

  lemma WriteKeeps(s: State, k: nat, ok: bool)
    requires Inv(s)
    ensures Inv(Step(s, Write(k, ok)))
  {
    if Has(s, k, Registered) {
      assert CallInv(s, k);
      OneCall(s, k, s.calls[k].(phase := if ok then Waiting else Unwritten));
    }
  }

  lemma ExpireKeeps(s: State, k: nat)
    requires Inv(s)
    ensures Inv(Step(s, Expire(k)))
  {
    if Has(s, k, Waiting) {
      assert CallInv(s, k);
      OneCall(s, k, s.calls[k].(phase := Expired));
    }
  }

  lemma DeliverKeeps(s: State, k: nat)
    requires Inv(s)
    ensures Inv(Step(s, Deliver(k)))
  {
    if k < |s.calls| && s.calls[k].inFlight != [] && CanSend(s.calls[k]) {
      var c := s.calls[k];
      assert CallInv(s, k);
      assert c.inFlight == [c.inFlight[0]];
      OneCall(s, k, c.(inFlight := c.inFlight[1..],
                       queue := if c.phase.Done? then c.queue else c.queue + [c.inFlight[0]]));
    }
  }

  lemma ReceiveKeeps(s: State, k: nat)
    requires Inv(s)
    ensures Inv(Step(s, Receive(k)))
  {
    if Has(s, k, Waiting) {
      var c := s.calls[k];
      assert CallInv(s, k);
      if c.queue != [] {
        assert c.queue == [c.queue[0]] && c.queue[0] in c.queue;
        OneCall(s, k, c.(phase := Done(Returned(c.queue[0])), queue := c.queue[1..]));
      } else {
        assert SenderLives(s, k);
      }
    }
  }

  lemma AbandonKeeps(s: State, k: nat, o: Outcome)
    requires Inv(s) && (Has(s, k, Unwritten) || Has(s, k, Expired)) && (o.TimedOut? || o.WriteFailed?)
    ensures Inv(Abandoned(s, k, o))
  {
    var t := Abandoned(s, k, o);
    AbandonedCall(s, k, o);
    hide CallInv, Owned, Abandoned;
    forall j | 0 <= j < |t.calls| ensures CallInv(t, j) {
      if j != k {
        AbandonedOthers(s, k, o, j);
        SameInv(s, t, j);
      }
    }
    assert Identified(t) && t.nextId == s.nextId by { AbandonedIds(s, k, o); }
  }

  lemma AbandonedOthers(s: State, k: nat, o: Outcome, j: nat)
    requires Identified(s) && (Has(s, k, Unwritten) || Has(s, k, Expired)) && j != k && j < |s.calls|
    ensures Same(s, Abandoned(s, k, o), j)
  {
  }

  lemma AbandonedIds(s: State, k: nat, o: Outcome)
    requires Identified(s) && (Has(s, k, Unwritten) || Has(s, k, Expired)) && (o.TimedOut? || o.WriteFailed?)
    ensures Identified(Abandoned(s, k, o)) && Abandoned(s, k, o).nextId == s.nextId
  {
    var t := Abandoned(s, k, o);
    forall j | 0 <= j < |t.calls| ensures t.calls[j].id == s.calls[j].id && Numbered(t.calls[j]) == Numbered(s.calls[j])
    {
    }
    hide Numbered;
  }

  lemma AbandonedCall(s: State, k: nat, o: Outcome)
    requires Inv(s) && (Has(s, k, Unwritten) || Has(s, k, Expired)) && (o.TimedOut? || o.WriteFailed?)
    ensures CallInv(Abandoned(s, k, o), k) && Owned(Abandoned(s, k, o))
  {
    assert CallInv(s, k);
  }

  lemma OpenInTable(s: State, k: nat)
    requires Inv(s) && k < |s.calls| && InTable(s, k)
    ensures s.calls[k].phase in {Registered, Waiting, Unwritten, Expired}
    ensures s.calls[k].source.None? && s.calls[k].queue == [] && s.calls[k].inFlight == []
  {
    assert CallInv(s, k);
  }

  lemma AnswerKeeps(s: State, v: Value, id: nat, reply: Reply)
    requires Inv(s) && id in s.pending && Classify(v) == Response(id, reply)
    ensures Inv(Answered(s, v, id, reply))
  {
    hide Classify;
    var t, k := Answered(s, v, id, reply), s.pending[id];
    OpenInTable(s, k);
    AnswerOwned(s, v, id, reply);
    AnsweredCall(s, v, id, reply);
    hide CallInv, Owned;
    forall j | 0 <= j < |t.calls| ensures CallInv(t, j) {
      if j != k {
        SameInv(s, t, j);
      }
    }
  }

  lemma AnsweredCall(s: State, v: Value, id: nat, reply: Reply)
    requires Inv(s) && id in s.pending && Classify(v) == Response(id, reply)
    ensures s.pending[id] < |s.calls| && CallInv(Answered(s, v, id, reply), s.pending[id])
  {
    hide Classify, Owned;
    OpenInTable(s, s.pending[id]);
    assert CallInv(s, s.pending[id]);
  }

  lemma AnswerOwned(s: State, v: Value, id: nat, reply: Reply)
    requires Inv(s) && id in s.pending && Classify(v) == Response(id, reply)
    ensures Owned(Answered(s, v, id, reply))
  {
    hide Classify, CallInv;
    OpenInTable(s, s.pending[id]);
  }

  lemma HeardKeeps(s: State, v: Value)
    requires Inv(s)
    ensures Inv(Heard(s, v, Classify(v).Response?))
  {
    hide Classify, CallInv;
    var t := Heard(s, v, Classify(v).Response?);
    forall j | 0 <= j < |t.calls| ensures CallInv(t, j) {
      SameInv(s, t, j);
    }
  }

  lemma ReadKeeps(s: State, v: Value)
    requires Inv(s)
    ensures Inv(Step(s, Read(v)))
  {
    hide Classify, Inv;
    HeardKeeps(s, v);
    if Classify(v).Response? && Classify(v).id in s.pending {
      AnswerKeeps(s, v, Classify(v).id, Classify(v).reply);
    }
  }

  lemma DrainKeeps(s: State, failure: Failure)
    requires Inv(s)
    ensures Inv(Step(s, Drain(failure)))
  {
    if !s.alive {
      var t := Step(s, Drain(failure));
      DrainOwned(s, failure);
      hide Owned;
      forall j | 0 <= j < |t.calls| ensures CallInv(t, j) {
        assert CallInv(s, j);
        if InTable(s, j) {
          OpenInTable(s, j);
        } else {
          SameInv(s, t, j);
        }
      }
    }
  }

  lemma DrainOwned(s: State, failure: Failure)
    requires Inv(s) && !s.alive
    ensures Owned(Step(s, Drain(failure)))
  {
    hide CallInv, Identified;
    forall k | 0 <= k < |s.calls| && InTable(s, k) ensures s.calls[k].source.None? {
      OpenInTable(s, k);
    }
  }

  lemma StepKeeps(s: State, a: Action)
    requires Inv(s)
    ensures Inv(Step(s, a))
  {
    hide Inv, Received, DrainCalls;
    match a
    case Check => CheckKeeps(s);
    case Allocate(k) => AllocateKeeps(s, k);
    case Register(k) => RegisterKeeps(s, k);
    case Write(k, ok) => WriteKeeps(s, k, ok);
    case Expire(k) => ExpireKeeps(s, k);
    case Abandon(k) =>
      if Has(s, k, Unwritten) || Has(s, k, Expired) {
        AbandonKeeps(s, k, if s.calls[k].phase.Expired? then TimedOut else WriteFailed);
      }
    case Receive(k) => ReceiveKeeps(s, k);
    case Read(v) => ReadKeeps(s, v);
    case Deliver(k) => DeliverKeeps(s, k);
    case Drain(failure) => DrainKeeps(s, failure);
    case _ => FlagsKeep(s, Step(s, a));
  }

  lemma FlagsKeep(s: State, t: State)
    requires Inv(s) && t == s.(alive := t.alive, writable := t.writable, reading := t.reading)
    ensures Inv(t)
  {
    hide CallInv;
    forall j | 0 <= j < |t.calls| ensures CallInv(t, j) {
      SameInv(s, t, j);
    }
  }

  lemma {:induction false} RunKeeps(actions: seq<Action>)
    ensures Inv(Run(START, actions))
  {
    if actions != [] {
      RunKeeps(actions[..|actions| - 1]);
      StepKeeps(Run(START, actions[..|actions| - 1]), actions[|actions| - 1]);
    }
  }

  // ---------------------------------------------------------------- what every run guarantees

  /** In every run: no two calls share an id; a call that returned a value got it from the one response frame
      given to it, which carries its id and was read after it was registered; one that returned an error got it
      from such a frame or from a drain; none ever finds its sender gone; and no send ever blocks or is a
      second one. */
  lemma {:induction false} OneReply(actions: seq<Action>, k: nat)
    requires k < |Run(START, actions).calls|
    ensures var s := Run(START, actions);
      var c := s.calls[k];
      && (forall j | 0 <= j < |s.calls| && j != k && Numbered(c) && Numbered(s.calls[j]) :: s.calls[j].id != c.id)
      && c.phase != Done(Disconnected)
      && |c.inFlight| + |c.queue| <= 1
      && (c.inFlight != [] ==> CanSend(c))
      && (c.phase.Done? && c.phase.outcome.Returned? ==>
            match c.source
            case None => false
            case Some(Frame(j)) =>
              && c.since <= j < |s.read| && j < |s.owner| && s.owner[j] == Some(k)
              && s.read[j].Get("method").None? && s.read[j].Get("id") == Some(Num(Int(c.id)))
              && (match c.phase.outcome.reply
                  case Ok(result) => s.read[j].Get("error").None? && result == s.read[j].GetOrNull("result")
                  case Err(failure) => s.read[j].Get("error").Some? && Tells(s.read[j].Get("error").value, failure))
            case Some(Drained(failure)) => c.phase.outcome.reply == Err(failure))
  {
    hide Classify, Run, Tells;
    RunKeeps(actions);
    var s := Run(START, actions);
    assert CallInv(s, k);
    if s.calls[k].phase.Done? && s.calls[k].phase.outcome.Returned? && s.calls[k].source.Some? {
      if s.calls[k].source.value.Frame? {
        ResponseIs(s.read[s.calls[k].source.value.frame], s.calls[k].id, s.calls[k].phase.outcome.reply);
      }
    }
  }

  /** A response frame goes to at most one call, and is reported as unmatched exactly when it goes to none. */
  lemma {:induction false} OneCallPerFrame(actions: seq<Action>, j: nat)
    requires j < |Run(START, actions).read|
    requires var v := Run(START, actions).read[j];
      v.Get("method").None? && v.Get("id").Some? && v.Get("id").value.AsU64().Some?
    ensures var s := Run(START, actions);
      && (j in s.unmatched <==> forall k | 0 <= k < |s.calls| :: s.calls[k].source != Some(Frame(j)))
      && forall k, l | 0 <= k < |s.calls| && 0 <= l < |s.calls|
           && s.calls[k].source == Some(Frame(j)) && s.calls[l].source == Some(Frame(j)) :: k == l
  {
    hide Run, CallInv;
    RunKeeps(actions);
    var s := Run(START, actions);
    assert Classify(s.read[j]).Response?;
    hide Classify;
    if s.owner[j].Some? {
      assert s.calls[s.owner[j].value].source == Some(Frame(j));
    }
  }

  /** An outcome is final, and a finished call has left nothing in the table. */
  lemma {:induction false} OutcomesAreFinal(s: State, more: seq<Action>, k: nat)
    requires Inv(s) && k < |s.calls| && s.calls[k].phase.Done?
    ensures var t := Run(s, more);
      && Inv(t) && k < |t.calls| && !InTable(t, k)
      && t.calls[k].phase == s.calls[k].phase && t.calls[k].id == s.calls[k].id
  {
    if more != [] {
      OutcomesAreFinal(s, more[..|more| - 1], k);
      var t, a := Run(s, more[..|more| - 1]), more[|more| - 1];
      StepKeeps(t, a);
      DoneStays(t, a, k);
      NotListed(Step(t, a), k);
    } else {
      NotListed(s, k);
    }
  }

  lemma NotListed(s: State, k: nat)
    requires Inv(s) && k < |s.calls| && s.calls[k].phase.Done?
    ensures !InTable(s, k)
  {
  }

  lemma DoneStays(s: State, a: Action, k: nat)
    requires Inv(s) && k < |s.calls| && s.calls[k].phase.Done?
    ensures k < |Step(s, a).calls|
    ensures Step(s, a).calls[k].phase == s.calls[k].phase && Step(s, a).calls[k].id == s.calls[k].id
  {
    hide Classify, CallInv, Owned, Identified, Received, SenderLives;
    match a
    case Read(v) => ReadMovesNone(s, v);
    case Drain(failure) => DrainMovesNone(s, failure);
    case _ =>
      hide DrainCalls;
  }

  /** A call registered after the reader has gone: no frame will answer it, so it only ever ends by a write error, by a
      timeout, or by the failure of a later drain (a shutdown's or the poller's); once input is closed too, only by a
      write error. */
  lemma {:induction false} LateCallsFail(before: seq<Action>, after: seq<Action>, k: nat)
    requires var s := Run(START, before);
      !s.reading && (Has(s, k, Checked) || Has(s, k, Allocated))
    ensures var s, t := Run(START, before), Run(Run(START, before), after);
      && k < |t.calls|
      && (t.calls[k].phase.Done? ==>
            match t.calls[k].phase.outcome
            case WriteFailed => true
            case TimedOut => s.writable
            case Returned(reply) => s.writable && reply.Err? && t.calls[k].source == Some(Drained(reply.error))
            case _ => false)
  {
    RunKeeps(before);
    var s := Run(START, before);
    assert CallInv(s, k);
    StaysCut(s, after, k);
    assert CallInv(Run(s, after), k);
  }

  /** No frame answers call `k`, and with `closed` its request cannot have been written. */
  predicate Cut(s: State, k: nat, closed: bool) {
    && !s.reading && k < |s.calls|
    && (s.calls[k].source.Some? ==> s.calls[k].source.value.Drained?)
    && (match s.calls[k].phase
        case Done(o) => o.WriteFailed? || (!closed && (o.TimedOut? || o.Returned?))
        case _ => true)
    && (closed ==> !s.writable && !s.calls[k].phase.Waiting? && !s.calls[k].phase.Expired?)
  }

  lemma {:induction false} StaysCut(s: State, after: seq<Action>, k: nat)
    requires Inv(s) && Cut(s, k, !s.writable)
    ensures Inv(Run(s, after)) && Cut(Run(s, after), k, !s.writable)
  {
    if after != [] {
      StaysCut(s, after[..|after| - 1], k);
      StepKeeps(Run(s, after[..|after| - 1]), after[|after| - 1]);
      StepStaysCut(Run(s, after[..|after| - 1]), after[|after| - 1], k, !s.writable);
    }
  }

  lemma StepStaysCut(s: State, a: Action, k: nat, closed: bool)
    requires Inv(s) && Cut(s, k, closed)
    ensures Cut(Step(s, a), k, closed)
  {
    hide Classify, Identified, Owned;
    assert CallInv(s, k);
  }

  /** How many steps of its own a call still has before it. */
  function StepsLeft(p: Phase): nat {
    match p
    case Checked => 5
    case Allocated => 4
    case Registered => 3
    case Waiting => 2
    case Unwritten => 1
    case Expired => 1
    case Done(_) => 0
  }

  /** The caller's next step when nobody helps it: its write fails, its wait times out. */
  function OwnStep(s: State, k: nat): Action
    requires k < |s.calls|
  {
    match s.calls[k].phase
    case Checked => Allocate(k)
    case Allocated => Register(k)
    case Registered => Write(k, false)
    case Waiting => if s.calls[k].queue != [] then Receive(k) else Expire(k)
    case _ => Abandon(k)
  }

  lemma NobodyMovesBack(s: State, k: nat, a: Action)
    requires k < |s.calls|
    ensures k < |Step(s, a).calls| && StepsLeft(Step(s, a).calls[k].phase) <= StepsLeft(s.calls[k].phase)
  {
    hide Classify, SenderLives, CanSend, Received, DrainCalls, StepsLeft;
    match a
    case Read(v) => ReadMovesNone(s, v);
    case Drain(failure) => DrainMovesNone(s, failure);
    case Check => SendingMovesOn(s, k, a);
    case Allocate(_) => SendingMovesOn(s, k, a);
    case Register(_) => SendingMovesOn(s, k, a);
    case Write(_, _) => SendingMovesOn(s, k, a);
    case Expire(_) => SendingMovesOn(s, k, a);
    case _ => EndingMovesOn(s, k, a);
  }

  lemma SendingMovesOn(s: State, k: nat, a: Action)
    requires k < |s.calls| && (a.Check? || a.Allocate? || a.Register? || a.Write? || a.Expire?)
    ensures k < |Step(s, a).calls| && StepsLeft(Step(s, a).calls[k].phase) <= StepsLeft(s.calls[k].phase)
  {
    hide SenderLives, CanSend, Received, DrainCalls, Abandoned;
  }

  lemma EndingMovesOn(s: State, k: nat, a: Action)
    requires k < |s.calls|
    requires a.Abandon? || a.Receive? || a.Deliver? || a.Exit? || a.CloseInput? || a.StopReading?
    ensures k < |Step(s, a).calls| && StepsLeft(Step(s, a).calls[k].phase) <= StepsLeft(s.calls[k].phase)
  {
    hide SenderLives, CanSend, Received, DrainCalls;
  }

  lemma DrainMovesNone(s: State, failure: Failure)
    ensures forall k | 0 <= k < |s.calls| ::
      DrainCalls(s, failure)[k].phase == s.calls[k].phase && DrainCalls(s, failure)[k].id == s.calls[k].id
  {
  }

  lemma ReadMovesNone(s: State, v: Value)
    ensures var t := Received(s, v);
      |t.calls| == |s.calls|
      && forall k | 0 <= k < |s.calls| :: t.calls[k].phase == s.calls[k].phase && t.calls[k].id == s.calls[k].id
  {
    match Classify(v)
    case Response(id, reply) =>
      hide Classify;
      if id in s.pending {
        hide Received;
        var k := s.pending[id];
        assert k < |s.calls| ==> Taken(s.calls[k], reply, Frame(|s.read|)).phase == s.calls[k].phase;
        assert k < |s.calls| ==> Taken(s.calls[k], reply, Frame(|s.read|)).id == s.calls[k].id;
      }
    case _ =>
      hide Classify;
  }

  /** No call is ever stuck: an unfinished call's own step is possible and brings it nearer to its return, and
      nobody moves it back. */
  lemma {:induction false} NeverStuck(s: State, k: nat, a: Action)
    requires k < |s.calls|
    ensures k < |Step(s, a).calls| && StepsLeft(Step(s, a).calls[k].phase) <= StepsLeft(s.calls[k].phase)
    ensures !s.calls[k].phase.Done? ==>
      && |Step(s, OwnStep(s, k)).calls| == |s.calls|
      && StepsLeft(Step(s, OwnStep(s, k)).calls[k].phase) < StepsLeft(s.calls[k].phase)
  {
    NobodyMovesBack(s, k, a);
    if !s.calls[k].phase.Done? {
      OwnStepAdvances(s, k);
    }
    hide Step, OwnStep, StepsLeft;
  }

  lemma OwnStepAdvances(s: State, k: nat)
    requires k < |s.calls| && !s.calls[k].phase.Done?
    ensures |Step(s, OwnStep(s, k)).calls| == |s.calls|
    ensures StepsLeft(Step(s, OwnStep(s, k)).calls[k].phase) < StepsLeft(s.calls[k].phase)
  {
    hide Received, DrainCalls, SenderLives, CanSend, InTable;
    match s.calls[k].phase
    case Checked => assert OwnStep(s, k) == Allocate(k);
    case Allocated => assert OwnStep(s, k) == Register(k);
    case Registered => assert OwnStep(s, k) == Write(k, false);
    case Waiting =>
      if s.calls[k].queue != [] {
        assert OwnStep(s, k) == Receive(k);
      } else {
        assert OwnStep(s, k) == Expire(k);
      }
    case Unwritten => assert OwnStep(s, k) == Abandon(k);
    case Expired => assert OwnStep(s, k) == Abandon(k);
  }
}
