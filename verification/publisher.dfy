/** Handing domain events to the host: the bounded queue, the retry worker
    (`src/app_server/event_store.rs`) and the receipt it waits for (`src/app_server/host_receipt.rs`). */
module Publishers {
  import opened Json

  const QUEUE_CAPACITY: nat := 256
  const RETRY_BASE_MS: nat := 100
  const U32_MAX: nat := 0xFFFF_FFFF

  datatype Job = Job(event: string, eventId: string, occurredAt: string, payload: Value)

  /** What one POST came to: no response, or a status and a body (None when it is not JSON). */
  datatype Response = Failed | Replied(status: nat, body: Option<Value>)

  // ---------------------------------------------------------------- the receipt

  datatype Receipt = Receipt(eventId: string, appId: string)

  /** A unit variant of an externally tagged enum: its name, or an object with that one key and null. */
  predicate IsVariant(v: Value, name: string) {
    v == Str(name) || v == Obj(map[name := Null])
  }

  predicate IsAcceptance(v: Value) {
    IsVariant(v, "queued") || IsVariant(v, "no_subscribers")
  }

  const RECEIPT_FIELDS: set<string> := {"contractVersion", "eventId", "appId", "status"}

  /** The closed decoding: all four fields and no other, as an object or as an array in declaration order. */
  function DecodeReceipt(v: Value): Option<Receipt> {
    match v
    case Obj(fields) =>
      if && fields.Keys == RECEIPT_FIELDS && IsVariant(fields["contractVersion"], "2.0.0")
         && IsAcceptance(fields["status"]) && fields["eventId"].Str? && fields["appId"].Str?
      then Some(Receipt(fields["eventId"].s, fields["appId"].s)) else None
    case Arr(items) =>
      if |items| == 4 && IsVariant(items[0], "2.0.0") && items[1].Str? && items[2].Str? && IsAcceptance(items[3])
      then Some(Receipt(items[1].s, items[2].s)) else None
    case _ => None
  }

  predicate Accepts(appId: string, job: Job, r: Response) {
    && r.Replied? && 200 <= r.status < 300 && r.body.Some?
    && DecodeReceipt(r.body.value) == Some(Receipt(job.eventId, appId))
  }

  /** The response releases the job: a success whose body names this version, this event and this app, says that the
      event is queued or has no subscribers, and says nothing else. */
  predicate Releases(r: Response, eventId: string, appId: string) {
    && r.Replied? && 200 <= r.status <= 299 && r.body.Some?
    && match r.body.value
       case Obj(fields) =>
         && fields.Keys == {"contractVersion", "eventId", "appId", "status"}
         && fields["eventId"] == Str(eventId) && fields["appId"] == Str(appId)
         && fields["contractVersion"] in {Str("2.0.0"), Obj(map["2.0.0" := Null])}
         && fields["status"] in {Str("queued"), Str("no_subscribers"),
                                 Obj(map["queued" := Null]), Obj(map["no_subscribers" := Null])}
       case Arr(items) =>
         && |items| == 4 && items[1] == Str(eventId) && items[2] == Str(appId)
         && items[0] in {Str("2.0.0"), Obj(map["2.0.0" := Null])}
         && items[3] in {Str("queued"), Str("no_subscribers"),
                         Obj(map["queued" := Null]), Obj(map["no_subscribers" := Null])}
       case _ => false
  }

  lemma AcceptsIs(appId: string, job: Job, r: Response)
    ensures Accepts(appId, job, r) <==> Releases(r, job.eventId, appId)
  {
  }

  /** The request has the app and the job's four fields as its members, and no other. */
  predicate Asks(request: Value, appId: string, job: Job) {
    && request.Obj? && request.fields.Keys == {"appId", "event", "eventId", "payload", "occurredAt"}
    && request.Get("appId") == Some(Str(appId)) && request.Get("event") == Some(Str(job.event))
    && request.Get("eventId") == Some(Str(job.eventId)) && request.Get("payload") == Some(job.payload)
    && request.Get("occurredAt") == Some(Str(job.occurredAt))
  }

  function RequestOf(appId: string, job: Job): Value {
    Obj(map["appId" := Str(appId), "event" := Str(job.event), "eventId" := Str(job.eventId),
            "payload" := job.payload, "occurredAt" := Str(job.occurredAt)])
  }

  // ---------------------------------------------------------------- one job

  function Pow2(n: nat): nat {
    if n == 0 then 1 else 2 * Pow2(n - 1)
  }

  /** How long the worker sleeps after failed attempt `attempt`, in milliseconds. */
  function Delay(attempt: nat): nat {
    RETRY_BASE_MS * Pow2(if attempt < 8 then attempt else 8)
  }

  lemma {:induction false} Pow2Monotone(a: nat, b: nat)
    requires a <= b
    ensures 1 <= Pow2(a) <= Pow2(b)
    decreases b
  {
    if a < b {
      Pow2Monotone(a, b - 1);
    } else if a > 0 {
      Pow2Monotone(a - 1, a - 1);
    }
  }

  /** Backoff starts at 100 milliseconds, doubles eight times and stays at 25600: it never decreases and never
      exceeds 256 times the base. */
  lemma BackoffBounded(a: nat, b: nat)
    requires a <= b
    ensures RETRY_BASE_MS <= Delay(a) <= Delay(b) <= 256 * RETRY_BASE_MS
    ensures Delay(0) == 100 && (a < 8 ==> Delay(a + 1) == 2 * Delay(a)) && (a >= 8 ==> Delay(a) == 25600)
  {
    Pow2Monotone(if a < 8 then a else 8, if b < 8 then b else 8);
    Pow2Monotone(if b < 8 then b else 8, 8);
    assert Pow2(8) == 256 by {
      assert Pow2(4) == 16 && Pow2(5) == 32 && Pow2(6) == 64 && Pow2(7) == 128;
    }
  }

  /** `publish`, against the responses the host gives (as many as are supplied). It returns on the first
      acceptable one and on no other; every attempt sends the same request. */
  method Publish(appId: string, job: Job, responses: seq<Response>)
    returns (accepted: bool, sent: seq<Value>, slept: seq<nat>)
    ensures accepted ==>
      0 < |sent| <= |responses| && |slept| == |sent| - 1 && Releases(responses[|sent| - 1], job.eventId, appId)
    ensures !accepted ==> |sent| == |slept| == |responses|
    ensures forall k | 0 <= k < |slept| :: k < |responses| && !Releases(responses[k], job.eventId, appId)
    ensures forall k | 0 <= k < |sent| :: sent[k] == sent[0] && Asks(sent[k], appId, job)
    ensures forall k | 0 <= k < |slept| :: slept[k] == Delay(k)
  {
    var request := RequestOf(appId, job);
    accepted, sent, slept := false, [], [];
    var attempt: nat := 0;
    for i := 0 to |responses|
      invariant !accepted && |sent| == |slept| == i
      invariant attempt == (if i < U32_MAX then i else U32_MAX)
      invariant forall k | 0 <= k < i :: !Releases(responses[k], job.eventId, appId)
      invariant forall k | 0 <= k < i :: sent[k] == request && slept[k] == Delay(k)
    {
      AcceptsIs(appId, job, responses[i]);
      sent := sent + [request];
      if Accepts(appId, job, responses[i]) {
        accepted := true;
        return;
      }
      slept := slept + [Delay(attempt)];
      attempt := if attempt == U32_MAX then U32_MAX else attempt + 1;
    }
  }

  // ---------------------------------------------------------------- the queue and the worker

  /** `enqueued` and `accepted` are history; `log` is every request the worker sent, with the number of its job. */
  datatype Handoff = Handoff(
    appId: string,
    queue: seq<Job>,
    inFlight: Option<Job>,
    enqueued: seq<Job>,
    accepted: seq<Job>,
    receipts: seq<Response>,
    log: seq<(nat, Value)>)

  datatype Action = Enqueue(job: Job) | Take | Attempt(response: Response)

  function Step(h: Handoff, a: Action): Handoff {
    match a
    case Enqueue(job) =>
      // `send` blocks while the queue is full
      if |h.queue| >= QUEUE_CAPACITY then h else h.(queue := h.queue + [job], enqueued := h.enqueued + [job])
    case Take =>
      if h.inFlight.Some? || h.queue == [] then h else h.(inFlight := Some(h.queue[0]), queue := h.queue[1..])
    case Attempt(response) =>
      if h.inFlight.None? then h
      else
        var job := h.inFlight.value;
        var sent := h.(log := h.log + [(|h.accepted|, RequestOf(h.appId, job))]);
        if Accepts(h.appId, job, response) then
          sent.(inFlight := None, accepted := h.accepted + [job], receipts := h.receipts + [response])
        else sent
  }

  function Init(appId: string): Handoff {
    Handoff(appId, [], None, [], [], [], [])
  }

  function Run(h: Handoff, actions: seq<Action>): Handoff
    decreases |actions|
  {
    if actions == [] then h else Step(Run(h, actions[..|actions| - 1]), actions[|actions| - 1])
  }

  function InFlight(h: Handoff): seq<Job> {
    if h.inFlight.Some? then [h.inFlight.value] else []
  }

  ghost predicate Inv(h: Handoff) {
    && h.enqueued == h.accepted + InFlight(h) + h.queue
    && |h.queue| <= QUEUE_CAPACITY
    && |h.receipts| == |h.accepted|
    && (forall i | 0 <= i < |h.accepted| :: Accepts(h.appId, h.accepted[i], h.receipts[i]))
    && (forall i | 0 <= i < |h.log| ::
          && h.log[i].0 <= |h.accepted| && h.log[i].0 < |h.enqueued|
          && h.log[i].1 == RequestOf(h.appId, h.enqueued[h.log[i].0])
          && (h.log[i].0 == |h.accepted| ==> h.inFlight.Some?))
    && (forall i, j | 0 <= i < j < |h.log| :: h.log[i].0 <= h.log[j].0)
  }

  lemma {:induction false} StepKeeps(h: Handoff, a: Action)
    requires Inv(h)
    ensures Inv(Step(h, a))
  {
    hide Accepts, RequestOf;
    match a
    case Enqueue(_) =>
    case Take =>
      if h.inFlight.None? && h.queue != [] {
        assert h.accepted + [] + h.queue == h.accepted + [h.queue[0]] + h.queue[1..];
      }
    case Attempt(response) => AttemptKeeps(h, response);
  }

  lemma AttemptKeeps(h: Handoff, response: Response)
    requires Inv(h)
    ensures Inv(Step(h, Attempt(response)))
  {
    hide Accepts, RequestOf;
    if h.inFlight.Some? {
      assert h.enqueued[|h.accepted|] == h.inFlight.value;
      assert h.accepted + [h.inFlight.value] + [] == h.accepted + [h.inFlight.value];
    }
  }

  lemma {:induction false} RunKeeps(h: Handoff, actions: seq<Action>)
    requires Inv(h)
    ensures Inv(Run(h, actions))
    decreases |actions|
  {
    if actions != [] {
      RunKeeps(h, actions[..|actions| - 1]);
      StepKeeps(Run(h, actions[..|actions| - 1]), actions[|actions| - 1]);
    }
  }

  lemma {:induction false} AppIdFixed(h: Handoff, actions: seq<Action>)
    ensures Run(h, actions).appId == h.appId
    decreases |actions|
  {
    if actions != [] {
      AppIdFixed(h, actions[..|actions| - 1]);
    }
  }

  /** No loss, no overtaking, no early release: in every run the jobs put in are, in order, those the host
      has accepted (each on a receipt naming it), the one being retried, and those waiting; and the requests
      sent name the jobs in that order, each retry the same. */
  lemma {:induction false} NothingLost(appId: string, actions: seq<Action>)
    ensures var h := Run(Init(appId), actions);
      && h.enqueued == h.accepted + InFlight(h) + h.queue
      && |h.queue| <= 256
      && |h.receipts| == |h.accepted|
      && (forall i | 0 <= i < |h.accepted| :: Releases(h.receipts[i], h.accepted[i].eventId, appId))
      && (forall i | 0 <= i < |h.log| :: h.log[i].0 < |h.enqueued|
            && Asks(h.log[i].1, appId, h.enqueued[h.log[i].0]))
      && (forall i, j | 0 <= i < j < |h.log| :: h.log[i].0 <= h.log[j].0)
  {
    RunKeeps(Init(appId), actions);
    AppIdFixed(Init(appId), actions);
    hide Run, Accepts, Releases;
    var h := Run(Init(appId), actions);
    forall i | 0 <= i < |h.accepted| ensures Releases(h.receipts[i], h.accepted[i].eventId, appId) {
      AcceptsIs(appId, h.accepted[i], h.receipts[i]);
    }
  }

  /** An event waits exactly while 256 others do, and otherwise joins the queue's end. */
  lemma BlocksWhenFull(h: Handoff, job: Job)
    ensures var t := Step(h, Enqueue(job));
      && (|h.queue| >= 256 ==> t == h)
      && (|h.queue| < 256 ==> t.queue == h.queue + [job] && t.enqueued == h.enqueued + [job])
  {
  }

  /** A job leaves the worker exactly when it is released, and any other response leaves the worker at it. */
  lemma LeavesWhenReleased(h: Handoff, response: Response)
    requires h.inFlight.Some?
    ensures var t, job := Step(h, Attempt(response)), h.inFlight.value;
      && (t.inFlight.None? <==> Releases(response, job.eventId, h.appId))
      && (t.inFlight.Some? ==> t.inFlight == h.inFlight && t.accepted == h.accepted)
      && (t.inFlight.None? ==> t.accepted == h.accepted + [job])
  {
    AcceptsIs(h.appId, h.inFlight.value, response);
    hide Accepts, Releases, RequestOf;
  }
}
