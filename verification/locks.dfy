/** The mutexes of the client and its sessions: who takes which while holding which, and why no set of threads can
    wait for each other in a circle (`src/app_server.rs`, `src/app_server/server_requests.rs`,
    `src/app_server/event_store.rs`). */
module Locks {
  datatype Kind = Operation | Lifecycle | Runtime | Child | Exit | Pending | Requests | Stdin | Events | Checkout

  /** A lock of the client, or of one session; the client's own locks have session 0. */
  datatype Lock = Lock(kind: Kind, session: nat)

  const CLIENT: nat := 0

  const RANKS: nat := 10

  function Rank(l: Lock): (r: nat)
    ensures r < RANKS
  {
    match l.kind
    case Operation => 0
    case Lifecycle => 1
    case Runtime => 2
    case Child => 3
    case Exit => 4
    case Pending => 5
    case Requests => 6
    case Stdin => 7
    case Events => 8
    case Checkout => 9
  }

  /** What a piece of code does to locks: guards are scopes, and only a read guard is shared. */
  datatype Code =
    | Skip
    | Then(first: Code, second: Code)
    | Either(left: Code, right: Code)
    | With(l: Lock, shared: bool, body: Code)

  // ---------------------------------------------------------------- the source's functions

  function Touch(kind: Kind, s: nat): Code {
    With(Lock(kind, s), false, Skip)
  }

  function Maybe(c: Code): Code {
    Either(Skip, c)
  }

  function SetExit(s: nat): Code {
    Maybe(Touch(Exit, s))
  }

  function FailPending(s: nat): Code {
    Touch(Pending, s)
  }

  function RefreshProcessState(s: nat): Code {
    Maybe(Then(Touch(Child, s), Maybe(Then(SetExit(s), FailPending(s)))))
  }

  function CurrentLiveSession(s: nat): Code {
    With(Lock(Runtime, CLIENT), false, Maybe(RefreshProcessState(s)))
  }

  function WriteMessage(s: nat): Code {
    Touch(Stdin, s)
  }

  /** `request` waits for its reply with no lock of its own, and for no longer than its timeout. */
  function Request(s: nat): Code {
    Then(Touch(Pending, s), Then(WriteMessage(s), Maybe(Touch(Pending, s))))
  }

  function StartProcess(): Code {
    Then(Touch(Runtime, CLIENT), Touch(Runtime, CLIENT))
  }

  function EnsureSession(s: nat, started: nat): Code {
    Then(CurrentLiveSession(s),
      Maybe(With(Lock(Lifecycle, CLIENT), false,
        Then(CurrentLiveSession(s),
          Maybe(Then(CurrentLiveSession(s),
            Then(Maybe(StartProcess()), Maybe(Then(Request(started), Maybe(WriteMessage(started)))))))))))
  }

  function ClientRequest(s: nat, started: nat): Code {
    Then(EnsureSession(s, started), Maybe(Request(started)))
  }

  function Status(s: nat): Code {
    With(Lock(Runtime, CLIENT), false,
      Then(Maybe(Then(RefreshProcessState(s), Maybe(Touch(Exit, s)))), Touch(Events, CLIENT)))
  }

  function SessionShutdown(s: nat): Code {
    Then(Touch(Stdin, s), Then(With(Lock(Child, s), false, Maybe(SetExit(s))), FailPending(s)))
  }

  function Shutdown(s: nat): Code {
    With(Lock(Lifecycle, CLIENT), false,
      Then(Touch(Runtime, CLIENT),
        Maybe(Then(SessionShutdown(s), With(Lock(Runtime, CLIENT), false, Touch(Exit, s))))))
  }

  function ReceiveServerRequest(s: nat): Code {
    Either(WriteMessage(s),
      Either(With(Lock(Requests, s), false, WriteMessage(s)), Then(Touch(Requests, s), Touch(Events, CLIENT))))
  }

  /** One frame read from the process, or the end of its output. */
  function ReadFrame(s: nat): Code {
    Either(ReceiveServerRequest(s),
      Either(Then(Touch(Pending, s), Maybe(Touch(Events, CLIENT))),
        Either(Then(Maybe(Touch(Requests, s)), Touch(Events, CLIENT)),
          Then(SetExit(s), FailPending(s)))))
  }

  function Respond(s: nat): Code {
    Then(CurrentLiveSession(s), Maybe(With(Lock(Requests, s), false, Maybe(WriteMessage(s)))))
  }

  function PendingServerRequests(s: nat): Code {
    Then(CurrentLiveSession(s), Maybe(Touch(Requests, s)))
  }

  /** `refresh_active_home` and `active_codex_home`, one after the other. */
  function ActiveHome(): Code {
    Then(Touch(Lifecycle, CLIENT), Touch(Runtime, CLIENT))
  }

  /** A remote call gives its read lock back before it goes on; some arms ask for the home after their request. */
  function Invoke(c: Code): Code {
    Then(With(Lock(Operation, CLIENT), true, Skip), Then(c, Maybe(ActiveHome())))
  }

  // ---------------------------------------------------------------- the order

  /** Run under locks of rank below `floor`, the code takes only locks of rank `floor` or more, ever higher inward. */
  predicate Ascends(c: Code, floor: nat) {
    match c
    case Skip => true
    case Then(first, second) => Ascends(first, floor) && Ascends(second, floor)
    case Either(left, right) => Ascends(left, floor) && Ascends(right, floor)
    case With(l, shared, body) => floor <= Rank(l) && Ascends(body, Rank(l) + 1)
  }

  /** What a thread of the connector may be doing, with session `s` current and `t` the one it may start. */
  datatype Task =
    | Calling(s: nat, t: nat)
    | CallingRemotely(s: nat, t: nat)
    | AskingStatus(s: nat)
    | ShuttingDown(s: nat)
    | Reading(s: nat)
    | Replying(s: nat)
    | ListingRequests(s: nat)
    | ListingProjects(s: nat, t: nat)
    | Managing
    | CheckingOut
    | UsingEvents

  function CodeOf(t: Task): Code {
    match t
    case Calling(s, t) => ClientRequest(s, t)
    case CallingRemotely(s, t) => Invoke(ClientRequest(s, t))
    case AskingStatus(s) => Invoke(Status(s))
    case ShuttingDown(s) => Shutdown(s)
    case Reading(s) => ReadFrame(s)
    case Replying(s) => Invoke(Respond(s))
    case ListingRequests(s) => Invoke(PendingServerRequests(s))
    case ListingProjects(s, t) => Invoke(Then(ActiveHome(), Maybe(ClientRequest(s, t))))
    case Managing => Touch(Operation, CLIENT)
    case CheckingOut => Touch(Checkout, CLIENT)
    case UsingEvents => Touch(Events, CLIENT)
  }

  // ---------------------------------------------------------------- threads

  /** What a thread has still to do, next first; an `Unlock` is a guard it holds. */
  datatype Item = Do(c: Code) | Unlock(l: Lock, shared: bool)

  type Stack = seq<Item>

  predicate Holds(k: Stack, l: Lock) {
    Unlock(l, false) in k || Unlock(l, true) in k
  }

  predicate Locking(k: Stack) {
    k != [] && k[0].Do? && k[0].c.With?
  }

  /** The lock a thread is about to take, or waits for. */
  function Wanted(k: Stack): Lock
    requires Locking(k)
  {
    k[0].c.l
  }

  /** A thread about to lock must wait for another: a writer for every holder; a reader for a writer that holds the lock
      or is waiting for it, as the platform may prefer writers. */
  predicate WaitsFor(threads: seq<Stack>, i: nat, j: nat) {
    && i < |threads| && j < |threads| && Locking(threads[i])
    && var l, other := Wanted(threads[i]), threads[j];
       if threads[i][0].c.shared
       then Unlock(l, false) in other || (Locking(other) && Wanted(other) == l && !other[0].c.shared)
       else Holds(other, l)
  }

  /** The thread has something to do and need not wait. */
  predicate CanStep(threads: seq<Stack>, i: nat) {
    i < |threads| && threads[i] != [] && forall j | 0 <= j < |threads| :: !WaitsFor(threads, i, j)
  }

  function Advanced(k: Stack, left: bool): Stack
    requires k != []
  {
    match k[0]
    case Unlock(_, _) => k[1..]
    case Do(Skip) => k[1..]
    case Do(Then(first, second)) => [Do(first), Do(second)] + k[1..]
    case Do(Either(a, b)) => [Do(if left then a else b)] + k[1..]
    case Do(With(l, shared, body)) => [Do(body), Unlock(l, shared)] + k[1..]
  }

  datatype Action = Begin(t: Task) | Go(i: nat, left: bool)

  function Step(threads: seq<Stack>, a: Action): seq<Stack> {
    match a
    case Begin(t) => threads + [[Do(CodeOf(t))]]
    case Go(i, left) => if CanStep(threads, i) then threads[i := Advanced(threads[i], left)] else threads
  }

  function Run(actions: seq<Action>): seq<Stack> {
    if actions == [] then [] else Step(Run(actions[..|actions| - 1]), actions[|actions| - 1])
  }

  /** Every lock held is below everything the thread is still to take inside it. */
  predicate Ordered(k: Stack) {
    if k == [] then true
    else
      && Ordered(k[1..])
      && match k[0]
         case Unlock(l, _) => Floor(k[1..]) <= Rank(l)
         case Do(c) => Ascends(c, Floor(k[1..]))
  }

  /** Above the rank of the innermost lock held. */
  function Floor(k: Stack): nat {
    if k == [] then 0
    else match k[0]
    case Unlock(l, _) => Rank(l) + 1
    case Do(_) => Floor(k[1..])
  }

  predicate AllOrdered(threads: seq<Stack>) {
    forall i | 0 <= i < |threads| :: Ordered(threads[i])
  }

  lemma TouchAscends(kind: Kind, s: nat, floor: nat)
    requires floor <= Rank(Lock(kind, s))
    ensures Ascends(Touch(kind, s), floor) && Ascends(Maybe(Touch(kind, s)), floor)
  {
  }

  lemma RefreshAscends(s: nat, floor: nat)
    requires floor <= 3
    ensures Ascends(RefreshProcessState(s), floor)
  {
    TouchAscends(Child, s, floor);
    TouchAscends(Exit, s, floor);
    TouchAscends(Pending, s, floor);
    hide Touch;
    assert Ascends(Maybe(Then(SetExit(s), FailPending(s))), floor);
  }

  lemma LiveAscends(s: nat, floor: nat)
    requires floor <= 2
    ensures Ascends(CurrentLiveSession(s), floor)
  {
    RefreshAscends(s, 3);
    hide RefreshProcessState;
  }

  lemma RequestAscends(s: nat, floor: nat)
    requires floor <= 5
    ensures Ascends(Request(s), floor)
  {
    TouchAscends(Pending, s, floor);
    TouchAscends(Stdin, s, floor);
    hide Touch, Maybe;
  }

  lemma EnsureAscends(s: nat, t: nat)
    ensures Ascends(EnsureSession(s, t), 1)
  {
    LiveAscends(s, 1);
    LiveAscends(s, 2);
    RequestAscends(t, 2);
    TouchAscends(Runtime, CLIENT, 2);
    TouchAscends(Stdin, t, 2);
    hide CurrentLiveSession, Request, Touch;
    assert Ascends(Then(Request(t), Maybe(WriteMessage(t))), 2);
    assert Ascends(Then(Maybe(StartProcess()), Maybe(Then(Request(t), Maybe(WriteMessage(t))))), 2);
    var locked := Then(CurrentLiveSession(s), Maybe(Then(CurrentLiveSession(s),
      Then(Maybe(StartProcess()), Maybe(Then(Request(t), Maybe(WriteMessage(t))))))));
    assert Ascends(locked.second, 2);
    assert Ascends(locked, 2);
    assert Ascends(With(Lock(Lifecycle, CLIENT), false, locked), 1);
    assert Ascends(Maybe(With(Lock(Lifecycle, CLIENT), false, locked)), 1);
  }

  lemma StatusAscends(s: nat)
    ensures Ascends(Status(s), 1)
  {
    RefreshAscends(s, 3);
    TouchAscends(Exit, s, 3);
    TouchAscends(Events, CLIENT, 3);
    hide RefreshProcessState, Touch;
    assert Ascends(Maybe(Then(RefreshProcessState(s), Maybe(Touch(Exit, s)))), 3);
  }

  lemma ShutdownAscends(s: nat)
    ensures Ascends(Shutdown(s), 1)
  {
    TouchAscends(Runtime, CLIENT, 2);
    TouchAscends(Stdin, s, 2);
    TouchAscends(Pending, s, 2);
    TouchAscends(Exit, s, 3);
    TouchAscends(Exit, s, 4);
    hide Touch;
    assert Ascends(With(Lock(Child, s), false, Maybe(SetExit(s))), 2);
    assert Ascends(SessionShutdown(s), 2);
    assert Ascends(With(Lock(Runtime, CLIENT), false, Touch(Exit, s)), 2);
    hide SessionShutdown;
    assert Ascends(Maybe(Then(SessionShutdown(s), With(Lock(Runtime, CLIENT), false, Touch(Exit, s)))), 2);
  }

  lemma ReadAscends(s: nat)
    ensures Ascends(ReadFrame(s), 1)
  {
    TouchAscends(Stdin, s, 1);
    TouchAscends(Stdin, s, 7);
    TouchAscends(Requests, s, 1);
    TouchAscends(Events, CLIENT, 1);
    TouchAscends(Pending, s, 1);
    TouchAscends(Exit, s, 1);
    hide Touch;
    assert Ascends(With(Lock(Requests, s), false, WriteMessage(s)), 1);
    assert Ascends(Then(Touch(Requests, s), Touch(Events, CLIENT)), 1);
    assert Ascends(ReceiveServerRequest(s), 1);
    hide ReceiveServerRequest;
    assert Ascends(Then(SetExit(s), FailPending(s)), 1);
    assert Ascends(Then(Maybe(Touch(Requests, s)), Touch(Events, CLIENT)), 1);
    assert Ascends(Then(Touch(Pending, s), Maybe(Touch(Events, CLIENT))), 1);
    assert Ascends(Either(Then(Maybe(Touch(Requests, s)), Touch(Events, CLIENT)), Then(SetExit(s), FailPending(s))), 1);
  }

  lemma ReplyAscends(s: nat)
    ensures Ascends(Respond(s), 1) && Ascends(PendingServerRequests(s), 1)
  {
    LiveAscends(s, 1);
    TouchAscends(Stdin, s, 7);
    TouchAscends(Requests, s, 1);
    hide CurrentLiveSession, Touch;
    assert Ascends(Maybe(With(Lock(Requests, s), false, Maybe(WriteMessage(s)))), 1);
  }

  lemma InvokeAscends(c: Code)
    requires Ascends(c, 1)
    ensures Ascends(Invoke(c), 0) && Ascends(c, 0)
  {
    AscendsLower(c, 1, 0);
    HomeAscends();
    AscendsLower(ActiveHome(), 1, 0);
    hide ActiveHome;
    assert Ascends(Maybe(ActiveHome()), 0);
    assert Ascends(With(Lock(Operation, CLIENT), true, Skip), 0);
  }

  lemma HomeAscends()
    ensures Ascends(ActiveHome(), 1)
  {
    TouchAscends(Lifecycle, CLIENT, 1);
    TouchAscends(Runtime, CLIENT, 1);
    hide Touch;
  }

  lemma {:induction false} AscendsLower(c: Code, high: nat, low: nat)
    requires Ascends(c, high) && low <= high
    ensures Ascends(c, low)
  {
    match c
    case Skip =>
    case With(_, _, _) =>
    case Then(first, second) =>
      AscendsLower(first, high, low);
      AscendsLower(second, high, low);
    case Either(left, right) =>
      AscendsLower(left, high, low);
      AscendsLower(right, high, low);
  }

  /** Every function of the source takes its locks in rank order. */
  lemma TasksAscend(t: Task)
    ensures Ascends(CodeOf(t), 0)
  {
    match t
    case Calling(s, t) =>
      CallAscends(s, t);
      InvokeAscends(ClientRequest(s, t));
    case CallingRemotely(s, t) =>
      CallAscends(s, t);
      InvokeAscends(ClientRequest(s, t));
    case AskingStatus(s) =>
      StatusAscends(s);
      InvokeAscends(Status(s));
    case ShuttingDown(s) =>
      ShutdownAscends(s);
      InvokeAscends(Shutdown(s));
    case Reading(s) =>
      ReadAscends(s);
      InvokeAscends(ReadFrame(s));
    case Replying(s) =>
      ReplyAscends(s);
      InvokeAscends(Respond(s));
    case ListingRequests(s) =>
      ReplyAscends(s);
      InvokeAscends(PendingServerRequests(s));
    case ListingProjects(s, t) =>
      CallAscends(s, t);
      HomeAscends();
      assert Ascends(Maybe(ClientRequest(s, t)), 1) by { hide ClientRequest; }
      assert Ascends(Then(ActiveHome(), Maybe(ClientRequest(s, t))), 1) by { hide ActiveHome, ClientRequest, Maybe; }
      InvokeAscends(Then(ActiveHome(), Maybe(ClientRequest(s, t))));
    case Managing => TouchAscends(Operation, CLIENT, 0);
    case CheckingOut => TouchAscends(Checkout, CLIENT, 0);
    case UsingEvents => TouchAscends(Events, CLIENT, 0);
  }

  lemma CallAscends(s: nat, t: nat)
    ensures Ascends(ClientRequest(s, t), 1)
  {
    EnsureAscends(s, t);
    RequestAscends(t, 1);
    hide EnsureSession, Request;
    assert Ascends(Maybe(Request(t)), 1);
  }

  /** A lock in a stack is below the stack's floor. */
  lemma {:induction false} HeldBelowFloor(k: Stack, l: Lock)
    requires Ordered(k) && Holds(k, l)
    ensures Rank(l) < Floor(k)
  {
    if k[0] != Unlock(l, false) && k[0] != Unlock(l, true) {
      assert k == [k[0]] + k[1..];
      HeldBelowFloor(k[1..], l);
    }
  }

  lemma AdvancedOrdered(k: Stack, left: bool)
    requires Ordered(k) && k != []
    ensures Ordered(Advanced(k, left))
  {
    var rest := k[1..];
    match k[0]
    case Do(Then(first, second)) =>
      assert ([Do(first), Do(second)] + rest)[1..] == [Do(second)] + rest;
      assert ([Do(second)] + rest)[1..] == rest;
    case Do(Either(a, b)) => assert ([Do(if left then a else b)] + rest)[1..] == rest;
    case Do(With(l, shared, body)) =>
      assert ([Do(body), Unlock(l, shared)] + rest)[1..] == [Unlock(l, shared)] + rest;
      assert ([Unlock(l, shared)] + rest)[1..] == rest;
    case _ =>
  }

  lemma {:induction false} RunOrdered(actions: seq<Action>)
    ensures AllOrdered(Run(actions))
  {
    if actions != [] {
      var threads, a := Run(actions[..|actions| - 1]), actions[|actions| - 1];
      RunOrdered(actions[..|actions| - 1]);
      match a
      case Begin(t) => TasksAscend(t);
      case Go(i, left) =>
        if CanStep(threads, i) {
          AdvancedOrdered(threads[i], left);
        }
    }
  }

  // ---------------------------------------------------------------- waiting

  /** A thread's place in the order of waiting: its lock's rank, a reader before a writer. */
  function Place(k: Stack): nat
    requires Locking(k)
  {
    2 * Rank(Wanted(k)) + if k[0].c.shared then 0 else 1
  }

  /** Who is waited for and waits itself has a higher place. */
  lemma WaitsUpward(threads: seq<Stack>, i: nat, j: nat)
    requires AllOrdered(threads) && WaitsFor(threads, i, j) && Locking(threads[j])
    ensures Place(threads[i]) < Place(threads[j])
  {
    var l := Wanted(threads[i]);
    assert Ordered(threads[j]);
    if Holds(threads[j], l) {
      HeldBelowFloor(threads[j], l);
    }
  }

  /** No circle in the wait-for graph, of any length, in any run. */
  lemma {:induction false} NoCircularWait(actions: seq<Action>, path: seq<nat>)
    requires |path| >= 2
    requires forall n | 0 <= n < |path| - 1 :: WaitsFor(Run(actions), path[n], path[n + 1])
    ensures path[0] != path[|path| - 1]
  {
    var threads := Run(actions);
    RunOrdered(actions);
    if path[0] == path[|path| - 1] {
      var n := |path| - 2;
      PlacesClimb(threads, path, n);
      assert WaitsFor(threads, path[n], path[n + 1]);
      WaitsUpward(threads, path[n], path[n + 1]);
    }
  }

  lemma {:induction false} PlacesClimb(threads: seq<Stack>, path: seq<nat>, n: nat)
    requires AllOrdered(threads) && n < |path| - 1
    requires forall m | 0 <= m < |path| - 1 :: WaitsFor(threads, path[m], path[m + 1])
    ensures WaitsFor(threads, path[0], path[1]) && WaitsFor(threads, path[n], path[n + 1])
    ensures Place(threads[path[0]]) <= Place(threads[path[n]])
  {
    assert WaitsFor(threads, path[n], path[n + 1]);
    if n > 0 {
      PlacesClimb(threads, path, n - 1);
      WaitsUpward(threads, path[n - 1], path[n]);
    }
  }

  /** So some thread can always go on. */
  lemma {:induction false} SomeoneCanStep(threads: seq<Stack>, i: nat) returns (j: nat)
    requires AllOrdered(threads) && i < |threads| && threads[i] != []
    ensures CanStep(threads, j)
    decreases if Locking(threads[i]) then 2 * RANKS - Place(threads[i]) else 2 * RANKS + 1
  {
    j := i;
    if !CanStep(threads, i) {
      var other: nat :| other < |threads| && WaitsFor(threads, i, other);
      j := other;
      if !CanStep(threads, other) {
        WaitsUpward(threads, i, other);
        j := SomeoneCanStep(threads, other);
      }
    }
  }

  function Work(c: Code): nat {
    match c
    case Skip => 1
    case Then(first, second) => 1 + Work(first) + Work(second)
    case Either(left, right) => 1 + Work(left) + Work(right)
    case With(_, _, body) => 2 + Work(body)
  }

  function Left(k: Stack): nat {
    if k == [] then 0 else (if k[0].Do? then Work(k[0].c) else 1) + Left(k[1..])
  }

  lemma LeftOfTwo(a: Item, b: Item, k: Stack)
    ensures Left([a] + k) == Left([a]) + Left(k)
    ensures Left([a, b] + k) == Left([a]) + Left([b]) + Left(k)
  {
    assert ([a] + k)[1..] == k;
    assert ([a, b] + k)[1..] == [b] + k && ([b] + k)[1..] == k;
  }

  /** In every run, as long as any thread is unfinished, some thread can go on, and a step leaves it less to do:
      left to themselves, all threads finish. */
  lemma {:induction false} NoDeadlock(actions: seq<Action>, i: nat, left: bool) returns (j: nat)
    requires i < |Run(actions)| && Run(actions)[i] != []
    ensures CanStep(Run(actions), j)
    ensures Left(Step(Run(actions), Go(j, left))[j]) < Left(Run(actions)[j])
    ensures forall k | 0 <= k < |Run(actions)| && k != j :: Step(Run(actions), Go(j, left))[k] == Run(actions)[k]
  {
    RunOrdered(actions);
    j := SomeoneCanStep(Run(actions), i);
    LessLeft(Run(actions)[j], left);
  }

  lemma LessLeft(k: Stack, left: bool)
    requires k != []
    ensures Left(Advanced(k, left)) < Left(k)
  {
    match k[0]
    case Do(Then(first, second)) => LeftOfTwo(Do(first), Do(second), k[1..]);
    case Do(Either(a, b)) => LeftOfTwo(Do(if left then a else b), Do(Skip), k[1..]);
    case Do(With(l, shared, body)) => LeftOfTwo(Do(body), Unlock(l, shared), k[1..]);
    case _ =>
  }

  /** Locks exclude: whoever holds one for writing is its only holder. */
  lemma {:induction false} MutualExclusion(actions: seq<Action>, i: nat, j: nat, l: Lock)
    requires i < |Run(actions)| && j < |Run(actions)|
    requires Unlock(l, false) in Run(actions)[i] && Holds(Run(actions)[j], l)
    ensures i == j
  {
    if i != j {
      var before, a := Run(actions[..|actions| - 1]), actions[|actions| - 1];
      if a.Go? && CanStep(before, a.i) {
        AdvancedHolds(before[a.i], a.left, l);
        assert !WaitsFor(before, a.i, if a.i == i then j else i);
      }
      if i < |before| && j < |before| && Unlock(l, false) in before[i] && Holds(before[j], l) {
        MutualExclusion(actions[..|actions| - 1], i, j, l);
      }
    }
  }

  /** A step takes no lock but the one it was waiting for, and in the way it asked for it. */
  lemma AdvancedHolds(k: Stack, left: bool, l: Lock)
    requires k != []
    ensures forall shared :: Unlock(l, shared) in Advanced(k, left) ==>
      Unlock(l, shared) in k || (Locking(k) && Wanted(k) == l && k[0].c.shared == shared)
  {
    assert forall item | item in k[1..] :: item in k;
  }
}
