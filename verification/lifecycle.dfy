/** Sessions over time: `ensure_session`, `shutdown` and process exits under the lifecycle lock, and the
    handshake each session starts with (`src/app_server.rs`). */
module Lifecycle {
  import opened Json

  /** What has gone out on one session's input, and the one reply that matters to the handshake. */
  datatype Entry = Initialize | InitializeOk | Initialized | Call | Reply | Rejection

  /** How far `set_exit` has come: swap `alive`, clear `initialized`, record the cause. */
  datatype Stage = Running | Swapped | Cleared | Recorded

  datatype Session = Session(
    alive: bool,
    initialized: bool,
    stage: Stage,
    exit: Option<Value>,
    causes: seq<Value>,  // of every call of `set_exit`, in the order of their swaps
    log: seq<Entry>)

  const FRESH := Session(true, false, Running, None, [], [])

  /** Where a thread is in `ensure_session`, in using the session it got, or in `shutdown`. */
  datatype Phase =
    | Idle
    | SawAlive(s: nat)          // the unlocked check: alive, `initialized` not read yet
    | Contending                // waits for the lifecycle lock
    | Locked
    | LockedSawAlive(s: nat)    // the check repeated under the lock
    | Looking                   // about to ask for a live session
    | Starting                  // there was none
    | Started(s: nat)           // spawned, not yet in `runtime.session`
    | Holding(s: nat)           // about to read `initialized`
    | Greeting(s: nat)          // it was false: about to check `alive` in `request`
    | GreetingAlive(s: nat)     // about to write `initialize`
    | Awaiting(s: nat)          // written
    | Welcomed(s: nat)          // a successful reply: about to write `initialized`
    | Greeted(s: nat)           // written: about to store the flag
    | Ready(s: nat)             // has returned from `ensure_session`
    | Calling(s: nat)           // `request` found the session alive: about to write
    | ShutdownContending
    | ShutdownLocked
    | Stopping(s: nat)          // took the session out of `runtime.session`
  {
    predicate Holds() {
      match this
      case Idle | SawAlive(_) | Contending | Ready(_) | Calling(_) | ShutdownContending => false
      case _ => true
    }
  }

  datatype State = State(
    sessions: seq<Session>,
    current: Option<nat>,       // `runtime.session`
    holder: Option<nat>,        // the thread that holds the lifecycle lock
    threads: seq<Phase>)

  const START := State([], None, None, [])

  /** `Go` is a thread's next step, `ok` the outcome of what the step asks of the process or the caller's wish. */
  datatype Action =
    | Enter
    | EnterShutdown
    | Go(i: nat, ok: bool, cause: Value)
    | Respond(i: nat, ok: bool)
    | Reject(s: nat)
    | SetExit(s: nat, cause: Value)
    | ClearInitialized(s: nat)
    | RecordExit(s: nat)

  function Alive(st: State, s: nat): bool {
    s < |st.sessions| && st.sessions[s].alive
  }

  function IsInitialized(st: State, s: nat): bool {
    s < |st.sessions| && st.sessions[s].initialized
  }

  /** `current_live_session`. */
  function Live(st: State): Option<nat> {
    if st.current.Some? && Alive(st, st.current.value) then st.current else None
  }

  function At(st: State, i: nat, p: Phase): State
    requires i < |st.threads|
  {
    st.(threads := st.threads[i := p])
  }

  function Released(st: State, i: nat, p: Phase): State
    requires i < |st.threads|
  {
    st.(threads := st.threads[i := p], holder := None)
  }

  function Acquired(st: State, i: nat, p: Phase): State
    requires i < |st.threads|
  {
    if st.holder.None? then st.(threads := st.threads[i := p], holder := Some(i)) else st
  }

  function Logged(st: State, s: nat, e: Entry): State {
    if s < |st.sessions|
    then st.(sessions := st.sessions[s := st.sessions[s].(log := st.sessions[s].log + [e])])
    else st
  }

  /** `alive.swap(false)`: only the first caller goes on to the other two steps. */
  function Died(x: Session, cause: Value): Session {
    x.(alive := false, causes := x.causes + [cause], stage := if x.alive then Swapped else x.stage)
  }

  function Dead(st: State, s: nat, cause: Value): State {
    if s < |st.sessions| then st.(sessions := st.sessions[s := Died(st.sessions[s], cause)]) else st
  }

  function Stored(st: State, s: nat): State {
    if s < |st.sessions| then st.(sessions := st.sessions[s := st.sessions[s].(initialized := true)]) else st
  }

  function Next(st: State, i: nat, ok: bool, cause: Value): State
    requires i < |st.threads|
  {
    match st.threads[i]
    case Idle =>
      if Live(st).Some? then At(st, i, SawAlive(Live(st).value)) else if ok then At(st, i, Contending) else st
    case SawAlive(s) => At(st, i, if IsInitialized(st, s) then Ready(s) else if ok then Contending else Idle)
    case Contending => Acquired(st, i, Locked)
    case Locked => At(st, i, if Live(st).Some? then LockedSawAlive(Live(st).value) else Looking)
    case LockedSawAlive(s) => if IsInitialized(st, s) then Released(st, i, Ready(s)) else At(st, i, Looking)
    case Looking => At(st, i, if Live(st).Some? then Holding(Live(st).value) else Starting)
    case Starting =>
      if ok then At(st.(sessions := st.sessions + [FRESH]), i, Started(|st.sessions|)) else Released(st, i, Idle)
    case Started(s) => At(st.(current := Some(s)), i, Holding(s))
    case Holding(s) => if IsInitialized(st, s) then Released(st, i, Ready(s)) else At(st, i, Greeting(s))
    case Greeting(s) => if Alive(st, s) then At(st, i, GreetingAlive(s)) else Released(st, i, Idle)
    case GreetingAlive(s) => if ok then At(Logged(st, s, Initialize), i, Awaiting(s)) else Released(st, i, Idle)
    case Awaiting(s) => if ok then At(Logged(st, s, InitializeOk), i, Welcomed(s)) else Released(st, i, Idle)
    case Welcomed(s) => if ok then At(Logged(st, s, Initialized), i, Greeted(s)) else Released(st, i, Idle)
    case Greeted(s) => Released(Stored(st, s), i, Ready(s))
    case Ready(s) => At(st, i, if ok && Alive(st, s) then Calling(s) else Idle)
    case Calling(s) => At(if ok then Logged(st, s, Call) else st, i, Idle)
    case ShutdownContending => Acquired(st, i, ShutdownLocked)
    case ShutdownLocked =>
      if st.current.Some? then At(st.(current := None), i, Stopping(st.current.value)) else Released(st, i, Idle)
    case Stopping(s) => Released(Dead(st, s, cause), i, Idle)
  }

  function Step(st: State, a: Action): State {
    match a
    case Enter => st.(threads := st.threads + [Idle])
    case EnterShutdown => st.(threads := st.threads + [ShutdownContending])
    case Go(i, ok, cause) => if i < |st.threads| then Next(st, i, ok, cause) else st
    case Respond(i, ok) =>
      if i < |st.threads| && st.threads[i].Ready?
      then At(if ok then Logged(st, st.threads[i].s, Reply) else st, i, Idle) else st
    case Reject(s) => Logged(st, s, Rejection)
    case SetExit(s, cause) => Dead(st, s, cause)
    case ClearInitialized(s) =>
      if s < |st.sessions| && st.sessions[s].stage.Swapped?
      then st.(sessions := st.sessions[s := st.sessions[s].(initialized := false, stage := Cleared)]) else st
    case RecordExit(s) =>
      if s < |st.sessions| && st.sessions[s].stage.Cleared? && st.sessions[s].causes != []
      then st.(sessions := st.sessions[s := st.sessions[s].(exit := Some(st.sessions[s].causes[0]), stage := Recorded)])
      else st
  }

  function Run(st: State, actions: seq<Action>): State {
    if actions == [] then st else Step(Run(st, actions[..|actions| - 1]), actions[|actions| - 1])
  }

  // ---------------------------------------------------------------- one session's log

  /** The handshake, as the log shows it. */
  predicate Shaken(log: seq<Entry>) {
    Initialized in log
  }

  /** `initialized` only after a successful reply to `initialize`, at most once and never followed by another
      `initialize`; calls and replies only after `initialized`. */
  predicate Ordered(log: seq<Entry>) {
    forall p | 0 <= p < |log| ::
      && (log[p].InitializeOk? ==> Initialize in log[..p])
      && (log[p].Initialized? ==> InitializeOk in log[..p] && Initialized !in log[..p])
      && (log[p].Initialize? ==> Initialized !in log[..p])
      && (log[p].Call? || log[p].Reply? ==> Initialized in log[..p])
  }

  /** What may be appended to an ordered log. */
  predicate MayFollow(log: seq<Entry>, e: Entry) {
    match e
    case Initialize => Initialized !in log
    case InitializeOk => Initialize in log
    case Initialized => InitializeOk in log && Initialized !in log
    case Call => Initialized in log
    case Reply => Initialized in log
    case Rejection => true
  }

  lemma OrderedSnoc(log: seq<Entry>, e: Entry)
    requires Ordered(log) && MayFollow(log, e)
    ensures Ordered(log + [e])
  {
    var longer := log + [e];
    forall p | 0 <= p < |longer| ensures longer[..p] == log[..p] && (p == |log| ==> log[..p] == log) {
    }
  }

  // ---------------------------------------------------------------- the invariant

  /** The lock's holder is the one thread inside the locked region. */
  predicate Mutex(st: State) {
    && (st.holder.Some? ==> st.holder.value < |st.threads| && st.threads[st.holder.value].Holds())
    && forall i | 0 <= i < |st.threads| && st.threads[i].Holds() :: st.holder == Some(i)
  }

  /** The phase of the lock's holder. */
  function Held(st: State): Phase {
    if st.holder.Some? && st.holder.value < |st.threads| then st.threads[st.holder.value] else Idle
  }

  /** A live session is the current one, unless it is being published or shut down. */
  ghost predicate Known(st: State) {
    forall s: nat | Alive(st, s) ::
      match Held(st)
      case Starting => false
      case Started(t) => s == t
      case Stopping(t) => s == t
      case _ => st.current == Some(s)
  }

  predicate Sound(x: Session) {
    && (x.stage.Running? <==> x.alive)
    && (x.causes == [] <==> x.alive)
    && (x.exit.Some? <==> x.stage.Recorded?)
    && (x.exit.Some? ==> x.causes != [] && x.exit == Some(x.causes[0]))
    && Ordered(x.log)
    && (x.initialized ==> Shaken(x.log))
  }

  predicate AllSound(st: State) {
    && (st.current.Some? ==> st.current.value < |st.sessions|)
    && forall s | 0 <= s < |st.sessions| :: Sound(st.sessions[s])
  }

  /** A live session that has shaken hands says so, but for the moment before the flag is stored. */
  predicate Settled(st: State) {
    forall s | 0 <= s < |st.sessions| && st.sessions[s].alive && Shaken(st.sessions[s].log) ::
      st.sessions[s].initialized || Held(st) == Greeted(s)
  }

  /** What a thread knows of its session. */
  predicate Knows(st: State, p: Phase) {
    match p
    case SawAlive(s) => s < |st.sessions|
    case LockedSawAlive(s) => s < |st.sessions|
    case Started(s) => s < |st.sessions|
    case Holding(s) => s < |st.sessions|
    case Stopping(s) => s < |st.sessions|
    case Greeting(s) => s < |st.sessions| && (Shaken(st.sessions[s].log) ==> !st.sessions[s].alive)
    case GreetingAlive(s) => s < |st.sessions| && !Shaken(st.sessions[s].log)
    case Awaiting(s) => s < |st.sessions| && !Shaken(st.sessions[s].log) && Initialize in st.sessions[s].log
    case Welcomed(s) => s < |st.sessions| && !Shaken(st.sessions[s].log) && InitializeOk in st.sessions[s].log
    case Greeted(s) => s < |st.sessions| && Shaken(st.sessions[s].log)
    case Ready(s) => s < |st.sessions| && Shaken(st.sessions[s].log)
    case Calling(s) => s < |st.sessions| && Shaken(st.sessions[s].log)
    case _ => true
  }

  predicate AllKnow(st: State) {
    forall i | 0 <= i < |st.threads| :: Knows(st, st.threads[i])
  }

  ghost predicate Inv(st: State) {
    Mutex(st) && Known(st) && AllSound(st) && Settled(st) && AllKnow(st)
  }

  /** Sessions only grow: none is revived, none loses log entries; `initialized` is written only to `to`. */
  predicate Grows(st: State, t: State, to: Option<nat>) {
    && |st.sessions| <= |t.sessions|
    && forall s | 0 <= s < |st.sessions| ::
         && (t.sessions[s].alive ==> st.sessions[s].alive)
         && st.sessions[s].log <= t.sessions[s].log
         && (to != Some(s) && Shaken(t.sessions[s].log) ==> Shaken(st.sessions[s].log))
  }

  lemma KnowsOn(st: State, t: State, to: Option<nat>, p: Phase)
    requires Grows(st, t, to) && Knows(st, p)
    requires to.None? || !p.Holds()
    ensures Knows(t, p)
  {
  }

  lemma AllKnowOn(st: State, t: State, to: Option<nat>, i: nat)
    requires Inv(st) && i < |st.threads| && |t.threads| == |st.threads|
    requires t.threads == st.threads[i := t.threads[i]]
    requires Grows(st, t, to) && (to.Some? ==> st.holder == Some(i))
    requires Knows(t, t.threads[i])
    ensures AllKnow(t)
  {
    forall j | 0 <= j < |t.threads| ensures Knows(t, t.threads[j]) {
      if j != i {
        KnowsOn(st, t, to, st.threads[j]);
      }
    }
  }

  // ---------------------------------------------------------------- every step keeps it

  /** A step of a thread outside the lock that writes nothing. */
  lemma OutsideKeeps(st: State, i: nat, p: Phase)
    requires Inv(st) && i < |st.threads| && !st.threads[i].Holds() && !p.Holds() && Knows(st, p)
    ensures Inv(At(st, i, p))
  {
    hide Sound, Shaken;
    assert Held(At(st, i, p)) == Held(st);
    assert forall s | Alive(At(st, i, p), s) :: Alive(st, s);
    AllKnowOn(st, At(st, i, p), None, i);
  }

  lemma AcquiredKeeps(st: State, i: nat, p: Phase)
    requires Inv(st) && i < |st.threads| && !st.threads[i].Holds() && (p.Locked? || p.ShutdownLocked?)
    ensures Inv(Acquired(st, i, p))
  {
    hide Sound, Shaken;
    AllKnowOn(st, Acquired(st, i, p), None, i);
  }

  predicate Plain(p: Phase) {
    !p.Starting? && !p.Started? && !p.Stopping? && !p.Greeted?
  }

  /** A step of the lock's holder that writes nothing; with `out` it gives up the lock. */
  lemma InsideKeeps(st: State, i: nat, p: Phase, out: bool)
    requires Inv(st) && i < |st.threads| && st.threads[i].Holds() && p.Holds() == !out && Knows(st, p)
    requires Plain(st.threads[i]) && (Plain(p) || (p.Starting? && Live(st).None?))
    ensures Inv(if out then Released(st, i, p) else At(st, i, p))
  {
    hide Sound, Shaken;
    var t := if out then Released(st, i, p) else At(st, i, p);
    assert forall s | Alive(t, s) :: Alive(st, s);
    assert Held(st) == st.threads[i] && Held(t) == (if out then Idle else p);
    AllKnowOn(st, t, None, i);
  }

  lemma SpawnKeeps(st: State, i: nat)
    requires Inv(st) && i < |st.threads| && st.threads[i].Starting?
    ensures Inv(At(st.(sessions := st.sessions + [FRESH]), i, Started(|st.sessions|)))
  {
    var t := At(st.(sessions := st.sessions + [FRESH]), i, Started(|st.sessions|));
    assert forall s | Alive(t, s) && s != |st.sessions| :: Alive(st, s);
    AllKnowOn(st, t, None, i);
  }

  lemma NoSpawnKeeps(st: State, i: nat)
    requires Inv(st) && i < |st.threads| && st.threads[i].Starting?
    ensures Inv(Released(st, i, Idle))
  {
    hide Sound, Shaken;
    AllKnowOn(st, Released(st, i, Idle), None, i);
  }

  lemma PublishKeeps(st: State, i: nat)
    requires Inv(st) && i < |st.threads| && st.threads[i].Started?
    ensures Inv(At(st.(current := Some(st.threads[i].s)), i, Holding(st.threads[i].s)))
  {
    hide Sound, Shaken;
    assert Knows(st, st.threads[i]);
    AllKnowOn(st, At(st.(current := Some(st.threads[i].s)), i, Holding(st.threads[i].s)), None, i);
  }

  lemma TakeKeeps(st: State, i: nat)
    requires Inv(st) && i < |st.threads| && st.threads[i].ShutdownLocked? && st.current.Some?
    ensures Inv(At(st.(current := None), i, Stopping(st.current.value)))
  {
    hide Sound, Shaken;
    var t := At(st.(current := None), i, Stopping(st.current.value));
    assert forall s | Alive(t, s) :: Alive(st, s);
    AllKnowOn(st, t, None, i);
  }

  /** Whatever dies, dies: nothing else depends on a session being alive. */
  lemma DeadKeeps(st: State, s: nat, cause: Value)
    requires Inv(st)
    ensures Inv(Dead(st, s, cause))
  {
    hide Shaken, Ordered;
    var t := Dead(st, s, cause);
    assert forall r | Alive(t, r) :: Alive(st, r);
    if s < |st.sessions| {
      assert Sound(t.sessions[s]);
      assert t.sessions[s].causes[0] == (st.sessions[s].causes + [cause])[0];
    }
    forall j | 0 <= j < |t.threads| ensures Knows(t, t.threads[j]) {
      KnowsOn(st, t, None, st.threads[j]);
    }
  }

  lemma StoppedKeeps(st: State, i: nat)
    requires Inv(st) && i < |st.threads| && st.threads[i].Stopping? && !Alive(st, st.threads[i].s)
    ensures Inv(Released(st, i, Idle))
  {
    hide Sound, Shaken;
    AllKnowOn(st, Released(st, i, Idle), None, i);
  }

  lemma StoredKeeps(st: State, i: nat)
    requires Inv(st) && i < |st.threads| && st.threads[i].Greeted?
    ensures Inv(Released(Stored(st, st.threads[i].s), i, Ready(st.threads[i].s)))
  {
    hide Shaken, Ordered;
    var s := st.threads[i].s;
    var t := Released(Stored(st, s), i, Ready(s));
    assert Knows(st, st.threads[i]);
    assert forall r | Alive(t, r) :: Alive(st, r);
    AllKnowOn(st, t, None, i);
  }

  /** A log entry changes no one's state but what the log shows. */
  lemma LoggedKeeps(st: State, s: nat, e: Entry)
    requires Inv(st) && s < |st.sessions| && MayFollow(st.sessions[s].log, e) && !e.Initialized?
    ensures Inv(Logged(st, s, e))
  {
    hide Ordered, MayFollow;
    var t := Logged(st, s, e);
    OrderedSnoc(st.sessions[s].log, e);
    assert Sound(t.sessions[s]);
    assert forall r | Alive(t, r) :: Alive(st, r);
    forall j | 0 <= j < |t.threads| ensures Knows(t, t.threads[j]) {
      KnowsOn(st, t, None, st.threads[j]);
    }
  }

  lemma GreetKeeps(st: State, i: nat)
    requires Inv(st) && i < |st.threads| && st.threads[i].Welcomed?
    ensures Inv(Greets(st, i))
  {
    hide Sound, Ordered;
    assert Knows(st, st.threads[i]);
    GreetSound(st, i);
    GreetKnown(st, i);
    hide AllSound, Known;
    AllKnowOn(st, Greets(st, i), Some(st.threads[i].s), i);
  }

  function Greets(st: State, i: nat): State
    requires i < |st.threads| && st.threads[i].Welcomed?
  {
    At(Logged(st, st.threads[i].s, Initialized), i, Greeted(st.threads[i].s))
  }

  lemma GreetSound(st: State, i: nat)
    requires Inv(st) && i < |st.threads| && st.threads[i].Welcomed?
    ensures AllSound(Greets(st, i))
  {
    hide Ordered, Known, Settled, Mutex;
    var s := st.threads[i].s;
    assert Knows(st, st.threads[i]);
    OrderedSnoc(st.sessions[s].log, Initialized);
    assert Sound(Greets(st, i).sessions[s]);
  }

  lemma GreetKnown(st: State, i: nat)
    requires Inv(st) && i < |st.threads| && st.threads[i].Welcomed?
    ensures Known(Greets(st, i))
  {
    hide AllSound, Settled, Shaken;
    assert Knows(st, st.threads[i]);
    assert forall r | Alive(Greets(st, i), r) :: Alive(st, r);
  }

  lemma OutsideNext(st: State, i: nat, ok: bool, cause: Value)
    requires Inv(st) && i < |st.threads| && !st.threads[i].Holds()
    ensures Inv(Next(st, i, ok, cause))
  {
    assert Knows(st, st.threads[i]);
    FlagMeansShaken(st, i);
    LiveExists(st);
    hide Inv, Live, IsInitialized, Alive, Shaken, Logged, Dead, Stored, Acquired, At;
    match st.threads[i]
    case Idle => OutsideKeeps(st, i, if Live(st).Some? then SawAlive(Live(st).value) else Contending);
    case SawAlive(s) => OutsideKeeps(st, i, if IsInitialized(st, s) then Ready(s) else if ok then Contending else Idle);
    case Contending => AcquiredKeeps(st, i, Locked);
    case Ready(s) =>
      OutsideKeeps(st, i, Calling(s));
      OutsideKeeps(st, i, Idle);
    case Calling(s) => CallKeeps(st, i, Call);
    case ShutdownContending => AcquiredKeeps(st, i, ShutdownLocked);
  }

  predicate Checks(p: Phase) {
    p.Locked? || p.LockedSawAlive? || p.Looking? || p.Holding? || p.Greeting?
  }

  lemma ChecksNext(st: State, i: nat, ok: bool, cause: Value)
    requires Inv(st) && i < |st.threads| && Checks(st.threads[i])
    ensures Inv(Next(st, i, ok, cause))
  {
    FlagMeansShaken(st, i);
    LiveExists(st);
    hide Inv, Live, IsInitialized, Alive, Shaken, Logged, Dead, Stored, Acquired, At, Released;
    match st.threads[i]
    case Locked => InsideKeeps(st, i, if Live(st).Some? then LockedSawAlive(Live(st).value) else Looking, false);
    case LockedSawAlive(s) =>
      InsideKeeps(st, i, if IsInitialized(st, s) then Ready(s) else Looking, IsInitialized(st, s));
    case Looking => InsideKeeps(st, i, if Live(st).Some? then Holding(Live(st).value) else Starting, false);
    case Holding(s) => HoldingKeeps(st, i);
    case Greeting(s) => GreetingKeeps(st, i);
  }

  lemma WritesNext(st: State, i: nat, ok: bool, cause: Value)
    requires Inv(st) && i < |st.threads| && st.threads[i].Holds() && !Checks(st.threads[i])
    ensures Inv(Next(st, i, ok, cause))
  {
    hide Inv, Live, IsInitialized, Alive, Shaken, Logged, Dead, Stored, Acquired, At, Released;
    match st.threads[i]
    case Starting =>
      SpawnKeeps(st, i);
      NoSpawnKeeps(st, i);
    case Started(s) => PublishKeeps(st, i);
    case GreetingAlive(s) => WritesKeep(st, i, ok, Initialize, Awaiting(s));
    case Awaiting(s) => WritesKeep(st, i, ok, InitializeOk, Welcomed(s));
    case Welcomed(s) =>
      GreetKeeps(st, i);
      InsideKeeps(st, i, Idle, true);
    case Greeted(s) => StoredKeeps(st, i);
    case ShutdownLocked =>
      if st.current.Some? {
        TakeKeeps(st, i);
      } else {
        InsideKeeps(st, i, Idle, true);
      }
    case Stopping(s) => StopKeeps(st, i, cause);
  }

  lemma NextKeeps(st: State, i: nat, ok: bool, cause: Value)
    requires Inv(st) && i < |st.threads|
    ensures Inv(Next(st, i, ok, cause))
  {
    hide Inv, Next;
    if !st.threads[i].Holds() {
      OutsideNext(st, i, ok, cause);
    } else if Checks(st.threads[i]) {
      ChecksNext(st, i, ok, cause);
    } else {
      WritesNext(st, i, ok, cause);
    }
  }

  lemma LiveExists(st: State)
    ensures Live(st).Some? ==> Live(st).value < |st.sessions|
  {
  }

  /** Reading `initialized` tells that hands were shaken; a session found not initialized either has not shaken
      hands or is dead. */
  lemma FlagMeansShaken(st: State, i: nat)
    requires Inv(st) && i < |st.threads|
    ensures st.threads[i].SawAlive? || st.threads[i].LockedSawAlive? || st.threads[i].Holding? ==>
      st.threads[i].s < |st.sessions|
      && (IsInitialized(st, st.threads[i].s) ==> Shaken(st.sessions[st.threads[i].s].log))
  {
    hide Shaken, Ordered;
    assert Knows(st, st.threads[i]);
  }

  lemma HoldingKeeps(st: State, i: nat)
    requires Inv(st) && i < |st.threads| && st.threads[i].Holding?
    ensures var s := st.threads[i].s;
      Inv(if IsInitialized(st, s) then Released(st, i, Ready(s)) else At(st, i, Greeting(s)))
  {
    var s := st.threads[i].s;
    assert Knows(st, st.threads[i]);
    FlagMeansShaken(st, i);
    assert Held(st) == st.threads[i];
    if IsInitialized(st, s) {
      InsideKeeps(st, i, Ready(s), true);
    } else {
      assert Knows(st, Greeting(s));
      InsideKeeps(st, i, Greeting(s), false);
    }
  }

  lemma GreetingKeeps(st: State, i: nat)
    requires Inv(st) && i < |st.threads| && st.threads[i].Greeting?
    ensures var s := st.threads[i].s;
      Inv(if Alive(st, s) then At(st, i, GreetingAlive(s)) else Released(st, i, Idle))
  {
    var s := st.threads[i].s;
    assert Knows(st, st.threads[i]);
    if Alive(st, s) {
      InsideKeeps(st, i, GreetingAlive(s), false);
    } else {
      InsideKeeps(st, i, Idle, true);
    }
  }

  lemma WritesKeep(st: State, i: nat, ok: bool, e: Entry, p: Phase)
    requires Inv(st) && i < |st.threads|
    requires || (st.threads[i].GreetingAlive? && e == Initialize && p == Awaiting(st.threads[i].s))
             || (st.threads[i].Awaiting? && e == InitializeOk && p == Welcomed(st.threads[i].s))
    ensures Inv(if ok then At(Logged(st, st.threads[i].s, e), i, p) else Released(st, i, Idle))
  {
    var s := st.threads[i].s;
    assert Knows(st, st.threads[i]);
    if ok {
      LoggedKeeps(st, s, e);
      InsideKeeps(Logged(st, s, e), i, p, false);
    } else {
      InsideKeeps(st, i, Idle, true);
    }
  }

  lemma CallKeeps(st: State, i: nat, e: Entry)
    requires Inv(st) && i < |st.threads| && (st.threads[i].Calling? || st.threads[i].Ready?) && (e.Call? || e.Reply?)
    ensures Inv(At(Logged(st, st.threads[i].s, e), i, Idle)) && Inv(At(st, i, Idle))
  {
    assert Knows(st, st.threads[i]);
    LoggedKeeps(st, st.threads[i].s, e);
    OutsideKeeps(Logged(st, st.threads[i].s, e), i, Idle);
    OutsideKeeps(st, i, Idle);
  }

  lemma StopKeeps(st: State, i: nat, cause: Value)
    requires Inv(st) && i < |st.threads| && st.threads[i].Stopping?
    ensures Inv(Released(Dead(st, st.threads[i].s, cause), i, Idle))
  {
    DeadKeeps(st, st.threads[i].s, cause);
    StoppedKeeps(Dead(st, st.threads[i].s, cause), i);
  }

  lemma ExitStepsKeep(st: State, s: nat)
    requires Inv(st)
    ensures Inv(Step(st, ClearInitialized(s))) && Inv(Step(st, RecordExit(s)))
  {
    hide Shaken, Ordered;
    if s < |st.sessions| {
      assert Sound(st.sessions[s]);
      if st.sessions[s].stage.Swapped? {
        DeadWritesKeep(st, s, st.sessions[s].(initialized := false, stage := Cleared));
      }
      if st.sessions[s].stage.Cleared? {
        DeadWritesKeep(st, s, st.sessions[s].(exit := Some(st.sessions[s].causes[0]), stage := Recorded));
      }
    }
  }

  lemma DeadWritesKeep(st: State, s: nat, x: Session)
    requires Inv(st) && s < |st.sessions| && !st.sessions[s].alive
    requires Sound(x) && !x.alive && x.log == st.sessions[s].log
    ensures Inv(st.(sessions := st.sessions[s := x]))
  {
    hide Shaken, Sound;
    var t := st.(sessions := st.sessions[s := x]);
    assert forall r | Alive(t, r) :: Alive(st, r);
    forall j | 0 <= j < |t.threads| ensures Knows(t, t.threads[j]) {
      KnowsOn(st, t, None, st.threads[j]);
    }
  }

  lemma EnterKeeps(st: State, p: Phase)
    requires Inv(st) && !p.Holds() && (p.Idle? || p.ShutdownContending?)
    ensures Inv(st.(threads := st.threads + [p]))
  {
    hide Sound, Shaken;
    var t := st.(threads := st.threads + [p]);
    assert Held(t) == Held(st);
    assert forall r | Alive(t, r) :: Alive(st, r);
    forall j | 0 <= j < |t.threads| ensures Knows(t, t.threads[j]) {
      if j < |st.threads| {
        KnowsOn(st, t, None, st.threads[j]);
      }
    }
  }

  lemma StepKeeps(st: State, a: Action)
    requires Inv(st)
    ensures Inv(Step(st, a))
  {
    hide Inv, Logged, Dead, Next;
    match a
    case Enter => EnterKeeps(st, Idle);
    case EnterShutdown => EnterKeeps(st, ShutdownContending);
    case Go(i, ok, cause) =>
      if i < |st.threads| {
        NextKeeps(st, i, ok, cause);
      }
    case Respond(i, ok) =>
      if i < |st.threads| && st.threads[i].Ready? {
        CallKeeps(st, i, Reply);
      }
    case Reject(s) => RejectKeeps(st, s);
    case SetExit(s, cause) => DeadKeeps(st, s, cause);
    case ClearInitialized(s) => ExitStepsKeep(st, s);
    case RecordExit(s) => ExitStepsKeep(st, s);
  }

  lemma RejectKeeps(st: State, s: nat)
    requires Inv(st)
    ensures Inv(Logged(st, s, Rejection))
  {
    if s < |st.sessions| {
      LoggedKeeps(st, s, Rejection);
    }
  }

  lemma {:induction false} RunKeeps(actions: seq<Action>)
    ensures Inv(Run(START, actions))
  {
    if actions != [] {
      RunKeeps(actions[..|actions| - 1]);
      StepKeeps(Run(START, actions[..|actions| - 1]), actions[|actions| - 1]);
    }
  }

  // ---------------------------------------------------------------- what every run guarantees

  /** At most one session is alive, whoever starts, stops or polls. */
  lemma {:induction false} AtMostOneLive(actions: seq<Action>, s: nat, t: nat)
    requires Alive(Run(START, actions), s) && Alive(Run(START, actions), t)
    ensures s == t
  {
    hide Run, Alive;
    RunKeeps(actions);
  }

  /** In every session's log `initialized` follows a successful reply to `initialize`, comes once and is the end
      of greeting, and every call and every reply to a server request comes after it. */
  lemma {:induction false} HandshakeFirst(actions: seq<Action>, s: nat, p: nat)
    requires s < |Run(START, actions).sessions| && p < |Run(START, actions).sessions[s].log|
    ensures var log := Run(START, actions).sessions[s].log;
      && (log[p].Call? || log[p].Reply? ==>
            exists q, r, o | 0 <= q < r < o < p ::
              log[q] == Initialize && log[r] == InitializeOk && log[o] == Initialized)
      && (log[p].Initialized? ==> forall q | p < q < |log| :: !log[q].Initialized? && !log[q].Initialize?)
  {
    RunKeeps(actions);
    assert Sound(Run(START, actions).sessions[s]);
    OrderedMeans(Run(START, actions).sessions[s].log, p);
  }

  lemma OrderedMeans(log: seq<Entry>, p: nat)
    requires Ordered(log) && p < |log|
    ensures log[p].Call? || log[p].Reply? ==>
      exists q, r, o | 0 <= q < r < o < p :: log[q] == Initialize && log[r] == InitializeOk && log[o] == Initialized
    ensures log[p].Initialized? ==> forall q | p < q < |log| :: !log[q].Initialized? && !log[q].Initialize?
  {
    if log[p].Call? || log[p].Reply? {
      var o :| 0 <= o < p && log[..p][o] == Initialized;
      var r :| 0 <= r < o && log[..o][r] == InitializeOk;
      var q :| 0 <= q < r && log[..r][q] == Initialize;
      assert log[q] == Initialize && log[r] == InitializeOk && log[o] == Initialized;
    }
    if log[p].Initialized? {
      forall q | p < q < |log| ensures !log[q].Initialized? && !log[q].Initialize? {
        assert log[..q][p] == Initialized;
      }
    }
  }

  /** A dead session stays dead and keeps the first cause given to `set_exit`, which is the only one it ever
      records. */
  lemma {:induction false} FirstExitOnly(actions: seq<Action>, more: seq<Action>, s: nat)
    requires s < |Run(START, actions).sessions| && !Run(START, actions).sessions[s].alive
    ensures var x, y := Run(START, actions).sessions[s], Run(Run(START, actions), more);
      && s < |y.sessions| && !y.sessions[s].alive
      && x.causes != [] && y.sessions[s].causes != [] && y.sessions[s].causes[0] == x.causes[0]
      && (y.sessions[s].exit.Some? ==> y.sessions[s].exit == Some(x.causes[0]))
      && (x.exit.Some? ==> y.sessions[s].exit == x.exit)
  {
    RunKeeps(actions);
    StaysDead(Run(START, actions), more, s);
  }

  lemma {:induction false} StaysDead(st: State, more: seq<Action>, s: nat)
    requires Inv(st) && s < |st.sessions| && !st.sessions[s].alive
    ensures var x, y := st.sessions[s], Run(st, more);
      && Inv(y) && s < |y.sessions| && Outlives(x, y.sessions[s])
  {
    if more != [] {
      var front := Run(st, more[..|more| - 1]);
      StaysDead(st, more[..|more| - 1], s);
      StepKeeps(front, more[|more| - 1]);
      StepStaysDead(front, more[|more| - 1], s);
    } else {
      assert Sound(st.sessions[s]);
    }
  }

  predicate Outlives(x: Session, y: Session) {
    && !x.alive && !y.alive && Sound(y)
    && x.causes <= y.causes && x.causes != []
    && (x.exit.Some? ==> y.exit == x.exit)
  }

  /** What any step can do to one session. */
  ghost predicate Evolves(x: Session, y: Session) {
    || y == x.(log := y.log)
    || (exists cause :: y == Died(x, cause))
    || y == x.(initialized := true)
    || (x.stage.Swapped? && y == x.(initialized := false, stage := Cleared))
    || (x.stage.Cleared? && x.causes != [] && y == x.(exit := Some(x.causes[0]), stage := Recorded))
  }

  lemma NextEvolves(st: State, i: nat, ok: bool, cause: Value, s: nat)
    requires i < |st.threads| && s < |st.sessions|
    ensures s < |Next(st, i, ok, cause).sessions| && Evolves(st.sessions[s], Next(st, i, ok, cause).sessions[s])
  {
    hide Live, IsInitialized, Alive;
    assert Evolves(st.sessions[s], st.sessions[s]);
    if st.threads[i].Stopping? {
      assert Evolves(st.sessions[s], Died(st.sessions[s], cause));
    }
  }

  lemma StepEvolves(st: State, a: Action, s: nat)
    requires s < |st.sessions|
    ensures s < |Step(st, a).sessions| && Evolves(st.sessions[s], Step(st, a).sessions[s])
  {
    hide Next;
    assert Evolves(st.sessions[s], st.sessions[s]);
    match a
    case Go(i, ok, cause) =>
      if i < |st.threads| {
        NextEvolves(st, i, ok, cause, s);
      }
    case SetExit(_, cause) => assert Evolves(st.sessions[s], Died(st.sessions[s], cause));
    case _ =>
  }

  lemma StepStaysDead(st: State, a: Action, s: nat)
    requires Inv(st) && Inv(Step(st, a)) && s < |st.sessions| && !st.sessions[s].alive
    ensures s < |Step(st, a).sessions| && Outlives(st.sessions[s], Step(st, a).sessions[s])
  {
    hide Step, Ordered, Shaken;
    StepEvolves(st, a, s);
    assert Sound(st.sessions[s]) && Sound(Step(st, a).sessions[s]);
  }
}
