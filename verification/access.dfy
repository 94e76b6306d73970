/** Authorised access: remote calls and management changes under the read-write lock, in any interleaving
    (`src/invoke_dispatch.rs`, `src/employee_management.rs`). */
module Access {
  import opened Json
  import opened Employees
  import opened Invocations
  import Pages

  /** Accepted: the employee loaded and authorised under the read lock. Sent: the call has led to a request to the
      app-server. Handled: accepted, with a body that leads to none. */
  datatype Phase = Asked | Accepted | Refused(status: nat) | Sent(request: Request) | Handled(body: Fields)

  datatype Call = Call(
    path: string,
    workspace: nat,
    body: Option<Value>,      // None when the bytes are not JSON; empty bytes are an empty object
    phase: Phase,
    asked: nat,               // the version of the file when the call came
    accepted: Option<nat>)    // the version it was accepted under

  /** The employee file after a change that reached it, and the platform listing that change was given. */
  datatype Version = Version(employee: Option<Employee>, listing: Result<set<nat>, nat>)

  /** The versions of the file are its whole history; the last is what is on disk. */
  datatype State = State(versions: seq<Version>, calls: seq<Call>)

  const START := State([Version(None, Ok({}))], [])

  datatype Action =
    | Ask(path: string, workspace: nat, body: Option<Value>)
    | Accept(k: nat)
    | Dispatch(k: nat)
    | Manage(change: Change, world: World)

  function Current(s: State): Option<Employee> {
    if s.versions == [] then None else s.versions[|s.versions| - 1].employee
  }

  /** `require` and `authorize`, under the read lock. */
  function Decide(file: Option<Employee>, workspace: nat): Option<nat> {
    if file.None? then Some(403) else Authorize(file.value, workspace)
  }

  /** A call is refused with 403 without an employee, without its being enabled or without the grant, and with 409 when
      all that is there but the directory; otherwise it is accepted. */
  lemma DecidesSo(file: Option<Employee>, workspace: nat)
    ensures Decide(file, workspace).None? <==>
      file.Some? && file.value.enabled && workspace in file.value.workspaces && file.value.workingDirectory.Some?
    ensures Decide(file, workspace).Some? ==>
      Decide(file, workspace).value
        == if file.Some? && file.value.enabled && workspace in file.value.workspaces then 409 else 403
  {
  }

  /** What an accepted call becomes, with the employee it was accepted with and no lock held. */
  function Dispatched(c: Call, e: Employee): Phase {
    if c.body.None? then Refused(400)
    else match Parameters(c.path, c.body.value, e)
    case Err(status) => Refused(status)
    case Ok(body) =>
      match Requested(c.path, body)
      case Err(status) => Refused(status)
      case Ok(None) => Handled(body)
      case Ok(Some(request)) => Sent(request)
  }

  function Step(s: State, a: Action): State {
    match a
    case Ask(path, workspace, body) => s.(calls := s.calls + [Call(path, workspace, body, Asked, |s.versions|, None)])
    case Accept(k) =>
      if k < |s.calls| && s.calls[k].phase.Asked? && s.versions != []
      then
        var refusal := Decide(Current(s), s.calls[k].workspace);
        s.(calls := s.calls[k :=
          if refusal.Some? then s.calls[k].(phase := Refused(refusal.value))
          else s.calls[k].(phase := Accepted, accepted := Some(|s.versions| - 1))])
      else s
    case Dispatch(k) =>
      if k < |s.calls| && s.calls[k].phase.Accepted? && Snapshot(s, s.calls[k]).Some?
      then s.(calls := s.calls[k := s.calls[k].(phase := Dispatched(s.calls[k], Snapshot(s, s.calls[k]).value))])
      else s
    case Manage(change, world) =>
      if Rewrites(Current(s), change, world)
      then s.(versions := s.versions + [Version(Left(Current(s), change, world), world.listing)])
      else s
  }

  /** The employee a call was accepted with. */
  function Snapshot(s: State, c: Call): Option<Employee> {
    if c.accepted.Some? && c.accepted.value < |s.versions| then s.versions[c.accepted.value].employee else None
  }

  function Run(s: State, actions: seq<Action>): State {
    if actions == [] then s else Step(Run(s, actions[..|actions| - 1]), actions[|actions| - 1])
  }

  predicate CallInv(s: State, c: Call) {
    && 0 < c.asked <= |s.versions|
    && (c.accepted.None? <==> c.phase.Asked? || (c.phase.Refused? && c.accepted.None?))
    && (c.accepted.Some? ==>
          && c.asked - 1 <= c.accepted.value < |s.versions|
          && Snapshot(s, c).Some? && Authorize(Snapshot(s, c).value, c.workspace).None?)
    && (c.phase.Sent? || c.phase.Handled? ==> c.accepted.Some? && c.phase == Dispatched(c, Snapshot(s, c).value))
  }

  /** The workspaces granted in version `m`. */
  function Granted(s: State, m: nat): set<nat> {
    if m < |s.versions| && s.versions[m].employee.Some? then s.versions[m].employee.value.workspaces else {}
  }

  /** Version `k` added the grant, under a listing that had the workspace, and it has stood until `m`. */
  predicate AddedAt(s: State, m: nat, w: nat, k: nat)
    requires m < |s.versions|
  {
    && 0 < k <= m && w !in Granted(s, k - 1)
    && s.versions[k].listing.Ok? && w in s.versions[k].listing.value
    && forall j | k <= j <= m :: w in Granted(s, j)
  }

  ghost predicate Inv(s: State) {
    && s.versions != []
    && (forall k | 0 <= k < |s.calls| :: CallInv(s, s.calls[k]))
    && forall m: nat, w: nat | m < |s.versions| && w in Granted(s, m) :: exists k: nat :: AddedAt(s, m, w, k)
  }

  lemma CallsKeep(s: State, t: State, k: nat, c: Call)
    requires Inv(s) && k < |s.calls| && t == s.(calls := s.calls[k := c]) && CallInv(t, c)
    ensures Inv(t)
  {
    hide CallInv;
    forall j | 0 <= j < |t.calls| ensures CallInv(t, t.calls[j]) {
      SameCall(s, t, t.calls[j]);
    }
    forall m: nat, w: nat | m < |t.versions| && w in Granted(t, m) ensures exists k: nat :: AddedAt(t, m, w, k) {
      assert w in Granted(s, m);
      var k: nat :| AddedAt(s, m, w, k);
      assert forall j | k <= j <= m :: Granted(t, j) == Granted(s, j);
      assert AddedAt(t, m, w, k);
    }
  }

  lemma SameCall(s: State, t: State, c: Call)
    requires s.versions <= t.versions
    ensures CallInv(s, c) ==> CallInv(t, c)
  {
    hide Dispatched, Authorize;
  }

  lemma AskKeeps(s: State, path: string, workspace: nat, body: Option<Value>)
    requires Inv(s)
    ensures Inv(Step(s, Ask(path, workspace, body)))
  {
    var t := Step(s, Ask(path, workspace, body));
    forall j | 0 <= j < |t.calls| ensures CallInv(t, t.calls[j]) {
      if j < |s.calls| {
        SameCall(s, t, s.calls[j]);
      }
    }
    forall m: nat, w: nat | m < |t.versions| && w in Granted(t, m) ensures exists k: nat :: AddedAt(t, m, w, k) {
      assert w in Granted(s, m);
      var k: nat :| AddedAt(s, m, w, k);
      assert forall j | k <= j <= m :: Granted(t, j) == Granted(s, j);
      assert AddedAt(t, m, w, k);
    }
  }

  lemma ManageKeeps(s: State, change: Change, world: World)
    requires Inv(s)
    ensures Inv(Step(s, Manage(change, world)))
  {
    hide CallInv;
    var t := Step(s, Manage(change, world));
    if Rewrites(Current(s), change, world) {
      ChangeIsConfined(Current(s), change, world);
      hide Rewrites, Edited;
      forall j | 0 <= j < |t.calls| ensures CallInv(t, t.calls[j]) {
        SameCall(s, t, s.calls[j]);
      }
      forall m: nat, w: nat | m < |t.versions| && w in Granted(t, m) ensures exists k: nat :: AddedAt(t, m, w, k) {
        GrantStands(s, t, m, w);
      }
    }
  }

  /** A version's grants were there before, or this version adds them. */
  lemma GrantStands(s: State, t: State, m: nat, w: nat)
    requires Inv(s) && m < |t.versions| && w in Granted(t, m)
    requires |t.versions| == |s.versions| + 1 && t.versions[..|s.versions|] == s.versions
    requires var last := t.versions[|s.versions|];
      last.employee.Some? && forall v | v in last.employee.value.workspaces ::
        v in Granted(s, |s.versions| - 1) || (last.listing.Ok? && v in last.listing.value)
    ensures exists k: nat :: AddedAt(t, m, w, k)
  {
    hide CallInv;
    assert forall j | 0 <= j < |s.versions| :: t.versions[j] == s.versions[j];
    if m < |s.versions| {
      assert w in Granted(s, m);
      var k: nat :| AddedAt(s, m, w, k);
      assert forall j | 0 <= j < |s.versions| :: Granted(t, j) == Granted(s, j);
      assert AddedAt(t, m, w, k);
    } else if w in Granted(s, m - 1) {
      var k: nat :| AddedAt(s, m - 1, w, k);
      assert forall j | 0 <= j < |s.versions| :: Granted(t, j) == Granted(s, j);
      assert AddedAt(t, m, w, k);
    } else {
      assert AddedAt(t, m, w, m);
    }
  }

  lemma StepKeeps(s: State, a: Action)
    requires Inv(s)
    ensures Inv(Step(s, a))
  {
    match a
    case Ask(path, workspace, body) => AskKeeps(s, path, workspace, body);
    case Accept(k) =>
      hide Parameters, Requested;
      if Step(s, a) != s {
        CallsKeep(s, Step(s, a), k, Step(s, a).calls[k]);
      }
    case Dispatch(k) =>
      hide Parameters, Requested;
      if Step(s, a) != s {
        CallsKeep(s, Step(s, a), k, Step(s, a).calls[k]);
      }
    case Manage(change, world) => ManageKeeps(s, change, world);
  }

  lemma {:induction false} RunKeeps(actions: seq<Action>)
    ensures Inv(Run(START, actions))
  {
    if actions != [] {
      RunKeeps(actions[..|actions| - 1]);
      StepKeeps(Run(START, actions[..|actions| - 1]), actions[|actions| - 1]);
    }
  }

  // ---------------------------------------------------------------- what every run guarantees

  /** The acceptance behind a call: after it was asked, by an employee then on file who was enabled, had granted its
      workspace and had a directory. */
  predicate AcceptedBy(s: State, c: Call, e: Employee) {
    && c.accepted.Some? && c.asked - 1 <= c.accepted.value < |s.versions|
    && s.versions[c.accepted.value].employee == Some(e)
    && e.enabled && c.workspace in e.workspaces && e.workingDirectory.Some?
  }

  /** Every call that reached a handler was so accepted. A request it led to is confined to that employee's directory
      and to the method's parameters; without a request, it went on with a body of the method's own properties that
      names no directory but that employee's. */
  lemma {:induction false} AuthorisedAndConfined(actions: seq<Action>, k: nat)
    requires k < |Run(START, actions).calls|
    requires Run(START, actions).calls[k].phase.Sent? || Run(START, actions).calls[k].phase.Handled?
    ensures var s := Run(START, actions);
      var c := s.calls[k];
      && Snapshot(s, c).Some? && AcceptedBy(s, c, Snapshot(s, c).value)
      && var directory := Snapshot(s, c).value.workingDirectory.value;
         match c.phase
         case Sent(request) => Confines(c.path, request.params, directory)
         case Handled(body) => c.path !in RPC_PATHS && Stays(c.path, body, directory)
         case _ => false
  {
    hide Run, Confines, Stays, Parameters, Requested;
    RunKeeps(actions);
    var s := Run(START, actions);
    var c := s.calls[k];
    assert CallInv(s, c);
    if c.phase.Sent? {
      Confined(c.path, c.body.value, Snapshot(s, c).value);
    } else {
      TurnsAlwaysRequest(c.path, Parameters(c.path, c.body.value, Snapshot(s, c).value).value);
      StaysInside(c.path, c.body.value, Snapshot(s, c).value);
    }
  }

  /** A confined listing or search stays confined on every page it asks for, whatever the app-server answers. */
  lemma EveryPageIsConfined(path: string, params: Fields, directory: string, server: Pages.Server, i: nat)
    requires path in {"/invoke/listThreads", "/invoke/listSessions", "/invoke/searchThreads"}
    requires Confines(path, params, directory)
    requires i < |Pages.Turns(server, params, Pages.MAX_THREAD_LIST_PAGES).sent|
    ensures Confines(path, Pages.Turns(server, params, Pages.MAX_THREAD_LIST_PAGES).sent[i], directory)
  {
    hide Confines;
    Pages.AnyServer(server, params);
    PageStays(path, params, Pages.Turns(server, params, Pages.MAX_THREAD_LIST_PAGES).sent[i], directory);
  }

  /** A page's request differs from the first in its cursor and limit, which every list method has. */
  lemma PageStays(path: string, params: Fields, page: Fields, directory: string)
    requires path in {"/invoke/listThreads", "/invoke/listSessions", "/invoke/searchThreads"}
    requires Confines(path, params, directory) && page - {"cursor", "limit"} == params - {"cursor", "limit"}
    ensures Confines(path, page, directory)
  {
    forall k | k in page && k != "cursor" && k != "limit" ensures k in params && page[k] == params[k] {
      assert k in page - {"cursor", "limit"};
      assert (page - {"cursor", "limit"})[k] == (params - {"cursor", "limit"})[k];
    }
  }

  /** Every grant in any version of the file was added by a change whose platform listing had the workspace, and has
      stood since. */
  lemma {:induction false} GrantsWereListed(actions: seq<Action>, m: nat, w: nat)
    requires m < |Run(START, actions).versions| && w in Granted(Run(START, actions), m)
    ensures exists k: nat :: AddedAt(Run(START, actions), m, w, k)
  {
    hide Run, CallInv;
    RunKeeps(actions);
  }

  /** Calls never change the file: once access is revoked, a waiting call is not accepted before the next change. */
  lemma {:induction false} RevocationIsImmediate(s: State, more: seq<Action>, k: nat)
    requires k < |s.calls| && StillOut(s.calls[k], s.calls[k]) && Decide(Current(s), s.calls[k].workspace).Some?
    requires forall a | a in more :: !a.Manage?
    ensures k < |Run(s, more).calls| && Run(s, more).versions == s.versions
    ensures StillOut(s.calls[k], Run(s, more).calls[k])
  {
    if more != [] {
      RevocationIsImmediate(s, more[..|more| - 1], k);
      StepStaysOut(Run(s, more[..|more| - 1]), more[|more| - 1], s.calls[k], k);
    }
  }

  predicate StillOut(c: Call, d: Call) {
    (d.phase.Asked? || d.phase.Refused?) && d.accepted.None? && d.workspace == c.workspace
  }

  lemma StepStaysOut(s: State, a: Action, c: Call, k: nat)
    requires k < |s.calls| && StillOut(c, s.calls[k]) && Decide(Current(s), c.workspace).Some? && !a.Manage?
    ensures k < |Step(s, a).calls| && StillOut(c, Step(s, a).calls[k]) && Step(s, a).versions == s.versions
  {
    hide Dispatched, Authorize;
  }

  /** A change never touches an accepted call: whatever follows, it keeps the employee it was accepted with and ends as
      that employee's call. */
  lemma {:induction false} AcceptanceStands(s: State, more: seq<Action>, k: nat)
    requires k < |s.calls| && s.calls[k].phase.Accepted? && Snapshot(s, s.calls[k]).Some?
    ensures var t, c := Run(s, more), s.calls[k];
      && k < |t.calls| && s.versions <= t.versions
      && Snapshot(t, t.calls[k]) == Snapshot(s, c)
      && (t.calls[k] == c || t.calls[k] == c.(phase := Dispatched(c, Snapshot(s, c).value)))
  {
    if more != [] {
      AcceptanceStands(s, more[..|more| - 1], k);
      hide Dispatched, Decide, Rewrites, Left;
      assert s.versions <= Run(s, more).versions;
    }
  }
}
