/** Unread threads: the edge-triggered flags of `src/thread_state.rs`, their store and its persistence. */
module ThreadStates {
  import opened Json

  const STATE_VERSION: nat := 1

  datatype Entry = Entry(
    unread: bool,
    updatedAt: Option<Value>,
    runtimeStatus: Option<string>,
    turnStatus: Option<string>,
    desktopUnread: bool)

  /** `ThreadReadEntry::default()`. */
  const BLANK := Entry(false, None, None, None, false)

  type Entries = map<string, Entry>

  // ---------------------------------------------------------------- one item

  function ThreadId(item: Value): Option<string> {
    var first := if item.GetStr("threadId").Some? then item.GetStr("threadId")
                 else if item.GetStr("sessionId").Some? then item.GetStr("sessionId")
                 else item.GetStr("id");
    if first.Some? && first.value == "" then None else first
  }

  function RuntimeStatus(status: Option<Value>): (r: Value)
    ensures r.Obj?
  {
    match status
    case Some(Obj(fields)) => Obj(fields)
    case Some(Str(s)) => Obj(map["type" := Str(if s == "" then "notLoaded" else s)])
    case _ => Obj(map["type" := Str("notLoaded")])
  }

  function StatusType(runtime: Value): string {
    if runtime.GetStr("type").Some? then runtime.GetStr("type").value else "notLoaded"
  }

  /** The status of the last turn, or of its `turn` member when it is wrapped. */
  function LastTurnStatus(item: Value): Option<string> {
    match item.Get("turns")
    case Some(Arr(turns)) =>
      if turns == [] then None
      else
        var last := turns[|turns| - 1];
        (if last.Get("turn").Some? then last.Get("turn").value else last).GetStr("status")
    case _ => None
  }

  function TurnStatus(item: Value, runtime: Value): Option<string> {
    if LastTurnStatus(item).Some? then LastTurnStatus(item)
    else if runtime.GetStr("type") == Some("active") then Some("inProgress")
    else None
  }

  /** What one listing shows of a thread. */
  datatype Sight = Sight(
    updatedAt: Option<Value>,
    runtimeStatus: string,
    turnStatus: Option<string>,
    desktopUnread: bool)

  function SightOf(item: Value, desktop: set<string>): Sight
    requires ThreadId(item).Some?
  {
    var runtime := RuntimeStatus(item.Get("status"));
    Sight(item.Get("updatedAt"), StatusType(runtime), TurnStatus(item, runtime), ThreadId(item).value in desktop)
  }

  function FirstEntry(s: Sight): Entry {
    Entry(s.desktopUnread, s.updatedAt, Some(s.runtimeStatus), s.turnStatus, s.desktopUnread)
  }

  predicate RevisionAdvanced(e: Entry, s: Sight) {
    e.updatedAt.Some? && s.updatedAt.Some? && e.updatedAt != s.updatedAt
  }

  predicate ActivityFinished(e: Entry, s: Sight) {
    || (e.runtimeStatus == Some("active") && s.runtimeStatus != "active")
    || (e.turnStatus == Some("inProgress") && s.turnStatus != Some("inProgress"))
  }

  function Observe(e: Entry, s: Sight): Entry {
    Entry(
      e.unread || (RevisionAdvanced(e, s) && ActivityFinished(e, s)) || (!e.desktopUnread && s.desktopUnread),
      if s.updatedAt.Some? then s.updatedAt else e.updatedAt,
      Some(s.runtimeStatus), s.turnStatus, s.desktopUnread)
  }

  /** The members `enrich_thread_list` writes into an item; it reads none of them. */
  function Enriched(item: Value, e: Entry): Value
    requires item.Obj?
  {
    var runtime := RuntimeStatus(item.Get("status"));
    var turn := TurnStatus(item, runtime);
    Obj(item.fields + map[
      "threadRuntimeStatus" := runtime,
      "runtimeStatusAvailability" := Str(if StatusType(runtime) == "notLoaded" then "persistedOnly" else "live"),
      "runtimeStatusSource" := Str("codexAppServer"),
      "activeFlags" := (match runtime.Get("activeFlags") case Some(Arr(flags)) => Arr(flags) case _ => Arr([])),
      "isInProgress" := Bool(runtime.GetStr("type") == Some("active") || turn == Some("inProgress")),
      "latestTurnStatus" := (if turn.Some? then Str(turn.value) else Null),
      "hasUnreadTurn" := Bool(e.unread)])
  }

  function Before(entries: Entries, id: string, s: Sight): Entry {
    if id in entries then entries[id] else FirstEntry(s)
  }

  function EnrichOne(entries: Entries, desktop: set<string>, item: Value): (r: (Entries, Value)) {
    if !item.Obj? || ThreadId(item).None? then (entries, item)
    else
      var id, s := ThreadId(item).value, SightOf(item, desktop);
      var e := Observe(Before(entries, id, s), s);
      (entries[id := e], Enriched(item, e))
  }

  function EnrichAll(entries: Entries, desktop: set<string>, items: seq<Value>): (r: (Entries, seq<Value>))
    ensures |r.1| == |items|
    decreases items
  {
    if items == [] then (entries, [])
    else
      var (front, shown) := EnrichAll(entries, desktop, items[..|items| - 1]);
      var (after, last) := EnrichOne(front, desktop, items[|items| - 1]);
      (after, shown + [last])
  }

  // ---------------------------------------------------------------- an item's own members

  /** The item is of the thread `id`: the first of the three members that is a string, when it is not empty. */
  predicate Names(item: Value, id: string) {
    && item.Obj? && id != ""
    && (|| item.Get("threadId") == Some(Str(id))
        || (item.GetStr("threadId").None?
            && (item.Get("sessionId") == Some(Str(id))
                || (item.GetStr("sessionId").None? && item.Get("id") == Some(Str(id))))))
  }

  /** The status is an object of this type, or a text that stands for it; any other is "notLoaded". */
  predicate HasType(item: Value, name: string) {
    match item.Get("status")
    case Some(Obj(status)) =>
      if Obj(status).GetStr("type").Some? then status["type"] == Str(name) else name == "notLoaded"
    case Some(Str(s)) => name == if s == "" then "notLoaded" else s
    case _ => name == "notLoaded"
  }

  /** The last of its turns, or the turn that one wraps, has this status. */
  predicate LastTurnIs(item: Value, status: string) {
    && item.Get("turns").Some? && item.Get("turns").value.Arr? && item.Get("turns").value.items != []
    && var turns := item.Get("turns").value.items;
       var last := turns[|turns| - 1];
       if last.Get("turn").Some? then last.Get("turn").value.Get("status") == Some(Str(status))
       else last.Get("status") == Some(Str(status))
  }

  /** The last turn says nothing, or there is none. */
  ghost predicate NoTurn(item: Value) {
    forall status :: !LastTurnIs(item, status)
  }

  /** What `enrich_thread_list` makes of an item of a thread: seven members are written, each from the item's own status
      and turns, and the others are as they were. */
  ghost predicate Shows(item: Value, shown: Value) {
    && item.Obj? && shown.Obj?
    && (forall k | k !in {"threadRuntimeStatus", "runtimeStatusAvailability", "runtimeStatusSource", "activeFlags",
                          "isInProgress", "latestTurnStatus", "hasUnreadTurn"} :: shown.Get(k) == item.Get(k))
    && shown.Get("threadRuntimeStatus") == Some(match item.Get("status")
         case Some(Obj(status)) => Obj(status)
         case Some(Str(s)) => Obj(map["type" := Str(if s == "" then "notLoaded" else s)])
         case _ => Obj(map["type" := Str("notLoaded")]))
    && shown.Get("runtimeStatusAvailability")
         == Some(Str(if HasType(item, "notLoaded") then "persistedOnly" else "live"))
    && shown.Get("runtimeStatusSource") == Some(Str("codexAppServer"))
    && shown.Get("activeFlags") == Some(match item.GetOrNull("status").Get("activeFlags")
         case Some(Arr(flags)) => Arr(flags)
         case _ => Arr([]))
    && shown.Get("isInProgress") == Some(Bool(HasType(item, "active") || LastTurnIs(item, "inProgress")))
    && (forall status | LastTurnIs(item, status) :: shown.Get("latestTurnStatus") == Some(Str(status)))
    && (NoTurn(item) ==>
          shown.Get("latestTurnStatus") == Some(if HasType(item, "active") then Str("inProgress") else Null))
    && shown.Get("hasUnreadTurn").Some? && shown.Get("hasUnreadTurn").value.Bool?
  }

  lemma NamesIs(item: Value, id: string)
    ensures Names(item, id) <==> item.Obj? && ThreadId(item) == Some(id)
  {
  }

  lemma TypeIs(item: Value, name: string)
    ensures HasType(item, name) <==> StatusType(RuntimeStatus(item.Get("status"))) == name
    ensures name != "notLoaded" ==>
      (HasType(item, name) <==> RuntimeStatus(item.Get("status")).GetStr("type") == Some(name))
  {
  }

  lemma TurnIs(item: Value)
    ensures forall status :: LastTurnIs(item, status) <==> LastTurnStatus(item) == Some(status)
    ensures NoTurn(item) <==> LastTurnStatus(item).None?
  {
    forall status ensures LastTurnIs(item, status) <==> LastTurnStatus(item) == Some(status) {
    }
    if LastTurnStatus(item).Some? {
      assert LastTurnIs(item, LastTurnStatus(item).value);
    }
  }

  lemma EnrichedIs(item: Value, e: Entry)
    requires item.Obj?
    ensures Shows(item, Enriched(item, e)) && Enriched(item, e).Get("hasUnreadTurn") == Some(Bool(e.unread))
  {
    RuntimeIs(item);
    TypeIs(item, "notLoaded");
    TypeIs(item, "active");
    TurnIs(item);
    WrittenStatus(item, e);
    WrittenTurn(item, e);
    forall k | k !in {"threadRuntimeStatus", "runtimeStatusAvailability", "runtimeStatusSource", "activeFlags",
                      "isInProgress", "latestTurnStatus", "hasUnreadTurn"}
      ensures Enriched(item, e).Get(k) == item.Get(k)
    {
      EnrichedGet(item, e, k);
    }
    hide HasType, LastTurnIs, NoTurn, LastTurnStatus, StatusType, RuntimeStatus, Enriched;
  }

  lemma RuntimeIs(item: Value)
    ensures RuntimeStatus(item.Get("status")) == match item.Get("status")
      case Some(Obj(status)) => Obj(status)
      case Some(Str(s)) => Obj(map["type" := Str(if s == "" then "notLoaded" else s)])
      case _ => Obj(map["type" := Str("notLoaded")])
    ensures RuntimeStatus(item.Get("status")).Get("activeFlags") == item.GetOrNull("status").Get("activeFlags")
  {
  }

  /** The members as they are written. */
  lemma WrittenStatus(item: Value, e: Entry)
    requires item.Obj?
    ensures var shown, runtime := Enriched(item, e), RuntimeStatus(item.Get("status"));
      && shown.Get("threadRuntimeStatus") == Some(runtime)
      && shown.Get("runtimeStatusAvailability")
           == Some(Str(if StatusType(runtime) == "notLoaded" then "persistedOnly" else "live"))
      && shown.Get("runtimeStatusSource") == Some(Str("codexAppServer"))
      && shown.Get("activeFlags") == Some(match runtime.Get("activeFlags")
           case Some(Arr(flags)) => Arr(flags)
           case _ => Arr([]))
  {
    hide RuntimeStatus, TurnStatus, StatusType;
  }

  lemma WrittenTurn(item: Value, e: Entry)
    requires item.Obj?
    ensures var shown, runtime := Enriched(item, e), RuntimeStatus(item.Get("status"));
      var turn := TurnStatus(item, runtime);
      && shown.Get("isInProgress") == Some(Bool(runtime.GetStr("type") == Some("active") || turn == Some("inProgress")))
      && shown.Get("latestTurnStatus") == Some(if turn.Some? then Str(turn.value) else Null)
      && shown.Get("hasUnreadTurn") == Some(Bool(e.unread))
  {
    hide RuntimeStatus, TurnStatus, StatusType;
  }

  /** What one listing sees of a thread, member by member. */
  lemma SightIs(item: Value, desktop: set<string>, id: string)
    requires Names(item, id)
    ensures ThreadId(item) == Some(id)
    ensures var s := SightOf(item, desktop);
      && s.updatedAt == item.Get("updatedAt") && HasType(item, s.runtimeStatus) && s.desktopUnread == (id in desktop)
      && (forall name | HasType(item, name) :: s.runtimeStatus == name)
      && (forall status | LastTurnIs(item, status) :: s.turnStatus == Some(status))
      && (NoTurn(item) ==> s.turnStatus == if HasType(item, "active") then Some("inProgress") else None)
  {
    NamesIs(item, id);
    TypeIs(item, "active");
    TurnIs(item);
    TypeIs(item, SightOf(item, desktop).runtimeStatus);
    forall name ensures HasType(item, name) <==> SightOf(item, desktop).runtimeStatus == name {
      TypeIs(item, name);
    }
    hide HasType, LastTurnIs, NoTurn, LastTurnStatus, StatusType, ThreadId;
  }

  /** Each item of a thread is shown so, and any other as it came. */
  ghost predicate AllShown(items: seq<Value>, shown: seq<Value>) {
    |shown| == |items| && forall k | 0 <= k < |items| :: ShownAsOne(items[k], shown[k])
  }

  ghost predicate ShownAsOne(item: Value, shown: Value) {
    if exists id :: Names(item, id) then Shows(item, shown) else shown == item
  }

  lemma {:induction false} EnrichShows(entries: Entries, desktop: set<string>, items: seq<Value>)
    ensures AllShown(items, EnrichAll(entries, desktop, items).1)
    decreases items
  {
    if items != [] {
      var front, last := items[..|items| - 1], items[|items| - 1];
      EnrichShows(entries, desktop, front);
      OneShown(EnrichAll(entries, desktop, front).0, desktop, last);
      hide EnrichOne, ShownAsOne;
    }
  }

  lemma OneShown(entries: Entries, desktop: set<string>, item: Value)
    ensures ShownAsOne(item, EnrichOne(entries, desktop, item).1)
  {
    forall id ensures Names(item, id) <==> item.Obj? && ThreadId(item) == Some(id) {
      NamesIs(item, id);
    }
    hide Names, ThreadId, Shows, SightOf, Observe, Before, Enriched;
    if item.Obj? && ThreadId(item).Some? {
      var id, s := ThreadId(item).value, SightOf(item, desktop);
      assert Names(item, id);
      EnrichedIs(item, Observe(Before(entries, id, s), s));
    }
  }

  // ---------------------------------------------------------------- the persisted store

  /** `desktop_unread_thread_ids` of the desktop's global state file, if there is one and it can be read. */
  function DesktopUnread(globalState: Result<Option<Value>, string>): Result<set<string>, string> {
    if globalState.Err? then Err(globalState.error)
    else if globalState.value.None? then Ok({})
    else match globalState.value.value.Get("unread-thread-ids-by-host-v1")
    case None => Ok({})
    case Some(Obj(hosts)) =>
      (match Obj(hosts).Get("local")
       case None => Ok({})
       case Some(Arr(ids)) => Ok(set v | v in ids && v.Str? :: v.s)
       case _ => Err("Codex desktop local unread state must be an array"))
    case _ => Err("Codex desktop unread state must be an object")
  }

  /** The desktop's state marks the thread unread: it is among the ids of the local host. */
  predicate MarksUnread(state: Value, id: string) {
    match state.GetOrNull("unread-thread-ids-by-host-v1").Get("local")
    case Some(Arr(ids)) => Str(id) in ids
    case _ => false
  }

  /** The marks are read from the state file's own members; there are none without the file or without those members,
      and members of another kind are an error. */
  lemma DesktopIs(state: Value, id: string)
    ensures DesktopUnread(Ok(Some(state))).Ok? <==>
      var hosts := state.Get("unread-thread-ids-by-host-v1");
      hosts.None? || (hosts.value.Obj? && (hosts.value.Get("local").None? || hosts.value.Get("local").value.Arr?))
    ensures DesktopUnread(Ok(Some(state))).Ok? ==>
      (id in DesktopUnread(Ok(Some(state))).value <==> MarksUnread(state, id))
    ensures DesktopUnread(Ok(None)) == Ok({})
    ensures forall error :: DesktopUnread(Err(error)) == Err(error)
  {
  }

  /** What the state file holds: a document with a version, or no file yet. A null revision is written as null. */
  datatype Document = Document(version: nat, threads: Entries)

  /** An entry as it is read back: a null revision is no revision. */
  function Remembered(e: Entry): Entry {
    if e.updatedAt == Some(Null) then e.(updatedAt := None) else e
  }

  function Decoded(entries: Entries): Entries {
    map id | id in entries :: Remembered(entries[id])
  }

  class ThreadReadStore {
    var document: Option<Document>

    constructor ()
      ensures document == None
    {
      document := None;
    }

    /** `load_store`: an absent file is an empty store, any other version an error, and null members are absent. */
    function Load(): Result<Entries, string>
      reads this
    {
      match document
      case None => Ok(map[])
      case Some(d) =>
        if d.version == STATE_VERSION then Ok(Decoded(d.threads)) else Err("unsupported thread read state version")
    }

    /** What a save leaves: with `saved` false it failed, and the file is as before. */
    method Save(entries: Entries, saved: bool) returns (r: Result<(), string>)
      modifies this
      ensures r.Ok? <==> saved
      ensures document == if saved then Some(Document(STATE_VERSION, entries)) else old(document)
    {
      if !saved {
        return Err("failed to publish thread read state");
      }
      document := Some(Document(STATE_VERSION, entries));
      r := Ok(());
    }

    /** The file is written exactly when the entries changed, and then loads as the computed entries; every error, a
        failed save among them, leaves it as it was. */
    method EnrichThreadList(globalState: Result<Option<Value>, string>, items: seq<Value>, saved: bool)
      returns (r: Result<seq<Value>, string>)
      modifies this
      ensures r.Err? ==> document == old(document)
      ensures r.Ok? ==> AllShown(items, r.value)
      ensures old(Load()).Err? || DesktopUnread(globalState).Err? ==> r.Err?
      ensures old(Load()).Ok? && DesktopUnread(globalState).Ok? ==>
        var (after, shown) := EnrichAll(old(Load()).value, DesktopUnread(globalState).value, items);
        if after == old(Load()).value then r == Ok(shown) && document == old(document)
        else if saved
        then r == Ok(shown) && document == Some(Document(STATE_VERSION, after)) && Load() == Ok(Decoded(after))
        else r.Err?
    {
      var loaded, desktop := Load(), DesktopUnread(globalState);
      if loaded.Err? {
        return Err(loaded.error);
      }
      if desktop.Err? {
        return Err(desktop.error);
      }
      var entries, shown := loaded.value, [];
      for i := 0 to |items|
        invariant document == old(document)
        invariant (entries, shown) == EnrichAll(loaded.value, desktop.value, items[..i])
      {
        assert items[..i + 1][..i] == items[..i];
        var item;
        entries, item := EnrichItem(entries, desktop.value, items[i]);
        shown := shown + [item];
      }
      assert items[..|items|] == items;
      EnrichShows(loaded.value, desktop.value, items);
      hide AllShown;
      if entries != loaded.value {
        var end := Save(entries, saved);
        if end.Err? {
          return Err(end.error);
        }
      }
      r := Ok(shown);
    }

    /** The body of the loop over the listed items. */
    static method EnrichItem(entries: Entries, desktop: set<string>, item: Value) returns (after: Entries, shown: Value)
      ensures (after, shown) == EnrichOne(entries, desktop, item)
      ensures ShownAsOne(item, shown)
    {
      OneShown(entries, desktop, item);
      hide ShownAsOne, RuntimeStatus, TurnStatus, LastTurnStatus, StatusType;
      if !item.Obj? || ThreadId(item).None? {
        return entries, item;
      }
      var id, sight := ThreadId(item).value, SightOf(item, desktop);
      var entry := if id in entries then entries[id] else FirstEntry(sight);
      var advanced, finished := RevisionAdvanced(entry, sight), ActivityFinished(entry, sight);
      if advanced && finished {
        entry := entry.(unread := true);
      }
      if !entry.desktopUnread && sight.desktopUnread {
        entry := entry.(unread := true);
      }
      if sight.updatedAt.Some? {
        entry := entry.(updatedAt := sight.updatedAt);
      }
      entry := entry.(runtimeStatus := Some(sight.runtimeStatus), turnStatus := sight.turnStatus,
                      desktopUnread := sight.desktopUnread);
      return entries[id := entry], Enriched(item, entry);
    }

    method SetThreadReadState(
      globalState: Result<Option<Value>, string>, id: string, unread: bool, updatedAt: Option<Value>, saved: bool)
      returns (r: Result<Option<Value>, string>)
      modifies this
      ensures r.Err? ==> document == old(document)
      ensures r.Ok? <==> old(Load()).Ok? && DesktopUnread(globalState).Ok? && saved
      ensures r.Ok? ==>
        var after := SetEntry(old(Load()).value, DesktopUnread(globalState).value, id, unread, updatedAt);
        Load() == Ok(Decoded(after)) && r == Ok(after[id].updatedAt)
    {
      var loaded, desktop := Load(), DesktopUnread(globalState);
      if loaded.Err? {
        return Err(loaded.error);
      }
      if desktop.Err? {
        return Err(desktop.error);
      }
      var entries := loaded.value;
      var entry := if id in entries then entries[id] else BLANK;
      entry := entry.(unread := unread);
      if updatedAt.Some? {
        entry := entry.(updatedAt := updatedAt);
      }
      entry := entry.(desktopUnread := id in desktop.value);
      var end := Save(entries[id := entry], saved);
      if end.Err? {
        return Err(end.error);
      }
      r := Ok(entry.updatedAt);
    }

    method MarkThreadUnread(id: string, saved: bool) returns (r: Result<(), string>)
      modifies this
      ensures r.Err? ==> document == old(document)
      ensures r.Ok? <==> old(Load()).Ok? && saved
      ensures r.Ok? ==> Load() == Ok(Decoded(MarkEntry(old(Load()).value, id)))
    {
      var loaded := Load();
      if loaded.Err? {
        return Err(loaded.error);
      }
      var entry := if id in loaded.value then loaded.value[id] else BLANK;
      r := Save(loaded.value[id := entry.(unread := true)], saved);
    }
  }

  function SetEntry(entries: Entries, desktop: set<string>, id: string, unread: bool, updatedAt: Option<Value>): Entries
  {
    var e := if id in entries then entries[id] else BLANK;
    entries[id := e.(unread := unread, updatedAt := if updatedAt.Some? then updatedAt else e.updatedAt,
                     desktopUnread := id in desktop)]
  }

  function MarkEntry(entries: Entries, id: string): Entries {
    entries[id := (if id in entries then entries[id] else BLANK).(unread := true)]
  }

  // ---------------------------------------------------------------- one thread's history

  /** All that can happen to one thread; the store is saved at the end of every call that concerned it. */
  datatype Note =
    | Seen(sight: Sight)
    | Explicit(unread: bool, updatedAt: Option<Value>, desktopUnread: bool)
    | Completed
    | Saved

  /** The thread's entry after its history: the store's transitions, seen from one thread. */
  function Replay(h: seq<Note>): Option<Entry> {
    if h == [] then None else Next(Replay(h[..|h| - 1]), h[|h| - 1])
  }

  function Next(before: Option<Entry>, n: Note): Option<Entry> {
    match n
    case Seen(s) => Some(Observe(if before.Some? then before.value else FirstEntry(s), s))
    case Explicit(unread, updatedAt, desktopUnread) =>
      var e := if before.Some? then before.value else BLANK;
      Some(e.(unread := unread, updatedAt := if updatedAt.Some? then updatedAt else e.updatedAt,
              desktopUnread := desktopUnread))
    case Completed => Some((if before.Some? then before.value else BLANK).(unread := true))
    case Saved => if before.Some? then Some(Remembered(before.value)) else None
  }

  // The same in terms of what was last observed, without any entry.

  /** The last revision given; a null one is forgotten when the store is saved. */
  function LastRevision(h: seq<Note>): Option<Value> {
    if h == [] then None
    else match h[|h| - 1]
    case Seen(s) => if s.updatedAt.Some? then s.updatedAt else LastRevision(h[..|h| - 1])
    case Explicit(_, updatedAt, _) => if updatedAt.Some? then updatedAt else LastRevision(h[..|h| - 1])
    case Completed => LastRevision(h[..|h| - 1])
    case Saved => if LastRevision(h[..|h| - 1]) == Some(Null) then None else LastRevision(h[..|h| - 1])
  }

  function LastSight(h: seq<Note>): Option<Sight> {
    if h == [] then None
    else match h[|h| - 1]
    case Seen(s) => Some(s)
    case _ => LastSight(h[..|h| - 1])
  }

  function LastDesktopMark(h: seq<Note>): bool {
    if h == [] then false
    else match h[|h| - 1]
    case Seen(s) => s.desktopUnread
    case Explicit(_, _, desktopUnread) => desktopUnread
    case _ => LastDesktopMark(h[..|h| - 1])
  }

  /** Activity that was under way at the last sight is not at this one. */
  predicate Finished(last: Option<Sight>, s: Sight) {
    last.Some?
    && ((last.value.runtimeStatus == "active" && s.runtimeStatus != "active")
        || (last.value.turnStatus == Some("inProgress") && s.turnStatus != Some("inProgress")))
  }

  /** The events that make a thread unread: a completed turn; a sight that has a new revision together with
      finished activity; a sight with a desktop mark where there was none. */
  predicate Raises(h: seq<Note>, k: nat)
    requires k < |h|
  {
    match h[k]
    case Completed => true
    case Explicit(_, _, _) => false
    case Saved => false
    case Seen(s) =>
      var last := LastRevision(h[..k]);
      || (last.Some? && s.updatedAt.Some? && last != s.updatedAt && Finished(LastSight(h[..k]), s))
      || (s.desktopUnread && !LastDesktopMark(h[..k]))
  }

  /** Position after the last explicit setting, and the value it set (false when there was none). */
  function SinceExplicit(h: seq<Note>): (r: (nat, bool))
    ensures r.0 <= |h|
  {
    if h == [] then (0, false)
    else match h[|h| - 1]
    case Explicit(unread, _, _) => (|h|, unread)
    case _ => SinceExplicit(h[..|h| - 1])
  }

  /** An entry is what was last observed of its thread. */
  lemma {:induction false} EntryRemembers(h: seq<Note>)
    ensures match Replay(h)
      case None => LastRevision(h).None? && LastSight(h).None? && !LastDesktopMark(h) && SinceExplicit(h) == (0, false)
                   && forall k | 0 <= k < |h| :: h[k].Saved?
      case Some(e) =>
        && e.updatedAt == LastRevision(h)
        && e.desktopUnread == LastDesktopMark(h)
        && (LastSight(h).Some? ==>
              && e.runtimeStatus == Some(LastSight(h).value.runtimeStatus)
              && e.turnStatus == LastSight(h).value.turnStatus)
        && (LastSight(h).None? ==> e.runtimeStatus.None? && e.turnStatus.None?)
  {
    if h != [] {
      EntryRemembers(h[..|h| - 1]);
      assert forall k | 0 <= k < |h| - 1 :: h[k] == h[..|h| - 1][k];
    }
  }

  /** A thread is unread exactly when it was last set so, or something has raised it since. */
  lemma {:induction false} UnreadIsItsHistory(h: seq<Note>)
    requires Replay(h).Some?
    ensures Replay(h).value.unread <==>
      SinceExplicit(h).1 || exists k | SinceExplicit(h).0 <= k < |h| :: Raises(h, k)
  {
    var front, n := h[..|h| - 1], |h| - 1;
    forall k | 0 <= k < n ensures Raises(h, k) <==> Raises(front, k) {
      assert h[..k] == front[..k];
    }
    EntryRemembers(front);
    if Replay(front).Some? {
      UnreadIsItsHistory(front);
    }
    if !h[n].Explicit? {
      assert SinceExplicit(h) == SinceExplicit(front);
      assert Replay(h).value.unread <==> (Replay(front).Some? && Replay(front).value.unread) || Raises(h, n);
    }
  }

  /** Only an explicit setting clears the flag. */
  lemma {:induction false} OnlyExplicitClears(h: seq<Note>, n: Note)
    requires Replay(h).Some? && Replay(h).value.unread
    ensures Replay(h + [n]).Some? && (Replay(h + [n]).value.unread || (n.Explicit? && !n.unread))
  {
    assert (h + [n])[..|h|] == h;
  }

  // ---------------------------------------------------------------- runs of the whole store

  /** A call; with `saved` false the save it needed failed, and it came to nothing. */
  datatype Action =
    | Enrich(desktop: set<string>, items: seq<Value>, saved: bool)
    | SetState(desktop: set<string>, id: string, unread: bool, updatedAt: Option<Value>, saved: bool)
    | MarkUnread(id: string, saved: bool)

  /** The entries the next call loads. */
  function Act(entries: Entries, a: Action): Entries {
    if !a.saved then entries
    else match a
    case Enrich(desktop, items, _) => Decoded(EnrichAll(entries, desktop, items).0)
    case SetState(desktop, id, unread, updatedAt, _) => Decoded(SetEntry(entries, desktop, id, unread, updatedAt))
    case MarkUnread(id, _) => Decoded(MarkEntry(entries, id))
  }

  function Run(actions: seq<Action>): Entries {
    if actions == [] then map[] else Act(Run(actions[..|actions| - 1]), actions[|actions| - 1])
  }

  function Sights(desktop: set<string>, items: seq<Value>, id: string): seq<Note> {
    if items == [] then []
    else
      var front, last := Sights(desktop, items[..|items| - 1], id), items[|items| - 1];
      if IsThread(last, id) then front + [Seen(SightOf(last, desktop))] else front
  }

  predicate IsThread(item: Value, id: string) {
    item.Obj? && ThreadId(item) == Some(id)
  }

  function Concerned(notes: seq<Note>): seq<Note> {
    if notes == [] then [] else notes + [Saved]
  }

  function NotesOf(a: Action, id: string): seq<Note> {
    if !a.saved then []
    else match a
    case Enrich(desktop, items, _) => Concerned(Sights(desktop, items, id))
    case SetState(desktop, other, unread, updatedAt, _) =>
      Concerned(if other == id then [Explicit(unread, updatedAt, id in desktop)] else [])
    case MarkUnread(other, _) => Concerned(if other == id then [Completed] else [])
  }

  function HistoryOf(actions: seq<Action>, id: string): seq<Note> {
    if actions == [] then [] else HistoryOf(actions[..|actions| - 1], id) + NotesOf(actions[|actions| - 1], id)
  }

  function Lookup(entries: Entries, id: string): Option<Entry> {
    if id in entries then Some(entries[id]) else None
  }

  /** Loaded entries hold no null revision. */
  predicate Settled(entries: Entries) {
    forall id | id in entries :: entries[id].updatedAt != Some(Null)
  }

  lemma DecodedSettled(entries: Entries)
    ensures Settled(Decoded(entries))
    ensures Settled(entries) <==> Decoded(entries) == entries
  {
    if Decoded(entries) == entries {
      assert forall id | id in entries :: entries[id] == Decoded(entries)[id];
    }
  }

  lemma ReplaySnoc(h: seq<Note>, n: Note)
    ensures Replay(h + [n]) == Next(Replay(h), n)
  {
    assert (h + [n])[..|h|] == h;
  }

  lemma {:induction false} EnrichReplays(
    entries: Entries, desktop: set<string>, items: seq<Value>, id: string, h: seq<Note>)
    requires Lookup(entries, id) == Replay(h)
    ensures Lookup(EnrichAll(entries, desktop, items).0, id) == Replay(h + Sights(desktop, items, id))
    decreases items
  {
    hide Replay, Next;
    if items == [] {
      assert h + [] == h;
    } else {
      var front, last := items[..|items| - 1], items[|items| - 1];
      EnrichReplays(entries, desktop, front, id, h);
      SightReplays(EnrichAll(entries, desktop, front).0, desktop, last, id, h + Sights(desktop, front, id));
      if IsThread(last, id) {
        assert h + Sights(desktop, items, id) == (h + Sights(desktop, front, id)) + [Seen(SightOf(last, desktop))];
      }
    }
  }

  lemma SightReplays(entries: Entries, desktop: set<string>, item: Value, id: string, h: seq<Note>)
    requires Lookup(entries, id) == Replay(h)
    ensures Lookup(EnrichOne(entries, desktop, item).0, id)
         == Replay(if IsThread(item, id) then h + [Seen(SightOf(item, desktop))] else h)
  {
    if IsThread(item, id) {
      ReplaySnoc(h, Seen(SightOf(item, desktop)));
    }
  }

  /** What a call makes of one thread before it saves, and what is loaded after. */
  lemma SavedReplays(entries: Entries, id: string, h: seq<Note>, notes: seq<Note>)
    requires Lookup(entries, id) == Replay(h + notes)
    requires notes == [] && id in entries ==> entries[id].updatedAt != Some(Null)
    ensures Lookup(Decoded(entries), id) == Replay(h + Concerned(notes))
  {
    hide Replay;
    if notes != [] {
      ReplaySnoc(h + notes, Saved);
      assert h + Concerned(notes) == (h + notes) + [Saved];
    }
  }

  lemma Unmentioned(entries: Entries, desktop: set<string>, items: seq<Value>, id: string)
    requires Sights(desktop, items, id) == []
    ensures Lookup(EnrichAll(entries, desktop, items).0, id) == Lookup(entries, id)
    decreases items
  {
    if items != [] {
      Unmentioned(entries, desktop, items[..|items| - 1], id);
    }
  }

  lemma ActReplays(entries: Entries, a: Action, id: string, h: seq<Note>)
    requires Settled(entries) && Lookup(entries, id) == Replay(h)
    ensures Lookup(Act(entries, a), id) == Replay(h + NotesOf(a, id))
  {
    if !a.saved {
      assert h + [] == h;
      return;
    }
    match a
    case Enrich(desktop, items, _) =>
      EnrichReplays(entries, desktop, items, id, h);
      if Sights(desktop, items, id) == [] {
        Unmentioned(entries, desktop, items, id);
      }
      hide EnrichAll, Sights, Replay;
      SavedReplays(EnrichAll(entries, desktop, items).0, id, h, Sights(desktop, items, id));
    case SetState(desktop, other, unread, updatedAt, _) =>
      var notes := if other == id then [Explicit(unread, updatedAt, id in desktop)] else [];
      if other == id {
        ReplaySnoc(h, notes[0]);
      } else {
        assert h + [] == h;
      }
      hide Replay;
      SavedReplays(SetEntry(entries, desktop, other, unread, updatedAt), id, h, notes);
    case MarkUnread(other, _) =>
      if other == id {
        ReplaySnoc(h, Completed);
      } else {
        assert h + [] == h;
      }
      hide Replay;
      SavedReplays(MarkEntry(entries, other), id, h, if other == id then [Completed] else []);
  }

  /** In every run of listings, settings and completions, each thread's entry is the replay of its own
      history, so its flag is what `UnreadIsItsHistory` says. */
  lemma {:induction false} StoreIsHistories(actions: seq<Action>, id: string)
    ensures Settled(Run(actions)) && Lookup(Run(actions), id) == Replay(HistoryOf(actions, id))
  {
    hide NotesOf, Replay;
    if actions == [] {
      assert Replay([]) == None by { EmptyReplay(); }
    } else {
      var front, last := actions[..|actions| - 1], actions[|actions| - 1];
      StoreIsHistories(front, id);
      ActReplays(Run(front), last, id, HistoryOf(front, id));
      ActSettled(Run(front), last);
      hide Act;
    }
  }

  lemma ActSettled(entries: Entries, a: Action)
    requires Settled(entries)
    ensures Settled(Act(entries, a))
  {
  }

  lemma EmptyReplay()
    ensures Replay([]) == None
  {
  }

  lemma {:induction false} Touched(h: seq<Note>)
    requires Replay(h).Some?
    ensures exists k | 0 <= k < |h| :: !h[k].Saved?
  {
    if h[|h| - 1].Saved? {
      Touched(h[..|h| - 1]);
      var k :| 0 <= k < |h| - 1 && !h[..|h| - 1][k].Saved?;
      assert !h[k].Saved?;
    }
  }

  /** In every run a thread is tracked exactly when something has happened to it, and it is unread exactly when its
      history says so. */
  lemma {:induction false} UnreadInEveryRun(actions: seq<Action>, id: string)
    ensures var h := HistoryOf(actions, id);
      && (id in Run(actions) <==> exists k | 0 <= k < |h| :: !h[k].Saved?)
      && (id in Run(actions) ==> (Run(actions)[id].unread <==>
            SinceExplicit(h).1 || exists k | SinceExplicit(h).0 <= k < |h| :: Raises(h, k)))
  {
    StoreIsHistories(actions, id);
    EntryRemembers(HistoryOf(actions, id));
    if id in Run(actions) {
      UnreadIsItsHistory(HistoryOf(actions, id));
      Touched(HistoryOf(actions, id));
    }
  }

  // ---------------------------------------------------------------- what is shown of the flag

  /** The flag a shown item carries. */
  function ShownFlag(item: Value): Option<bool> {
    match item.Get("hasUnreadTurn")
    case Some(Bool(b)) => Some(b)
    case _ => None
  }

  lemma EnrichedShows(item: Value, e: Entry)
    requires item.Obj?
    ensures ShownFlag(Enriched(item, e)) == Some(e.unread)
  {
    hide RuntimeStatus, TurnStatus, StatusType;
  }

  /** A shown thread carries its entry's flag as it stands after that item. */
  lemma {:induction false} ShowsItsEntry(entries: Entries, desktop: set<string>, items: seq<Value>, k: nat)
    requires k < |items| && items[k].Obj? && ThreadId(items[k]).Some?
    ensures var id, upto := ThreadId(items[k]).value, EnrichAll(entries, desktop, items[..k + 1]).0;
      id in upto && ShownFlag(EnrichAll(entries, desktop, items).1[k]) == Some(upto[id].unread)
    decreases items
  {
    hide Enriched, ShownFlag, Observe, SightOf;
    var n := |items| - 1;
    if k == n {
      assert items[..k + 1] == items;
      var front := EnrichAll(entries, desktop, items[..n]).0;
      var id, s := ThreadId(items[n]).value, SightOf(items[n], desktop);
      EnrichedShows(items[n], Observe(Before(front, id, s), s));
    } else {
      ShowsItsEntry(entries, desktop, items[..n], k);
      assert items[..n][..k + 1] == items[..k + 1];
    }
  }

  /** Later items of a listing never clear a flag, and leave the entries of other threads alone. */
  lemma {:induction false} LaterItemsOnlyRaise(
    entries: Entries, desktop: set<string>, items: seq<Value>, k: nat, id: string)
    requires k <= |items| && id in EnrichAll(entries, desktop, items[..k]).0
    ensures var upto, all := EnrichAll(entries, desktop, items[..k]).0, EnrichAll(entries, desktop, items).0;
      && id in all && (upto[id].unread ==> all[id].unread)
      && ((forall j | k <= j < |items| :: !IsThread(items[j], id)) ==> all[id] == upto[id])
    decreases items
  {
    hide SightOf, Enriched, ThreadId;
    if k == |items| {
      assert items[..k] == items;
    } else {
      var n := |items| - 1;
      assert items[..n][..k] == items[..k];
      LaterItemsOnlyRaise(entries, desktop, items[..n], k, id);
      assert forall j | 0 <= j < n :: items[..n][j] == items[j];
    }
  }

  /** Each reported flag is the stored one: of a thread listed once, or at its last place in the list. Listed again
      later in the same call, a thread shows at its earlier places the flag as it was then, which is unread only if
      the stored one is. */
  lemma {:induction false} ReportsTheStoredFlag(entries: Entries, desktop: set<string>, items: seq<Value>, k: nat)
    requires k < |items| && items[k].Obj? && ThreadId(items[k]).Some?
    ensures var id, (after, shown) := ThreadId(items[k]).value, EnrichAll(entries, desktop, items);
      && id in after && ShownFlag(shown[k]).Some?
      && (ShownFlag(shown[k]).value ==> after[id].unread)
      && ((forall j | k < j < |items| :: !IsThread(items[j], id)) ==> ShownFlag(shown[k]) == Some(after[id].unread))
  {
    ShowsItsEntry(entries, desktop, items, k);
    LaterItemsOnlyRaise(entries, desktop, items, k + 1, ThreadId(items[k]).value);
    hide EnrichAll, ThreadId, ShownFlag, IsThread;
  }

  // ---------------------------------------------------------------- pages and repetition

  /** The listed threads are all different. */
  predicate DistinctThreads(items: seq<Value>) {
    forall i, j | 0 <= i < j < |items| && items[i].Obj? && ThreadId(items[i]).Some? ::
      !IsThread(items[j], ThreadId(items[i]).value)
  }

  /** The listed item of a thread. */
  function Find(items: seq<Value>, id: string): Option<Value> {
    if items == [] then None
    else if IsThread(items[|items| - 1], id) then Some(items[|items| - 1])
    else Find(items[..|items| - 1], id)
  }

  lemma {:induction false} FindIs(items: seq<Value>, id: string, k: nat)
    requires DistinctThreads(items) && k < |items| && IsThread(items[k], id)
    ensures Find(items, id) == Some(items[k])
  {
    var n := |items| - 1;
    if k < n {
      FindIs(items[..n], id, k);
    }
  }

  lemma {:induction false} FindFinds(items: seq<Value>, id: string)
    ensures Find(items, id).Some? ==> Find(items, id).value in items && IsThread(Find(items, id).value, id)
  {
    if items != [] {
      FindFinds(items[..|items| - 1], id);
    }
  }

  /** A thread's entry after one item, given its entry before. */
  function After(before: Option<Entry>, desktop: set<string>, item: Value): Entry
    requires ThreadId(item).Some?
  {
    var s := SightOf(item, desktop);
    Observe(if before.Some? then before.value else FirstEntry(s), s)
  }

  function ShownAs(before: Option<Entry>, desktop: set<string>, item: Value): Value {
    if item.Obj? && ThreadId(item).Some? then Enriched(item, After(before, desktop, item)) else item
  }

  function IdOf(item: Value): string {
    if ThreadId(item).Some? then ThreadId(item).value else ""
  }

  /** Listing distinct threads treats each on its own: what becomes of a thread depends only on its own item
      and its own entry before the call. */
  lemma {:induction false} EnrichIsPointwise(
    entries: Entries, desktop: set<string>, items: seq<Value>, id: string, k: nat)
    requires DistinctThreads(items)
    ensures Lookup(EnrichAll(entries, desktop, items).0, id) ==
      if Find(items, id).Some?
      then (FindFinds(items, id); Some(After(Lookup(entries, id), desktop, Find(items, id).value)))
      else Lookup(entries, id)
    ensures k < |items| ==>
      EnrichAll(entries, desktop, items).1[k] == ShownAs(Lookup(entries, IdOf(items[k])), desktop, items[k])
    decreases items
  {
    hide Enriched, Observe, SightOf, DistinctThreads;
    FindFinds(items, id);
    if items != [] {
      assert DistinctThreads(items[..|items| - 1]) by { DistinctFront(items); }
      var n := |items| - 1;
      var front, last := items[..n], items[n];
      EnrichIsPointwise(entries, desktop, front, id, k);
      FindFinds(front, id);
      if last.Obj? && ThreadId(last).Some? {
        EnrichIsPointwise(entries, desktop, front, IdOf(last), k);
        NotInFront(items);
      }
    }
  }

  /** A turn is under way: the last one says so, or no turn says anything and the thread is active. */
  ghost predicate UnderWay(item: Value) {
    LastTurnIs(item, "inProgress") || (NoTurn(item) && HasType(item, "active"))
  }

  lemma UnderWayIs(item: Value, desktop: set<string>, id: string)
    requires Names(item, id)
    ensures UnderWay(item) <==> SightOf(item, desktop).turnStatus == Some("inProgress")
    ensures HasType(item, "active") <==> SightOf(item, desktop).runtimeStatus == "active"
    ensures SightOf(item, desktop).updatedAt == item.Get("updatedAt")
    ensures SightOf(item, desktop).desktopUnread == (id in desktop)
  {
    SightIs(item, desktop, id);
    TurnIs(item);
    hide LastTurnIs, HasType, LastTurnStatus, TurnStatus, StatusType, Names, ThreadId;
  }

  /** A thread listed in two calls, both times with a revision: it is unread after the second exactly when it was
      before, or its turn or its activity was under way at the first and no longer is, with a new revision, or the
      desktop marks it now and did not before. */
  lemma {:induction false} UnreadBetweenListings(
    entries: Entries, desktop: set<string>, items: seq<Value>, j: nat,
    desktop': set<string>, items': seq<Value>, k: nat, id: string)
    requires DistinctThreads(items) && j < |items| && Names(items[j], id)
    requires DistinctThreads(items') && k < |items'| && Names(items'[k], id)
    requires items[j].Get("updatedAt").Some? && items[j].Get("updatedAt") != Some(Null)
    requires items'[k].Get("updatedAt").Some?
    ensures var before := Decoded(EnrichAll(entries, desktop, items).0);
      var (after, shown) := EnrichAll(before, desktop', items');
      && id in before && id in after && shown[k].Get("hasUnreadTurn") == Some(Bool(after[id].unread))
      && (after[id].unread <==>
            || before[id].unread
            || (items'[k].Get("updatedAt") != items[j].Get("updatedAt")
                && ((UnderWay(items[j]) && !UnderWay(items'[k]))
                    || (HasType(items[j], "active") && !HasType(items'[k], "active"))))
            || (id in desktop' && id !in desktop))
  {
    NamesIs(items[j], id);
    NamesIs(items'[k], id);
    FindIs(items, id, j);
    FindIs(items', id, k);
    EnrichIsPointwise(entries, desktop, items, id, j);
    var before := Decoded(EnrichAll(entries, desktop, items).0);
    EnrichIsPointwise(before, desktop', items', id, k);
    UnderWayIs(items[j], desktop, id);
    UnderWayIs(items'[k], desktop', id);
    EnrichedIs(items'[k], After(Lookup(before, id), desktop', items'[k]));
    hide EnrichAll, Find, DistinctThreads, Names, ThreadId, SightOf, Enriched, Shows, UnderWay, HasType;
  }

  lemma DistinctFront(items: seq<Value>)
    requires DistinctThreads(items) && items != []
    ensures DistinctThreads(items[..|items| - 1])
  {
  }

  lemma NotInFront(items: seq<Value>)
    requires DistinctThreads(items) && items != [] && items[|items| - 1].Obj? && ThreadId(items[|items| - 1]).Some?
    ensures Find(items[..|items| - 1], IdOf(items[|items| - 1])).None?
  {
    FindFinds(items[..|items| - 1], IdOf(items[|items| - 1]));
    assert forall i | 0 <= i < |items| - 1 :: !IsThread(items[i], IdOf(items[|items| - 1]));
  }

  lemma SameEntries(a: Entries, b: Entries)
    requires forall id :: Lookup(a, id) == Lookup(b, id)
    ensures a == b
  {
    assert forall id :: (id in a <==> Lookup(a, id).Some?) && (id in b <==> Lookup(b, id).Some?);
  }

  /** The order of a listing does not matter. */
  lemma {:induction false} OrderIrrelevant(
    entries: Entries, desktop: set<string>, items: seq<Value>, shuffled: seq<Value>)
    requires DistinctThreads(items) && DistinctThreads(shuffled)
    requires forall item :: item in items <==> item in shuffled
    ensures EnrichAll(entries, desktop, items).0 == EnrichAll(entries, desktop, shuffled).0
    ensures forall j, k | 0 <= j < |items| && 0 <= k < |shuffled| && items[j] == shuffled[k] ::
      EnrichAll(entries, desktop, items).1[j] == EnrichAll(entries, desktop, shuffled).1[k]
  {
    hide *;
    forall id
      ensures Lookup(EnrichAll(entries, desktop, items).0, id) == Lookup(EnrichAll(entries, desktop, shuffled).0, id)
    {
      EnrichIsPointwise(entries, desktop, items, id, 0);
      EnrichIsPointwise(entries, desktop, shuffled, id, 0);
      SameFind(items, shuffled, id);
    }
    SameEntries(EnrichAll(entries, desktop, items).0, EnrichAll(entries, desktop, shuffled).0);
    forall j, k | 0 <= j < |items| && 0 <= k < |shuffled| && items[j] == shuffled[k]
      ensures EnrichAll(entries, desktop, items).1[j] == EnrichAll(entries, desktop, shuffled).1[k]
    {
      EnrichIsPointwise(entries, desktop, items, "", j);
      EnrichIsPointwise(entries, desktop, shuffled, "", k);
    }
  }

  lemma SameFind(items: seq<Value>, shuffled: seq<Value>, id: string)
    requires DistinctThreads(items) && DistinctThreads(shuffled)
    requires forall item :: item in items <==> item in shuffled
    ensures Find(items, id) == Find(shuffled, id)
  {
    FindFinds(items, id);
    FindFinds(shuffled, id);
    if Find(items, id).Some? {
      var k :| 0 <= k < |shuffled| && shuffled[k] == Find(items, id).value;
      FindIs(shuffled, id, k);
    } else if Find(shuffled, id).Some? {
      var k :| 0 <= k < |items| && items[k] == Find(shuffled, id).value;
      FindIs(items, id, k);
    }
  }

  /** Within one call, enriching a list is enriching its front and then its back. */
  lemma {:induction false} EnrichConcat(entries: Entries, desktop: set<string>, a: seq<Value>, b: seq<Value>)
    ensures var first := EnrichAll(entries, desktop, a);
      var second := EnrichAll(first.0, desktop, b);
      EnrichAll(entries, desktop, a + b) == (second.0, first.1 + second.1)
    decreases b
  {
    var first := EnrichAll(entries, desktop, a);
    if b == [] {
      assert a + b == a;
      assert first.1 + [] == first.1;
    } else {
      var front, last := b[..|b| - 1], b[|b| - 1];
      assert (a + b)[..|a + b| - 1] == a + front && (a + b)[|a + b| - 1] == last;
      EnrichConcat(entries, desktop, a, front);
      var second := EnrichAll(first.0, desktop, front);
      assert (first.1 + second.1) + [EnrichOne(second.0, desktop, last).1]
          == first.1 + (second.1 + [EnrichOne(second.0, desktop, last).1]);
    }
  }

  lemma EnrichedGet(item: Value, e: Entry, key: string)
    requires item.Obj?
    requires key !in {"threadRuntimeStatus", "runtimeStatusAvailability", "runtimeStatusSource", "activeFlags",
                      "isInProgress", "latestTurnStatus", "hasUnreadTurn"}
    ensures Enriched(item, e).Get(key) == item.Get(key)
  {
  }

  /** What is written into an item is not read back from it. */
  lemma {:induction false} ReadsNothingWritten(item: Value, e: Entry, desktop: set<string>)
    requires item.Obj? && ThreadId(item).Some?
    ensures ThreadId(Enriched(item, e)) == ThreadId(item)
    ensures SightOf(Enriched(item, e), desktop) == SightOf(item, desktop)
    ensures Enriched(Enriched(item, e), e) == Enriched(item, e)
  {
    EnrichedGet(item, e, "threadId");
    EnrichedGet(item, e, "sessionId");
    EnrichedGet(item, e, "id");
    EnrichedGet(item, e, "status");
    EnrichedGet(item, e, "updatedAt");
    EnrichedGet(item, e, "turns");
    WrittenTwice(item, Enriched(item, e), e);
  }

  lemma SameTurnStatus(item: Value, shown: Value)
    requires shown.Get("turns") == item.Get("turns")
    ensures forall runtime :: TurnStatus(shown, runtime) == TurnStatus(item, runtime)
  {
  }

  lemma WrittenTwice(item: Value, shown: Value, e: Entry)
    requires item.Obj? && shown == Enriched(item, e)
    requires shown.Get("status") == item.Get("status") && shown.Get("turns") == item.Get("turns")
    ensures Enriched(shown, e) == shown
  {
    SameTurnStatus(item, shown);
    hide RuntimeStatus, TurnStatus, StatusType;
    assert Enriched(shown, e).fields == shown.fields;
  }

  lemma ShownKeepsIds(entries: Entries, desktop: set<string>, items: seq<Value>)
    requires DistinctThreads(items)
    ensures var shown := EnrichAll(entries, desktop, items).1;
      && DistinctThreads(shown)
      && forall k | 0 <= k < |items| :: shown[k].Obj? == items[k].Obj? && ThreadId(shown[k]) == ThreadId(items[k])
  {
    hide EnrichAll, Enriched;
    var shown := EnrichAll(entries, desktop, items).1;
    forall k | 0 <= k < |items| ensures shown[k].Obj? == items[k].Obj? && ThreadId(shown[k]) == ThreadId(items[k]) {
      EnrichIsPointwise(entries, desktop, items, "", k);
      if items[k].Obj? && ThreadId(items[k]).Some? {
        ReadsNothingWritten(items[k], After(Lookup(entries, IdOf(items[k])), desktop, items[k]), desktop);
      }
    }
  }

  /** A listed thread shown with a null revision. */
  predicate NullRevision(item: Value) {
    item.Obj? && ThreadId(item).Some? && item.Get("updatedAt") == Some(Null)
  }

  /** Listing the same again, in the next call, changes neither store nor items; and it saves nothing exactly when
      no listed thread had a null revision, which the store forgets and the next call notes again. */
  lemma {:induction false} EnrichIsIdempotent(entries: Entries, desktop: set<string>, items: seq<Value>)
    requires Settled(entries) && DistinctThreads(items)
    ensures var once := EnrichAll(entries, desktop, items);
      && EnrichAll(Decoded(once.0), desktop, once.1) == once
      && (once.0 == Decoded(once.0) <==> forall k | 0 <= k < |items| :: !NullRevision(items[k]))
  {
    hide *;
    var (after, shown) := EnrichAll(entries, desktop, items);
    ShownKeepsIds(entries, desktop, items);
    var (again, twice) := EnrichAll(Decoded(after), desktop, shown);
    forall k | 0 <= k < |items| ensures twice[k] == shown[k] {
      SecondTime(entries, desktop, items, k);
    }
    assert twice == shown;
    forall id ensures Lookup(again, id) == Lookup(after, id) {
      EntrySecondTime(entries, desktop, items, id);
    }
    SameEntries(again, after);
    DecodedSettled(after);
    SavedAgain(entries, desktop, items);
  }

  /** The exception is real: a thread whose revision is null is saved again by the same listing. */
  lemma ANullRevisionIsSavedAgain()
    ensures var items := [Obj(map["threadId" := Str("a"), "updatedAt" := Null])];
      var once := EnrichAll(map[], {}, items);
      EnrichAll(Decoded(once.0), {}, once.1).0 != Decoded(once.0)
  {
    var items := [Obj(map["threadId" := Str("a"), "updatedAt" := Null])];
    assert NullRevision(items[0]);
    EnrichIsIdempotent(map[], {}, items);
    hide EnrichAll, Decoded;
  }

  lemma SavedAgain(entries: Entries, desktop: set<string>, items: seq<Value>)
    requires Settled(entries) && DistinctThreads(items)
    ensures Settled(EnrichAll(entries, desktop, items).0) <==> forall k | 0 <= k < |items| :: !NullRevision(items[k])
  {
    hide EnrichAll, DistinctThreads, Find, ThreadId;
    var after := EnrichAll(entries, desktop, items).0;
    forall k | 0 <= k < |items| && NullRevision(items[k]) ensures !Settled(after) {
      EnrichIsPointwise(entries, desktop, items, IdOf(items[k]), 0);
      FindIs(items, IdOf(items[k]), k);
      assert after[IdOf(items[k])].updatedAt == Some(Null);
    }
    if !Settled(after) {
      var id :| id in after && after[id].updatedAt == Some(Null);
      EnrichIsPointwise(entries, desktop, items, id, 0);
      FindFinds(items, id);
      assert Find(items, id).Some? && NullRevision(Find(items, id).value);
    }
  }

  lemma EntrySecondTime(entries: Entries, desktop: set<string>, items: seq<Value>, id: string)
    requires Settled(entries) && DistinctThreads(items) && DistinctThreads(EnrichAll(entries, desktop, items).1)
    requires var shown := EnrichAll(entries, desktop, items).1;
      forall k | 0 <= k < |items| :: shown[k].Obj? == items[k].Obj? && ThreadId(shown[k]) == ThreadId(items[k])
    ensures var (after, shown) := EnrichAll(entries, desktop, items);
      Lookup(EnrichAll(Decoded(after), desktop, shown).0, id) == Lookup(after, id)
  {
    hide EnrichAll, DistinctThreads, After, Find;
    var (after, shown) := EnrichAll(entries, desktop, items);
    EnrichIsPointwise(Decoded(after), desktop, shown, id, 0);
    FindFinds(shown, id);
    if Find(shown, id).Some? {
      var k :| 0 <= k < |shown| && shown[k] == Find(shown, id).value;
      SecondTime(entries, desktop, items, k);
    } else {
      EnrichIsPointwise(entries, desktop, items, id, 0);
      FindFinds(items, id);
      if Find(items, id).Some? {
        var k :| 0 <= k < |items| && items[k] == Find(items, id).value;
        FindIs(shown, id, k);
      }
    }
  }

  /** What an entry was last given, it is given again. */
  lemma ObservedTwice(before: Option<Entry>, desktop: set<string>, item: Value)
    requires ThreadId(item).Some? && (before.Some? ==> before.value.updatedAt != Some(Null))
    ensures var e := After(before, desktop, item); After(Some(Remembered(e)), desktop, item) == e
  {
  }

  lemma SecondTime(entries: Entries, desktop: set<string>, items: seq<Value>, k: nat)
    requires Settled(entries) && DistinctThreads(items) && k < |items|
    requires DistinctThreads(EnrichAll(entries, desktop, items).1)
    ensures var (after, shown) := EnrichAll(entries, desktop, items);
      && EnrichAll(Decoded(after), desktop, shown).1[k] == shown[k]
      && (items[k].Obj? && ThreadId(items[k]).Some? ==>
            && IsThread(shown[k], IdOf(items[k]))
            && Some(After(Lookup(Decoded(after), IdOf(items[k])), desktop, shown[k])) == Lookup(after, IdOf(items[k])))
  {
    var (after, shown) := EnrichAll(entries, desktop, items);
    var id := IdOf(items[k]);
    EnrichIsPointwise(entries, desktop, items, id, k);
    EnrichIsPointwise(Decoded(after), desktop, shown, id, k);
    hide EnrichAll, DistinctThreads;
    if items[k].Obj? && ThreadId(items[k]).Some? {
      FindIs(items, id, k);
      ReadsNothingWritten(items[k], After(Lookup(entries, id), desktop, items[k]), desktop);
      ObservedTwice(Lookup(entries, id), desktop, items[k]);
      hide Observe, SightOf, Enriched, Find;
    }
  }

  /** Listing distinct threads page by page, one call a page, is listing them in one call. */
  lemma {:induction false} PagesAcrossCalls(entries: Entries, desktop: set<string>, a: seq<Value>, b: seq<Value>)
    requires Settled(entries) && DistinctThreads(a + b)
    ensures var first, whole := EnrichAll(entries, desktop, a), EnrichAll(entries, desktop, a + b);
      var second := EnrichAll(Decoded(first.0), desktop, b);
      && whole.1 == first.1 + second.1
      && Decoded(whole.0) == Decoded(second.0)
  {
    hide *;
    var first, whole := EnrichAll(entries, desktop, a), EnrichAll(entries, desktop, a + b);
    var second := EnrichAll(Decoded(first.0), desktop, b);
    DistinctParts(a, b);
    forall k | 0 <= k < |a| + |b| ensures whole.1[k] == (first.1 + second.1)[k] {
      ShownAcrossCalls(entries, desktop, a, b, k);
    }
    assert whole.1 == first.1 + second.1;
    forall id ensures Lookup(Decoded(whole.0), id) == Lookup(Decoded(second.0), id) {
      EntryAcrossCalls(entries, desktop, a, b, id);
    }
    SameEntries(Decoded(whole.0), Decoded(second.0));
  }

  lemma DistinctParts(a: seq<Value>, b: seq<Value>)
    requires DistinctThreads(a + b)
    ensures DistinctThreads(a) && DistinctThreads(b)
    ensures forall i, j | 0 <= i < |a| && 0 <= j < |b| && a[i].Obj? && ThreadId(a[i]).Some? ::
      !IsThread(b[j], ThreadId(a[i]).value)
  {
    hide ThreadId;
    assert forall i | 0 <= i < |a| :: (a + b)[i] == a[i];
    assert forall j | 0 <= j < |b| :: (a + b)[|a| + j] == b[j];
  }

  /** A thread is in one of the parts at most. */
  lemma FindInParts(a: seq<Value>, b: seq<Value>, id: string)
    requires DistinctThreads(a + b)
    ensures Find(a + b, id) == if Find(b, id).Some? then Find(b, id) else Find(a, id)
    ensures Find(b, id).Some? ==> Find(a, id).None?
  {
    DistinctParts(a, b);
    FindFinds(a, id);
    FindFinds(b, id);
    FindFinds(a + b, id);
    hide Find, ThreadId, DistinctThreads;
    if Find(b, id).Some? {
      var j :| 0 <= j < |b| && b[j] == Find(b, id).value;
      assert (a + b)[|a| + j] == b[j];
      FindIs(a + b, id, |a| + j);
    } else if Find(a, id).Some? {
      var i :| 0 <= i < |a| && a[i] == Find(a, id).value;
      assert (a + b)[i] == a[i];
      FindIs(a + b, id, i);
    } else if Find(a + b, id).Some? {
      var k :| 0 <= k < |a + b| && (a + b)[k] == Find(a + b, id).value;
      if k < |a| {
        FindIs(a, id, k);
      } else {
        FindIs(b, id, k - |a|);
      }
    }
  }

  lemma EntryAcrossCalls(entries: Entries, desktop: set<string>, a: seq<Value>, b: seq<Value>, id: string)
    requires Settled(entries) && DistinctThreads(a + b) && DistinctThreads(a) && DistinctThreads(b)
    ensures var first := EnrichAll(entries, desktop, a);
      Lookup(Decoded(EnrichAll(entries, desktop, a + b).0), id)
        == Lookup(Decoded(EnrichAll(Decoded(first.0), desktop, b).0), id)
  {
    hide EnrichAll, DistinctThreads, After;
    var first := EnrichAll(entries, desktop, a);
    EnrichIsPointwise(entries, desktop, a, id, 0);
    EnrichIsPointwise(entries, desktop, a + b, id, 0);
    EnrichIsPointwise(Decoded(first.0), desktop, b, id, 0);
    FindInParts(a, b, id);
    FindFinds(a, id);
    hide Find;
  }

  lemma ShownAcrossCalls(entries: Entries, desktop: set<string>, a: seq<Value>, b: seq<Value>, k: nat)
    requires Settled(entries) && DistinctThreads(a + b) && DistinctThreads(a) && DistinctThreads(b)
    requires k < |a| + |b|
    ensures var first := EnrichAll(entries, desktop, a);
      EnrichAll(entries, desktop, a + b).1[k]
        == (first.1 + EnrichAll(Decoded(first.0), desktop, b).1)[k]
  {
    hide EnrichAll, DistinctThreads, After, Find, ThreadId, SightOf, Enriched;
    var first := EnrichAll(entries, desktop, a);
    EnrichIsPointwise(entries, desktop, a + b, "", k);
    if k < |a| {
      EnrichIsPointwise(entries, desktop, a, "", k);
    } else {
      var item := b[k - |a|];
      EnrichIsPointwise(Decoded(first.0), desktop, b, "", k - |a|);
      if item.Obj? && ThreadId(item).Some? {
        BackUntouched(entries, desktop, a, b, k - |a|);
      }
    }
  }

  /** A thread of the back has the entry it came with when the back's turn comes. */
  lemma BackUntouched(entries: Entries, desktop: set<string>, a: seq<Value>, b: seq<Value>, j: nat)
    requires Settled(entries) && DistinctThreads(a + b) && DistinctThreads(a) && DistinctThreads(b)
    requires j < |b| && b[j].Obj? && ThreadId(b[j]).Some?
    ensures Lookup(Decoded(EnrichAll(entries, desktop, a).0), IdOf(b[j])) == Lookup(entries, IdOf(b[j]))
  {
    hide EnrichAll, DistinctThreads, After, Find, ThreadId;
    FindIs(b, IdOf(b[j]), j);
    FindInParts(a, b, IdOf(b[j]));
    EnrichIsPointwise(entries, desktop, a, IdOf(b[j]), 0);
  }
}
