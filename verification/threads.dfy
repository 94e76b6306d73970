/** Thread projections and their de-duplication: `src/invoke.rs`. */
module Threads {
  import opened Json
  import opened Text

  // ---------------------------------------------------------------- one projection

  /** A search result nests its thread: each member of that thread stands at the top, over the item's own, and the
      item's other members are kept. An item without one is as it was. */
  predicate Lifted(item: Value, shown: Value) {
    match item.Get("thread")
    case Some(Obj(thread)) =>
      && shown.Obj? && shown.fields.Keys == item.fields.Keys + thread.Keys
      && (forall k | k in thread :: shown.fields[k] == thread[k])
      && (forall k | k in item.fields && k !in thread :: shown.fields[k] == item.fields[k])
    case _ => shown == item
  }

  predicate AllLifted(items: seq<Value>, shown: seq<Value>) {
    |shown| == |items| && forall k | 0 <= k < |items| :: Lifted(items[k], shown[k])
  }

  lemma LiftedIs(item: Value, shown: Value)
    ensures Lifted(item, shown) <==> shown == NormalizeItem(item)
  {
    if Lifted(item, shown) && item.Get("thread").Some? && item.Get("thread").value.Obj? {
      assert shown.fields == item.fields + item.Get("thread").value.fields;
    }
  }

  function NormalizeItem(item: Value): Value {
    match item.Get("thread")
    case Some(Obj(thread)) => Obj(item.fields + thread)
    case _ => item
  }

  /** The first of the three id members that is a string. */
  function FirstString(t: Value): Option<string> {
    if t.GetStr("threadId").Some? then t.GetStr("threadId")
    else if t.GetStr("sessionId").Some? then t.GetStr("sessionId")
    else t.GetStr("id")
  }

  function LogicalId(t: Value): Option<string> {
    match FirstString(t)
    case None => None
    case Some(s) => if Trim(s) == "" then None else Some(Trim(s))
  }

  /** The first of `threadId`, `sessionId` and `id` that is a string is `s`. */
  predicate NamedBy(t: Value, s: string) {
    || t.Get("threadId") == Some(Str(s))
    || (t.GetStr("threadId").None?
        && (t.Get("sessionId") == Some(Str(s)) || (t.GetStr("sessionId").None? && t.Get("id") == Some(Str(s)))))
  }

  /** The logical id is that string without the white space around it, and an id that is only white space is none. */
  lemma LogicalIdIs(t: Value)
    ensures forall s | NamedBy(t, s) ::
      LogicalId(t) == if forall i | 0 <= i < |s| :: IsWhitespace(s[i]) then None else Some(Trim(s))
    ensures (forall s :: !NamedBy(t, s)) ==> LogicalId(t).None?
  {
    forall s | NamedBy(t, s)
      ensures LogicalId(t) == if forall i | 0 <= i < |s| :: IsWhitespace(s[i]) then None else Some(Trim(s))
    {
      TrimsToNothing(s);
    }
    if FirstString(t).Some? {
      assert NamedBy(t, FirstString(t).value);
    }
  }

  predicate Missing(v: Value) {
    v.Null? || (v.Str? && Trim(v.s) == "")
  }

  predicate MissingField(t: Value, key: string) {
    t.Get(key).None? || Missing(t.Get(key).value)
  }

  predicate IsLive(t: Value) {
    match t.GetStr("runtimeStatusAvailability")
    case Some(availability) => availability == "live"
    case None =>
      match t.Get("status")
      case Some(Obj(status)) => Obj(status).GetStr("type").Some? && Obj(status).GetStr("type").value != "notLoaded"
      case Some(Str(status)) => status != "" && status != "notLoaded"
      case _ => false
  }

  const TIMESTAMP_KEYS := ["recencyAt", "recency_at", "updatedAt", "updated_at", "createdAt", "created_at"]

  function Timestamp(t: Value, from: nat := 0): Option<Value>
    decreases |TIMESTAMP_KEYS| - from
  {
    if from >= |TIMESTAMP_KEYS| then None
    else if t.Get(TIMESTAMP_KEYS[from]).Some? then t.Get(TIMESTAMP_KEYS[from])
    else Timestamp(t, from + 1)
  }

  datatype Ordering = Less | Equal | Greater

  function CompareReals(a: real, b: real): Ordering {
    if a < b then Less else if a > b then Greater else Equal
  }

  function CompareStrings(a: string, b: string): Ordering {
    if a == b then Equal else if Text.Less(a, b) then Less else Greater
  }

  function CompareRecency(a: Option<Value>, b: Option<Value>): Ordering {
    match (a, b)
    case (Some(Num(m)), Some(Num(n))) => CompareReals(m.AsReal(), n.AsReal())
    case (Some(Str(s)), Some(Str(t))) => CompareStrings(s, t)
    case (Some(_), None) => Greater
    case (None, Some(_)) => Less
    case _ => Equal
  }

  function Compare(a: Value, b: Value): Ordering {
    if IsLive(a) && !IsLive(b) then Greater
    else if !IsLive(a) && IsLive(b) then Less
    else CompareRecency(Timestamp(a), Timestamp(b))
  }

  /** What the app-server says of a live thread: it is available live, or, when nothing is said of that, its status has
      a type, and one that is not "notLoaded". */
  ghost predicate ShownLive(t: Value) {
    if t.GetStr("runtimeStatusAvailability").Some? then t.Get("runtimeStatusAvailability") == Some(Str("live"))
    else exists s :: HasStatus(t, s) && s != "notLoaded"
  }

  /** Its status is this text, or an object with this type. */
  predicate HasStatus(t: Value, s: string) {
    (t.Get("status") == Some(Str(s)) && s != "") || t.GetOrNull("status").Get("type") == Some(Str(s))
  }

  /** The first of its timestamps that is there. */
  predicate StampedAt(t: Value, stamp: Value, j: nat) {
    var keys := ["recencyAt", "recency_at", "updatedAt", "updated_at", "createdAt", "created_at"];
    j < 6 && t.Get(keys[j]) == Some(stamp) && forall i | 0 <= i < j :: t.Get(keys[i]).None?
  }

  ghost predicate Stamped(t: Value, stamp: Value) {
    exists j: nat :: StampedAt(t, stamp, j)
  }

  /** A later number, or a text that comes later in the order; any timestamp is later than none. */
  ghost predicate Newer(a: Value, b: Value) {
    exists x :: Stamped(a, x) && ((forall y :: !Stamped(b, y)) || exists y :: Stamped(b, y) && After(x, y))
  }

  predicate After(x: Value, y: Value) {
    (x.Num? && y.Num? && x.n.AsReal() > y.n.AsReal()) || (x.Str? && y.Str? && Text.Less(y.s, x.s))
  }

  ghost predicate Outranks(a: Value, b: Value) {
    (ShownLive(a) && !ShownLive(b)) || ((ShownLive(a) <==> ShownLive(b)) && Newer(a, b))
  }

  lemma LiveIs(t: Value)
    ensures IsLive(t) <==> ShownLive(t)
  {
    if t.GetStr("runtimeStatusAvailability").None? && IsLive(t) {
      var s := if t.GetStr("status").Some? then t.GetStr("status").value
               else t.Get("status").value.GetStr("type").value;
      assert HasStatus(t, s);
    }
  }

  lemma {:induction false} TimestampFrom(t: Value, from: nat)
    requires from <= 6 && forall i | 0 <= i < from :: t.Get(TIMESTAMP_KEYS[i]).None?
    ensures match Timestamp(t, from)
      case Some(stamp) => Stamped(t, stamp)
      case None => forall i | 0 <= i < 6 :: t.Get(TIMESTAMP_KEYS[i]).None?
    decreases 6 - from
  {
    if from < 6 {
      if t.Get(TIMESTAMP_KEYS[from]).Some? {
        assert StampedAt(t, t.Get(TIMESTAMP_KEYS[from]).value, from);
      } else {
        TimestampFrom(t, from + 1);
      }
    }
  }

  lemma TimestampIs(t: Value, stamp: Value)
    ensures Stamped(t, stamp) <==> Timestamp(t) == Some(stamp)
  {
    TimestampFrom(t, 0);
    if j: nat :| StampedAt(t, stamp, j) {
      assert t.Get(TIMESTAMP_KEYS[j]).Some?;
      var i: nat :| StampedAt(t, Timestamp(t).value, i);
    }
  }

  lemma OutranksIs(a: Value, b: Value)
    ensures Outranks(a, b) <==> Compare(a, b).Greater?
  {
    LiveIs(a);
    LiveIs(b);
    NewerIs(a, b);
    hide IsLive, ShownLive, CompareRecency, Newer, Timestamp;
  }

  lemma NewerIs(a: Value, b: Value)
    ensures Newer(a, b) <==> CompareRecency(Timestamp(a), Timestamp(b)).Greater?
  {
    forall x ensures (Stamped(a, x) <==> Timestamp(a) == Some(x)) && (Stamped(b, x) <==> Timestamp(b) == Some(x)) {
      TimestampIs(a, x);
      TimestampIs(b, x);
    }
    hide Stamped, Timestamp;
    match (Timestamp(a), Timestamp(b))
    case (Some(Str(s)), Some(Str(t))) => Text.LessTotal(s, t);
    case (Some(x), Some(y)) =>
    case (Some(x), None) =>
    case (None, _) =>
  }

  // ---------------------------------------------------------------- merging two

  function Preferred(existing: Value, incoming: Value): Value {
    if Compare(incoming, existing).Greater? then incoming else existing
  }

  function Fallback(existing: Value, incoming: Value): Value {
    if Compare(incoming, existing).Greater? then existing else incoming
  }

  /** `p` with its missing members filled from `f`. */
  function Filled(p: Fields, f: Fields): Fields {
    map k | k in p.Keys + f.Keys && (k in p || !Missing(f[k])) ::
      if k in f && !Missing(f[k]) && (k !in p || Missing(p[k])) then f[k] else p[k]
  }

  function Merged(existing: Value, incoming: Value): Value {
    var p, f := Preferred(existing, incoming), Fallback(existing, incoming);
    if p.Obj? && f.Obj? then Obj(Filled(p.fields, f.fields)) else p
  }

  function Without(f: Fields, keys: set<string>): Fields {
    map k | k in f && k !in keys :: f[k]
  }

  lemma FillOne(p: Fields, f: Fields, keys: set<string>, key: string)
    requires key in keys && keys <= f.Keys
    ensures var before, after := Filled(p, Without(f, keys)), Filled(p, Without(f, keys - {key}));
      after == if (key !in before || Missing(before[key])) && !Missing(f[key]) then before[key := f[key]] else before
  {
  }

  /** No such member, or null, or a text of white space only. */
  predicate Blank(t: Value, key: string) {
    match t.Get(key)
    case None => true
    case Some(Null) => true
    case Some(Str(s)) => forall i | 0 <= i < |s| :: IsWhitespace(s[i])
    case _ => false
  }

  lemma BlankIs(t: Value, key: string)
    ensures Blank(t, key) <==> MissingField(t, key)
  {
    if t.GetStr(key).Some? {
      TrimsToNothing(t.GetStr(key).value);
    }
  }

  /** The incoming projection is preferred exactly when it outranks the existing one; every member of the preferred one
      that is not blank stands, and a blank one gives way to the other's if that is not blank. */
  lemma MergedIs(existing: Value, incoming: Value)
    requires existing.Obj? && incoming.Obj?
    ensures Merged(existing, incoming).Obj?
    ensures var p, f := if Outranks(incoming, existing) then incoming else existing,
                        if Outranks(incoming, existing) then existing else incoming;
      forall key :: Merged(existing, incoming).Get(key)
        == if Blank(p, key) && !Blank(f, key) then f.Get(key) else p.Get(key)
  {
    OutranksIs(incoming, existing);
    hide Compare, Outranks;
    var p, f, m := Preferred(existing, incoming), Fallback(existing, incoming), Merged(existing, incoming);
    forall key ensures m.Get(key) == if Blank(p, key) && !Blank(f, key) then f.Get(key) else p.Get(key) {
      BlankIs(p, key);
      BlankIs(f, key);
      hide Missing, Blank;
    }
  }

  /** `merge_thread_projections`: fills a copy of the preferred projection key by key. */
  method MergeThreadProjections(existing: Value, incoming: Value) returns (merged: Value)
    ensures merged == Merged(existing, incoming)
    ensures existing.Obj? && incoming.Obj? ==>
      var p, f := if Outranks(incoming, existing) then incoming else existing,
                  if Outranks(incoming, existing) then existing else incoming;
      merged.Obj? && forall key :: merged.Get(key) == if Blank(p, key) && !Blank(f, key) then f.Get(key) else p.Get(key)
    ensures !(existing.Obj? && incoming.Obj?) ==> merged == if Outranks(incoming, existing) then incoming else existing
  {
    OutranksIs(incoming, existing);
    if existing.Obj? && incoming.Obj? {
      MergedIs(existing, incoming);
    }
    hide Outranks, Compare, Blank;
    var incomingIsPreferred := Compare(incoming, existing).Greater?;
    var preferred, fallback := existing, incoming;
    if incomingIsPreferred {
      preferred, fallback := incoming, existing;
    }
    if !preferred.Obj? || !fallback.Obj? {
      return preferred;
    }
    var filled, keys := preferred.fields, fallback.fields.Keys;
    while keys != {}
      invariant keys <= fallback.fields.Keys
      invariant filled == Filled(preferred.fields, Without(fallback.fields, keys))
      decreases keys
    {
      var key :| key in keys;
      var value := fallback.fields[key];
      FillOne(preferred.fields, fallback.fields, keys, key);
      if (key !in filled || Missing(filled[key])) && !Missing(value) {
        filled := filled[key := value];
      }
      keys := keys - {key};
    }
    assert Without(fallback.fields, {}) == fallback.fields;
    return Obj(filled);
  }

  // ---------------------------------------------------------------- the list and its index

  datatype Acc = Acc(threads: seq<Value>, index: map<string, nat>)

  predicate InRange(acc: Acc) {
    forall id | id in acc.index :: acc.index[id] < |acc.threads|
  }

  function Add(acc: Acc, t: Value): (r: Acc)
    requires InRange(acc)
    ensures InRange(r)
  {
    match LogicalId(t)
    case None => acc.(threads := acc.threads + [t])
    case Some(id) =>
      if id in acc.index then
        acc.(threads := acc.threads[acc.index[id] := Merged(acc.threads[acc.index[id]], t)])
      else Acc(acc.threads + [t], acc.index[id := |acc.threads|])
  }

  function AddAll(acc: Acc, incoming: seq<Value>): (r: Acc)
    requires InRange(acc)
    ensures InRange(r)
    decreases incoming
  {
    if incoming == [] then acc
    else Add(AddAll(acc, incoming[..|incoming| - 1]), incoming[|incoming| - 1])
  }

  /** `merge_unique_threads`, with the vector and the hash map it updates. */
  method MergeUniqueThreads(threads: seq<Value>, index: map<string, nat>, incoming: seq<Value>)
    returns (threads': seq<Value>, index': map<string, nat>)
    requires InRange(Acc(threads, index))
    ensures Acc(threads', index') == AddAll(Acc(threads, index), incoming)
  {
    threads', index' := threads, index;
    for i := 0 to |incoming|
      invariant Acc(threads', index') == AddAll(Acc(threads, index), incoming[..i])
    {
      assert incoming[..i + 1][..i] == incoming[..i];
      var thread := incoming[i];
      var id := LogicalId(thread);
      if id.None? {
        threads' := threads' + [thread];
      } else if id.value in index' {
        var at := index'[id.value];
        var merged := MergeThreadProjections(threads'[at], thread);
        threads' := threads'[at := merged];
      } else {
        index' := index'[id.value := |threads'|];
        threads' := threads' + [thread];
      }
    }
    assert incoming[..|incoming|] == incoming;
  }

  lemma {:induction false} AddAllConcat(acc: Acc, a: seq<Value>, b: seq<Value>)
    requires InRange(acc)
    ensures AddAll(acc, a + b) == AddAll(AddAll(acc, a), b)
    decreases |b|
  {
    if b == [] {
      assert a + b == a;
    } else {
      assert (a + b)[..|a + b| - 1] == a + b[..|b| - 1];
      AddAllConcat(acc, a, b[..|b| - 1]);
    }
  }

  const NOTHING := Acc([], map[])

  // ---------------------------------------------------------------- the reference: group, then fold

  function Same(items: seq<Value>, id: string): seq<Value> {
    if items == [] then []
    else if LogicalId(items[0]) == Some(id) then [items[0]] + Same(items[1..], id)
    else Same(items[1..], id)
  }

  function Others(items: seq<Value>, id: string): (r: seq<Value>)
    ensures |r| <= |items|
  {
    if items == [] then []
    else if LogicalId(items[0]) == Some(id) then Others(items[1..], id)
    else [items[0]] + Others(items[1..], id)
  }

  function MergeFold(first: Value, rest: seq<Value>): Value {
    if rest == [] then first else Merged(MergeFold(first, rest[..|rest| - 1]), rest[|rest| - 1])
  }

  /** Items in order of first occurrence, each merged with all later items of the same logical id. */
  function Dedup(items: seq<Value>): (r: seq<Value>)
    ensures |r| <= |items|
    decreases |items|
  {
    if items == [] then []
    else match LogicalId(items[0])
    case None => [items[0]] + Dedup(items[1..])
    case Some(id) => [MergeFold(items[0], Same(items[1..], id))] + Dedup(Others(items[1..], id))
  }

  predicate Occurs(items: seq<Value>, id: string) {
    items != [] && (LogicalId(items[0]) == Some(id) || Occurs(items[1..], id))
  }

  /** Where in `Dedup(items)` an id is. */
  function Position(items: seq<Value>, id: string): nat
    decreases |items|
  {
    if items == [] then 0
    else match LogicalId(items[0])
    case None => 1 + Position(items[1..], id)
    case Some(first) => if first == id then 0 else 1 + Position(Others(items[1..], first), id)
  }

  lemma {:induction false} SameSnoc(items: seq<Value>, x: Value, id: string)
    ensures Same(items + [x], id) == if LogicalId(x) == Some(id) then Same(items, id) + [x] else Same(items, id)
  {
    if items == [] {
      assert items + [x] == [x];
    } else {
      assert (items + [x])[1..] == items[1..] + [x];
      SameSnoc(items[1..], x, id);
    }
  }

  lemma {:induction false} OthersSnoc(items: seq<Value>, x: Value, id: string)
    ensures Others(items + [x], id) == if LogicalId(x) == Some(id) then Others(items, id) else Others(items, id) + [x]
  {
    if items == [] {
      assert items + [x] == [x];
    } else {
      assert (items + [x])[1..] == items[1..] + [x];
      OthersSnoc(items[1..], x, id);
    }
  }

  lemma {:induction false} OccursInOthers(items: seq<Value>, id: string, other: string)
    requires id != other
    ensures Occurs(Others(items, other), id) <==> Occurs(items, id)
  {
    if items != [] {
      OccursInOthers(items[1..], id, other);
      var tail := Others(items[1..], other);
      assert ([items[0]] + tail)[1..] == tail;
    }
  }

  /** One more item merges into its group's place, or opens a new place at the end. */
  predicate Snoc(items: seq<Value>, x: Value) {
    var id := LogicalId(x);
    var place := if id.None? || !Occurs(items, id.value) then None else Some(Position(items, id.value));
    Placed(Dedup(items), Dedup(items + [x]), place, x)
  }

  predicate Placed(before: seq<Value>, after: seq<Value>, place: Option<nat>, x: Value) {
    match place
    case None => after == before + [x]
    case Some(at) => at < |before| && after == before[at := Merged(before[at], x)]
  }

  lemma FoldSnoc(first: Value, rest: seq<Value>, x: Value)
    ensures MergeFold(first, rest + [x]) == Merged(MergeFold(first, rest), x)
  {
    assert (rest + [x])[..|rest|] == rest;
  }

  lemma DedupFirst(items: seq<Value>, x: Value)
    requires items != [] && LogicalId(items[0]).Some? && LogicalId(x) == LogicalId(items[0])
    ensures var tail, id := items[1..], LogicalId(x).value;
      Dedup(items + [x])
        == [Merged(MergeFold(items[0], Same(tail, id)), x)] + Dedup(Others(tail, id))
  {
    var tail, id := items[1..], LogicalId(x).value;
    assert (items + [x])[1..] == tail + [x] && (items + [x])[0] == items[0];
    SameSnoc(tail, x, id);
    OthersSnoc(tail, x, id);
    FoldSnoc(items[0], Same(tail, id), x);
  }

  lemma SnocFirst(items: seq<Value>, x: Value)
    requires items != [] && LogicalId(items[0]).Some? && LogicalId(x) == LogicalId(items[0])
    ensures Snoc(items, x)
  {
    var id := LogicalId(x).value;
    var fold, rest := MergeFold(items[0], Same(items[1..], id)), Dedup(Others(items[1..], id));
    DedupFirst(items, x);
    PlacedFirst(fold, rest, x);
    assert Dedup(items) == [fold] + rest;
  }

  lemma PlacedFirst(first: Value, rest: seq<Value>, x: Value)
    ensures Placed([first] + rest, [Merged(first, x)] + rest, Some(0), x)
  {
  }

  lemma PlacedLater(first: Value, before: seq<Value>, after: seq<Value>, place: Option<nat>, x: Value)
    requires Placed(before, after, place, x)
    ensures Placed([first] + before, [first] + after, if place.Some? then Some(1 + place.value) else None, x)
  {
  }

  lemma SnocLater(items: seq<Value>, x: Value)
    requires items != [] && LogicalId(items[0]).Some? && LogicalId(x) != LogicalId(items[0])
    requires Snoc(Others(items[1..], LogicalId(items[0]).value), x)
    ensures Snoc(items, x)
  {
    var first, id := LogicalId(items[0]).value, LogicalId(x);
    var others, fold := Others(items[1..], first), MergeFold(items[0], Same(items[1..], first));
    SnocHead(items, x);
    if id.Some? {
      OccursInOthers(items[1..], id.value, first);
    }
    PlacedLater(fold, Dedup(others), Dedup(others + [x]),
      if id.None? || !Occurs(others, id.value) then None else Some(Position(others, id.value)), x);
  }

  lemma SnocHead(items: seq<Value>, x: Value)
    requires items != [] && LogicalId(items[0]).Some? && LogicalId(x) != LogicalId(items[0])
    ensures var first := LogicalId(items[0]).value;
      Dedup(items + [x]) == [MergeFold(items[0], Same(items[1..], first))] + Dedup(Others(items[1..], first) + [x])
  {
    var tail, first := items[1..], LogicalId(items[0]).value;
    assert (items + [x])[1..] == tail + [x] && (items + [x])[0] == items[0];
    SameSnoc(tail, x, first);
    OthersSnoc(tail, x, first);
  }

  lemma SnocAlone(x: Value)
    ensures Snoc([], x)
  {
    assert [] + [x] == [x];
    assert Others([], if LogicalId(x).Some? then LogicalId(x).value else "") == [];
  }

  lemma SnocPast(items: seq<Value>, x: Value)
    requires items != [] && LogicalId(items[0]).None? && Snoc(items[1..], x)
    ensures Snoc(items, x)
  {
    var tail, id := items[1..], LogicalId(x);
    PastHead(items, x);
    PlacedLater(items[0], Dedup(tail), Dedup(tail + [x]),
      if id.None? || !Occurs(tail, id.value) then None else Some(Position(tail, id.value)), x);
    hide Dedup, LogicalId, Placed;
  }

  /** An item without an id keeps its place and changes nothing behind it. */
  lemma PastHead(items: seq<Value>, x: Value)
    requires items != [] && LogicalId(items[0]).None?
    ensures Dedup(items) == [items[0]] + Dedup(items[1..]) && Dedup(items + [x]) == [items[0]] + Dedup(items[1..] + [x])
    ensures forall id :: Occurs(items, id) <==> Occurs(items[1..], id)
    ensures forall id | Occurs(items, id) :: Position(items, id) == 1 + Position(items[1..], id)
  {
    assert (items + [x])[1..] == items[1..] + [x];
  }

  lemma {:induction false} DedupSnoc(items: seq<Value>, x: Value)
    ensures Snoc(items, x)
    decreases |items|
  {
    hide Snoc;
    if items == [] {
      SnocAlone(x);
    } else {
      match LogicalId(items[0])
      case None =>
        DedupSnoc(items[1..], x);
        SnocPast(items, x);
      case Some(first) =>
        if LogicalId(x) == Some(first) {
          SnocFirst(items, x);
        } else {
          DedupSnoc(Others(items[1..], first), x);
          SnocLater(items, x);
        }
    }
  }

  lemma {:induction false} PositionSnoc(items: seq<Value>, x: Value, id: string)
    ensures Occurs(items, id) ==> Position(items + [x], id) == Position(items, id)
    ensures !Occurs(items, id) && LogicalId(x) == Some(id) ==> Position(items + [x], id) == |Dedup(items)|
    decreases |items|
  {
    if items == [] {
      assert items + [x] == [x];
    } else {
      var all, tail := items + [x], items[1..];
      assert all[1..] == tail + [x] && all[0] == items[0];
      match LogicalId(items[0])
      case None => PositionSnoc(tail, x, id);
      case Some(first) =>
        if first != id {
          OthersSnoc(tail, x, first);
          OccursInOthers(tail, id, first);
          PositionSnoc(Others(tail, first), x, id);
        }
    }
  }

  lemma {:induction false} OccursSnoc(items: seq<Value>, x: Value, id: string)
    ensures Occurs(items + [x], id) <==> Occurs(items, id) || LogicalId(x) == Some(id)
  {
    if items == [] {
      assert items + [x] == [x];
    } else {
      assert (items + [x])[1..] == items[1..] + [x];
      OccursSnoc(items[1..], x, id);
    }
  }

  /** The list and index that in-place merging builds are the groups in order of first occurrence, each
      folded, and the index holds exactly the ids seen, each at its group. */
  lemma {:induction false} MergingIsGrouping(items: seq<Value>)
    ensures AddAll(NOTHING, items).threads == Dedup(items)
    ensures forall id :: id in AddAll(NOTHING, items).index <==> Occurs(items, id)
    ensures forall id | id in AddAll(NOTHING, items).index :: AddAll(NOTHING, items).index[id] == Position(items, id)
    decreases items
  {
    if items != [] {
      var front, x := items[..|items| - 1], items[|items| - 1];
      assert items == front + [x];
      MergingIsGrouping(front);
      DedupSnoc(front, x);
      forall id ensures id in AddAll(NOTHING, items).index <==> Occurs(items, id) {
        OccursSnoc(front, x, id);
      }
      forall id | id in AddAll(NOTHING, items).index
        ensures AddAll(NOTHING, items).index[id] == Position(items, id)
      {
        OccursSnoc(front, x, id);
        PositionSnoc(front, x, id);
      }
    }
  }
}
