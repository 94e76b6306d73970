/** Does the index still name the thread it points at after its projection was merged in place? */
module ThreadIdentity {
  import opened Json
  import opened Text
  import opened Threads

  predicate StringNullOrAbsent(t: Value, key: string) {
    t.Get(key).None? || t.Get(key).value.Null? || t.Get(key).value.Str?
  }

  /** The three id members are each a string, null or absent. */
  predicate PlainIds(t: Value) {
    StringNullOrAbsent(t, "threadId") && StringNullOrAbsent(t, "sessionId") && StringNullOrAbsent(t, "id")
  }

  /** The preferred projection's `threadId` is some other kind of value, so it blocks the fallback's, while the
      fallback's `sessionId`, naming something else, slips into its empty place. */
  predicate Shadowed(preferred: Value, fallback: Value) {
    && preferred.Get("threadId").Some? && !StringNullOrAbsent(preferred, "threadId")
    && MissingField(preferred, "sessionId")
    && fallback.GetStr("threadId").Some?
    && fallback.GetStr("sessionId").Some? && !Missing(fallback.Get("sessionId").value)
    && Trim(fallback.GetStr("sessionId").value) != Trim(fallback.GetStr("threadId").value)
  }

  lemma FilledGet(p: Fields, f: Fields, key: string)
    ensures Obj(Filled(p, f)).Get(key) ==
      if MissingField(Obj(p), key) && !MissingField(Obj(f), key) then Obj(f).Get(key) else Obj(p).Get(key)
  {
  }

  lemma FilledKeepsId(p: Value, f: Value)
    requires LogicalId(p).Some? && LogicalId(f) == LogicalId(p)
    ensures LogicalId(Obj(Filled(p.fields, f.fields))) == LogicalId(p) <==> !Shadowed(p, f)
  {
    FilledGet(p.fields, f.fields, "threadId");
    FilledGet(p.fields, f.fields, "sessionId");
    FilledGet(p.fields, f.fields, "id");
  }

  /** Merging two projections of one thread keeps its logical id, except in exactly the shadowed case. */
  lemma {:induction false} MergeKeepsId(existing: Value, incoming: Value)
    requires LogicalId(existing).Some? && LogicalId(incoming) == LogicalId(existing)
    ensures LogicalId(Merged(existing, incoming)) == LogicalId(existing)
      <==> !Shadowed(Preferred(existing, incoming), Fallback(existing, incoming))
  {
    FilledKeepsId(Preferred(existing, incoming), Fallback(existing, incoming));
  }

  const NUMERIC: Value := Obj(map["threadId" := Num(Int(7)), "id" := Str("x")])
  const NAMED: Value := Obj(map["threadId" := Str("x"), "sessionId" := Str("y")])

  lemma SameExampleId()
    ensures LogicalId(NUMERIC) == LogicalId(NAMED) == Some("x")
  {
    assert Trim("x") == "x";
  }

  lemma ExampleShadowed()
    ensures Shadowed(NUMERIC, NAMED)
  {
    assert Trim("x") == "x" && Trim("y") == "y";
  }

  lemma ExamplePreferred()
    ensures Preferred(NUMERIC, NAMED) == NUMERIC && Fallback(NUMERIC, NAMED) == NAMED
  {
    NoTimestamp(NUMERIC, 0);
    NoTimestamp(NAMED, 0);
    assert !IsLive(NUMERIC) && !IsLive(NAMED);
  }

  /** The failing case is real: a numeric `threadId`. */
  lemma {:induction false} NumericThreadIdLosesIdentity()
    ensures LogicalId(NUMERIC) == LogicalId(NAMED) == Some("x") && LogicalId(Merged(NUMERIC, NAMED)) != Some("x")
  {
    SameExampleId();
    ExampleShadowed();
    ExamplePreferred();
    hide Merged, Preferred, Fallback, Shadowed, LogicalId;
    MergeKeepsId(NUMERIC, NAMED);
  }

  lemma {:induction false} NoTimestamp(t: Value, from: nat)
    requires forall k | k in TIMESTAMP_KEYS :: t.Get(k).None?
    ensures Timestamp(t, from).None?
    decreases |TIMESTAMP_KEYS| - from
  {
    if from < |TIMESTAMP_KEYS| {
      assert TIMESTAMP_KEYS[from] in TIMESTAMP_KEYS;
      NoTimestamp(t, from + 1);
    }
  }

  lemma MergeKeepsPlainIds(existing: Value, incoming: Value)
    requires PlainIds(existing) && PlainIds(incoming)
    ensures PlainIds(Merged(existing, incoming))
    ensures !Shadowed(Preferred(existing, incoming), Fallback(existing, incoming))
  {
    var p, f := Preferred(existing, incoming), Fallback(existing, incoming);
    if p.Obj? && f.Obj? {
      FilledGet(p.fields, f.fields, "threadId");
      FilledGet(p.fields, f.fields, "sessionId");
      FilledGet(p.fields, f.fields, "id");
    }
  }

  // ---------------------------------------------------------------- the index

  /** The index and the list name each other: every indexed id is that of the record at its position, every
      record with an id is at that id's position, so no two records share one. */
  ghost predicate Agree(acc: Acc) {
    && InRange(acc)
    && (forall id | id in acc.index :: LogicalId(acc.threads[acc.index[id]]) == Some(id))
    && (forall p | 0 <= p < |acc.threads| && LogicalId(acc.threads[p]).Some? ::
          LogicalId(acc.threads[p]).value in acc.index && acc.index[LogicalId(acc.threads[p]).value] == p)
  }

  ghost predicate AllPlain(items: seq<Value>) {
    forall i | 0 <= i < |items| :: PlainIds(items[i])
  }

  /** Merging `t` into the record its id names would take that id away from the record. */
  predicate Displaces(acc: Acc, t: Value)
    requires InRange(acc)
  {
    var id := LogicalId(t);
    && id.Some? && id.value in acc.index
    && var kept := acc.threads[acc.index[id.value]];
       Shadowed(Preferred(kept, t), Fallback(kept, t))
  }

  /** Index and list still agree after one more record exactly when it displaces none. */
  lemma AddAgrees(acc: Acc, t: Value)
    requires Agree(acc)
    ensures Agree(Add(acc, t)) <==> !Displaces(acc, t)
  {
    hide Shadowed, Merged, Preferred, Fallback, LogicalId;
    var id := LogicalId(t);
    if id.Some? && id.value in acc.index {
      var at := acc.index[id.value];
      MergeKeepsId(acc.threads[at], t);
      assert Add(acc, t).threads[at] == Merged(acc.threads[at], t);
    }
  }

  /** After the first `n` records of a list. */
  function Upto(acc: Acc, incoming: seq<Value>, n: nat): (r: Acc)
    requires InRange(acc) && n <= |incoming|
    ensures InRange(r)
  {
    AddAll(acc, incoming[..n])
  }

  lemma UptoNext(acc: Acc, incoming: seq<Value>, n: nat)
    requires InRange(acc) && n < |incoming|
    ensures Upto(acc, incoming, n + 1) == Add(Upto(acc, incoming, n), incoming[n])
  {
    assert incoming[..n + 1][..n] == incoming[..n];
  }

  lemma OneMore(acc: Acc, incoming: seq<Value>, n: nat)
    requires InRange(acc) && n < |incoming| && Agree(Upto(acc, incoming, n))
    ensures Agree(Upto(acc, incoming, n + 1)) <==> !Displaces(Upto(acc, incoming, n), incoming[n])
  {
    UptoNext(acc, incoming, n);
    AddAgrees(Upto(acc, incoming, n), incoming[n]);
  }

  lemma {:induction false} AgreeUpto(acc: Acc, incoming: seq<Value>, n: nat)
    requires Agree(acc) && n <= |incoming|
    requires forall m | 0 <= m < n :: !Displaces(Upto(acc, incoming, m), incoming[m])
    ensures Agree(Upto(acc, incoming, n))
  {
    if n > 0 {
      AgreeUpto(acc, incoming, n - 1);
      OneMore(acc, incoming, n - 1);
    }
  }

  /** Index and list agree all along the merges of a list exactly when no record displaces another. */
  lemma {:induction false} IndexAgrees(acc: Acc, incoming: seq<Value>)
    requires Agree(acc)
    ensures (forall n | 0 <= n <= |incoming| :: Agree(Upto(acc, incoming, n)))
       <==> (forall n | 0 <= n < |incoming| :: !Displaces(Upto(acc, incoming, n), incoming[n]))
  {
    assert InRange(acc);
    hide Agree, Displaces, Upto;
    if forall n | 0 <= n <= |incoming| :: Agree(Upto(acc, incoming, n)) {
      forall n | 0 <= n < |incoming| ensures !Displaces(Upto(acc, incoming, n), incoming[n]) {
        OneMore(acc, incoming, n);
      }
    }
    if forall n | 0 <= n < |incoming| :: !Displaces(Upto(acc, incoming, n), incoming[n]) {
      forall n | 0 <= n <= |incoming| ensures Agree(Upto(acc, incoming, n)) {
        AgreeUpto(acc, incoming, n);
      }
    }
  }

  lemma PlainNeverDisplaces(acc: Acc, t: Value)
    requires Agree(acc) && AllPlain(acc.threads) && PlainIds(t)
    ensures !Displaces(acc, t) && Agree(Add(acc, t)) && AllPlain(Add(acc, t).threads)
  {
    var id := LogicalId(t);
    if id.Some? && id.value in acc.index {
      MergeKeepsPlainIds(acc.threads[acc.index[id.value]], t);
    }
    AddAgrees(acc, t);
  }

  /** So with plain id members throughout, they always agree. */
  lemma {:induction false} PlainIndexAgrees(acc: Acc, incoming: seq<Value>)
    requires Agree(acc) && AllPlain(acc.threads) && AllPlain(incoming)
    ensures Agree(AddAll(acc, incoming)) && AllPlain(AddAll(acc, incoming).threads)
    decreases incoming
  {
    if incoming != [] {
      PlainIndexAgrees(acc, incoming[..|incoming| - 1]);
      PlainNeverDisplaces(AddAll(acc, incoming[..|incoming| - 1]), incoming[|incoming| - 1]);
    }
  }

  // ---------------------------------------------------------------- order

  function Ids(items: seq<Value>): (r: seq<Option<string>>)
    ensures |r| == |items| && forall i | 0 <= i < |r| :: r[i] == LogicalId(items[i])
  {
    seq(|items|, i requires 0 <= i < |items| => LogicalId(items[i]))
  }

  /** The first occurrence of each id, and every None. */
  function Firsts(ids: seq<Option<string>>): seq<Option<string>> {
    if ids == [] then []
    else
      var front, last := ids[..|ids| - 1], ids[|ids| - 1];
      if last.Some? && last in front then Firsts(front) else Firsts(front) + [last]
  }

  lemma {:induction false} SomeInFirsts(ids: seq<Option<string>>, id: Option<string>)
    ensures id in Firsts(ids) <==> id in ids
  {
    if ids != [] {
      var front := ids[..|ids| - 1];
      assert ids == front + [ids[|ids| - 1]];
      SomeInFirsts(front, id);
    }
  }

  /** The ids after one more record, if none loses its own. */
  function WithId(before: seq<Option<string>>, id: Option<string>): seq<Option<string>> {
    if id.Some? && id in before then before else before + [id]
  }

  /** One more record leaves the ids as they should be exactly unless it displaces another. */
  lemma AddOrder(acc: Acc, t: Value)
    requires Agree(acc)
    ensures Ids(Add(acc, t).threads) == WithId(Ids(acc.threads), LogicalId(t)) <==> !Displaces(acc, t)
  {
    var id := LogicalId(t);
    if id.Some? && id.value in acc.index {
      var at := acc.index[id.value];
      assert Ids(acc.threads)[at] == id;
      MergeKeepsId(acc.threads[at], t);
      assert Ids(Add(acc, t).threads)[at] == LogicalId(Merged(acc.threads[at], t));
      hide Merged, Shadowed, LogicalId;
    } else {
      assert id.Some? ==> id !in Ids(acc.threads);
    }
  }

  /** The ids of the first `n` records' list are their first occurrences, in order. */
  ghost predicate InOrder(incoming: seq<Value>, n: nat)
    requires n <= |incoming|
  {
    Ids(Upto(NOTHING, incoming, n).threads) == Firsts(Ids(incoming[..n]))
  }

  /** While they are, they stay so exactly unless the next record displaces another. */
  lemma OrderOn(incoming: seq<Value>, n: nat)
    requires n < |incoming| && InOrder(incoming, n) && Agree(Upto(NOTHING, incoming, n))
    ensures InOrder(incoming, n + 1) <==> !Displaces(Upto(NOTHING, incoming, n), incoming[n])
  {
    hide Ids, Displaces, Agree, Add, LogicalId, Upto, Firsts;
    UptoNext(NOTHING, incoming, n);
    AddOrder(Upto(NOTHING, incoming, n), incoming[n]);
    OrderStep(incoming[..n], incoming[n]);
    assert incoming[..n + 1] == incoming[..n] + [incoming[n]];
  }

  lemma OrderStep(front: seq<Value>, last: Value)
    ensures Firsts(Ids(front + [last])) == WithId(Firsts(Ids(front)), LogicalId(last))
  {
    var ids := Ids(front + [last]);
    assert ids == Ids(front) + [LogicalId(last)];
    assert ids[..|ids| - 1] == Ids(front);
    SomeInFirsts(Ids(front), LogicalId(last));
  }

  lemma NothingYet(incoming: seq<Value>)
    ensures InOrder(incoming, 0) && Agree(Upto(NOTHING, incoming, 0))
  {
    assert incoming[..0] == [];
  }

  lemma {:induction false} OrderUpto(incoming: seq<Value>, n: nat)
    requires n <= |incoming|
    requires forall m | 0 <= m < n :: !Displaces(Upto(NOTHING, incoming, m), incoming[m])
    ensures InOrder(incoming, n) && Agree(Upto(NOTHING, incoming, n))
  {
    hide InOrder, Displaces, Upto;
    NothingYet(incoming);
    if n > 0 {
      OrderUpto(incoming, n - 1);
      OrderOn(incoming, n - 1);
      OneMore(NOTHING, incoming, n - 1);
    }
  }

  lemma {:induction false} NoneDisplaced(incoming: seq<Value>, n: nat)
    requires n <= |incoming|
    requires forall m | 0 <= m <= |incoming| :: InOrder(incoming, m)
    ensures forall m | 0 <= m < n :: !Displaces(Upto(NOTHING, incoming, m), incoming[m])
  {
    hide InOrder, Displaces, Upto;
    if n > 0 {
      NoneDisplaced(incoming, n - 1);
      OrderUpto(incoming, n - 1);
      OrderOn(incoming, n - 1);
    }
  }

  /** All along the merges of a list, the records keep first-occurrence order and none without an id is lost, exactly
      when no record displaces another. */
  lemma {:induction false} OrderKept(incoming: seq<Value>)
    ensures (forall n | 0 <= n <= |incoming| :: InOrder(incoming, n))
       <==> (forall n | 0 <= n < |incoming| :: !Displaces(Upto(NOTHING, incoming, n), incoming[n]))
  {
    hide InOrder, Displaces, Upto;
    if forall n | 0 <= n <= |incoming| :: InOrder(incoming, n) {
      NoneDisplaced(incoming, |incoming|);
    }
    if forall n | 0 <= n < |incoming| :: !Displaces(Upto(NOTHING, incoming, n), incoming[n]) {
      forall n | 0 <= n <= |incoming| ensures InOrder(incoming, n) {
        OrderUpto(incoming, n);
      }
    }
  }

  /** With plain id members throughout, the ids shown are the first occurrences, in order. */
  lemma PlainOrder(items: seq<Value>)
    requires AllPlain(items)
    ensures Ids(Dedup(items)) == Firsts(Ids(items))
  {
    forall m | 0 <= m < |items| ensures !Displaces(Upto(NOTHING, items, m), items[m]) {
      PlainIndexAgrees(NOTHING, items[..m]);
      PlainNeverDisplaces(Upto(NOTHING, items, m), items[m]);
    }
    hide Displaces, Agree, Ids;
    OrderUpto(items, |items|);
    assert items[..|items|] == items;
    MergingIsGrouping(items);
    hide Dedup, AddAll;
  }

  lemma {:induction false} FirstsDistinct(ids: seq<Option<string>>)
    ensures forall g, h | 0 <= g < h < |Firsts(ids)| && Firsts(ids)[g].Some? :: Firsts(ids)[g] != Firsts(ids)[h]
  {
    if ids != [] {
      var front := ids[..|ids| - 1];
      FirstsDistinct(front);
      SomeInFirsts(front, ids[|ids| - 1]);
    }
  }
}
