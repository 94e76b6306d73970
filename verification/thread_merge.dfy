/** What folding a thread's rollout segments keeps. */
module ThreadMerge {
  import opened Json
  import opened Text
  import opened Threads
  import opened ThreadIdentity

  function Fold(segments: seq<Value>): Value
    requires segments != []
  {
    MergeFold(segments[0], segments[1..])
  }

  lemma FoldLast(segments: seq<Value>)
    requires |segments| > 1
    ensures Fold(segments) == Merged(Fold(segments[..|segments| - 1]), segments[|segments| - 1])
  {
    var n := |segments| - 1;
    assert segments[1..][..n - 1] == segments[..n][1..];
  }

  // ---------------------------------------------------------------- fields

  lemma MergedField(existing: Value, incoming: Value, key: string)
    requires existing.Obj? && incoming.Obj?
    ensures var p, f, m := Preferred(existing, incoming), Fallback(existing, incoming), Merged(existing, incoming);
      m.Obj? && m.Get(key) == if MissingField(p, key) && !MissingField(f, key) then f.Get(key) else p.Get(key)
  {
    FilledGet(Preferred(existing, incoming).fields, Fallback(existing, incoming).fields, key);
  }

  /** No metadata is lost or invented: a member is missing from the fold exactly when every segment misses it,
      and whatever value it has, some segment has. */
  lemma {:induction false} FoldLosesNothing(segments: seq<Value>, key: string)
    requires segments != [] && forall i | 0 <= i < |segments| :: segments[i].Obj?
    ensures Fold(segments).Obj?
    ensures MissingField(Fold(segments), key) <==> forall i | 0 <= i < |segments| :: MissingField(segments[i], key)
    ensures Fold(segments).Get(key).Some? ==>
      exists i | 0 <= i < |segments| :: segments[i].Get(key) == Fold(segments).Get(key)
    decreases |segments|
  {
    if |segments| > 1 {
      var front, last := segments[..|segments| - 1], segments[|segments| - 1];
      FoldLosesNothing(front, key);
      FoldLast(segments);
      MergedField(Fold(front), last, key);
      hide MissingField, Merged, Preferred, Fallback;
      if Fold(segments).Get(key).Some? && Fold(segments).Get(key) != last.Get(key) {
        var i :| 0 <= i < |front| && front[i].Get(key) == Fold(front).Get(key);
        assert segments[i] == front[i];
      }
    }
  }

  // ---------------------------------------------------------------- liveness

  predicate NoAvailability(t: Value) {
    t.Get("runtimeStatusAvailability").None?
  }

  /** A status that is only white space counts as live when compared, yet as missing when filled. */
  predicate BlankStatus(t: Value) {
    t.GetStr("status").Some? && t.GetStr("status").value != "" && Trim(t.GetStr("status").value) == ""
  }

  lemma {:induction false} TrimEmpty(s: string)
    ensures s == "" ==> Trim(s) == ""
    ensures s == "notLoaded" ==> Trim(s) == s
  {
    if s == "notLoaded" {
      assert s[|s| - 1] == 'd';
    }
  }

  /** A merge is as live as the projection it preferred, unless a blank status was overwritten. */
  lemma {:induction false} MergeKeepsLiveness(existing: Value, incoming: Value)
    requires existing.Obj? && incoming.Obj? && NoAvailability(existing) && NoAvailability(incoming)
    ensures var p, f := Preferred(existing, incoming), Fallback(existing, incoming);
      IsLive(Merged(existing, incoming)) == IsLive(p)
      <==> !(BlankStatus(p) && !MissingField(f, "status") && !IsLive(f))
  {
    var p, f, m := Preferred(existing, incoming), Fallback(existing, incoming), Merged(existing, incoming);
    MergedField(existing, incoming, "status");
    MergedField(existing, incoming, "runtimeStatusAvailability");
    if p.GetStr("status").Some? {
      TrimEmpty(p.GetStr("status").value);
    }
  }

  // ---------------------------------------------------------------- rank

  /** Segments of one thread as the app-server lists them: one timestamp, under one key, a number or a string. */
  predicate Timed(t: Value, key: string) {
    && t.Obj? && NoAvailability(t)
    && key in TIMESTAMP_KEYS && key in t.fields && (t.fields[key].Num? || t.fields[key].Str?)
    && forall k | k in TIMESTAMP_KEYS && k != key :: k !in t.fields
  }

  predicate SameKind(a: Value, b: Value, key: string)
    requires Timed(a, key) && Timed(b, key)
  {
    a.fields[key].Num? <==> b.fields[key].Num?
  }

  lemma {:induction false} TimestampIs(t: Value, key: string, from: nat)
    requires Timed(t, key) && key in TIMESTAMP_KEYS[(if from < |TIMESTAMP_KEYS| then from else |TIMESTAMP_KEYS|)..]
    ensures Timestamp(t, from) == Some(t.fields[key])
    decreases |TIMESTAMP_KEYS| - from
  {
    assert from < |TIMESTAMP_KEYS|;
    if TIMESTAMP_KEYS[from] != key {
      assert TIMESTAMP_KEYS[from] in TIMESTAMP_KEYS;
      assert TIMESTAMP_KEYS[from..] == [TIMESTAMP_KEYS[from]] + TIMESTAMP_KEYS[from + 1..];
      TimestampIs(t, key, from + 1);
    }
  }

  lemma RankOf(t: Value, key: string)
    requires Timed(t, key)
    ensures Timestamp(t) == Some(t.fields[key])
  {
    assert TIMESTAMP_KEYS[0..] == TIMESTAMP_KEYS;
    TimestampIs(t, key, 0);
  }

  /** Equal in both parts of the rank. */
  predicate SameRank(a: Value, b: Value, key: string)
    requires Timed(a, key) && Timed(b, key)
  {
    IsLive(a) == IsLive(b) && a.fields[key] == b.fields[key]
  }

  /** A part of the rank that counts when `p` is compared is missing when `p` is filled: `f` gives it a status that is
      not live, or its own timestamp for a blank one. */
  predicate Overwritten(p: Value, f: Value, key: string) {
    || (BlankStatus(p) && !MissingField(f, "status") && !IsLive(f))
    || (MissingField(p, key) && !MissingField(f, key))
  }

  /** A merge ranks as the projection it preferred exactly when no blank status and no blank timestamp of it is
      overwritten. */
  lemma MergeKeepsRank(existing: Value, incoming: Value, key: string)
    requires Timed(existing, key) && Timed(incoming, key)
    ensures Timed(Merged(existing, incoming), key)
    ensures SameRank(Merged(existing, incoming), Preferred(existing, incoming), key)
      <==> !Overwritten(Preferred(existing, incoming), Fallback(existing, incoming), key)
  {
    var p, f, m := Preferred(existing, incoming), Fallback(existing, incoming), Merged(existing, incoming);
    MergeKeepsLiveness(existing, incoming);
    MergedField(existing, incoming, key);
    MergedField(existing, incoming, "runtimeStatusAvailability");
    forall k | k in TIMESTAMP_KEYS && k != key ensures k !in m.fields {
      MergedField(existing, incoming, k);
    }
    hide IsLive, BlankStatus;
  }

  lemma CompareByRank(a: Value, b: Value, c: Value, key: string)
    requires Timed(a, key) && Timed(b, key) && Timed(c, key) && SameRank(a, b, key)
    ensures Compare(a, c) == Compare(b, c) && Compare(c, a) == Compare(c, b)
  {
    RankOf(a, key);
    RankOf(b, key);
  }

  lemma CompareSelf(a: Value, key: string)
    requires Timed(a, key)
    ensures Compare(a, a).Equal?
  {
    RankOf(a, key);
  }

  lemma StringsTransitive(s: string, t: string, u: string)
    requires !CompareStrings(s, t).Greater? && CompareStrings(u, t).Greater?
    ensures CompareStrings(s, u).Less?
  {
    LessTotal(s, t);
    LessTotal(t, u);
    if s != t {
      LessTransitive(s, t, u);
    }
    LessTotal(s, u);
  }

  lemma {:induction false} CompareTransitive(a: Value, b: Value, c: Value, key: string)
    requires Timed(a, key) && Timed(b, key) && Timed(c, key) && SameKind(a, b, key) && SameKind(b, c, key)
    ensures !Compare(a, b).Greater? && Compare(c, b).Greater? ==> Compare(a, c).Less?
  {
    RankOf(a, key);
    RankOf(b, key);
    RankOf(c, key);
    if a.fields[key].Str? && !Compare(a, b).Greater? && Compare(c, b).Greater? && IsLive(a) == IsLive(b) == IsLive(c) {
      StringsTransitive(a.fields[key].s, b.fields[key].s, c.fields[key].s);
    }
  }

  ghost predicate AllTimed(segments: seq<Value>, key: string) {
    && (forall i | 0 <= i < |segments| :: Timed(segments[i], key))
    && forall i, j | 0 <= i < |segments| && 0 <= j < |segments| :: SameKind(segments[i], segments[j], key)
  }

  // ---------------------------------------------------------------- the best segment

  /** The earliest of the first `n` segments that no other outranks. */
  function Best(segments: seq<Value>, n: nat): (best: nat)
    requires 0 < n <= |segments|
    ensures best < n
  {
    if n == 1 then 0
    else
      var b := Best(segments, n - 1);
      if Compare(segments[n - 1], segments[b]).Greater? then n - 1 else b
  }

  lemma {:induction false} BestIsEarliest(segments: seq<Value>, n: nat, key: string)
    requires 0 < n <= |segments| && AllTimed(segments, key)
    ensures forall i | 0 <= i < n :: !Compare(segments[i], segments[Best(segments, n)]).Greater?
    ensures forall i | 0 <= i < Best(segments, n) :: Compare(segments[i], segments[Best(segments, n)]).Less?
  {
    hide Compare, Timed;
    CompareSelf(segments[n - 1], key);
    if n > 1 {
      BestIsEarliest(segments, n - 1, key);
      var b := Best(segments, n - 1);
      if Compare(segments[n - 1], segments[b]).Greater? {
        forall i | 0 <= i < n - 1 ensures Compare(segments[i], segments[n - 1]).Less? {
          CompareTransitive(segments[i], segments[b], segments[n - 1], key);
        }
      }
    }
  }

  ghost predicate Survives(best: Value, fold: Value) {
    forall k :: !MissingField(best, k) ==> fold.Get(k) == best.Get(k)
  }

  /** No segment before `n` has a status. */
  predicate NoStatus(segments: seq<Value>, n: nat)
    requires n <= |segments|
  {
    forall i | 0 <= i < n :: MissingField(segments[i], "status")
  }

  /** The fold of the first `n` segments ranks as the best of them. */
  ghost predicate RanksBest(segments: seq<Value>, n: nat, key: string)
    requires 0 < n <= |segments| && AllTimed(segments, key)
  {
    Timed(Fold(segments[..n]), key) && SameRank(Fold(segments[..n]), segments[Best(segments, n)], key)
  }

  /** `fold` ranks as `best`, has its members, and its status while there is none to have. */
  ghost predicate Leads(best: Value, fold: Value, key: string, none: bool) {
    && Timed(best, key) && Timed(fold, key) && SameRank(fold, best, key) && Survives(best, fold)
    && (MissingField(fold, "status") <==> none)
    && (none ==> fold.Get("status") == best.Get("status"))
  }

  ghost predicate Tracks(segments: seq<Value>, n: nat, key: string)
    requires 0 < n <= |segments|
  {
    Leads(segments[Best(segments, n)], Fold(segments[..n]), key, NoStatus(segments, n))
  }

  /** `last` spoils the rank: it takes the lead with a blank status that an earlier status, not live, fills, or with a
      blank timestamp from a leader whose own is not; or it fills those of the leader. */
  predicate Spoiling(best: Value, last: Value, key: string, none: bool) {
    if Compare(last, best).Greater? then
      || (BlankStatus(last) && !none && !IsLive(best))
      || (MissingField(last, key) && !MissingField(best, key))
    else
      || (BlankStatus(best) && none && !MissingField(last, "status") && !IsLive(last))
      || (MissingField(best, key) && !MissingField(last, key))
  }

  /** Segment `n` spoils the rank of the best before it. */
  predicate Spoils(segments: seq<Value>, n: nat, key: string)
    requires 0 < n < |segments|
  {
    Spoiling(segments[Best(segments, n)], segments[n], key, NoStatus(segments, n))
  }

  lemma MergeSurvives(existing: Value, incoming: Value)
    requires existing.Obj? && incoming.Obj?
    ensures Survives(Preferred(existing, incoming), Merged(existing, incoming))
  {
    forall k | !MissingField(Preferred(existing, incoming), k)
      ensures Merged(existing, incoming).Get(k) == Preferred(existing, incoming).Get(k)
    {
      MergedField(existing, incoming, k);
    }
  }

  /** A blank status is a missing one. */
  lemma BlankIsMissing(t: Value)
    ensures BlankStatus(t) ==> MissingField(t, "status")
  {
  }

  /** Whether the next merge overwrites what it prefers can be told without the fold. */
  lemma SpoilsIsOverwritten(best: Value, fold: Value, last: Value, key: string, none: bool)
    requires Leads(best, fold, key, none) && Timed(last, key)
    ensures Compare(last, fold) == Compare(last, best)
    ensures Spoiling(best, last, key, none) <==> Overwritten(Preferred(fold, last), Fallback(fold, last), key)
  {
    CompareByRank(fold, best, last, key);
    BlankIsMissing(fold);
    BlankIsMissing(best);
    assert MissingField(fold, key) == MissingField(best, key);
    if none {
      assert BlankStatus(fold) == BlankStatus(best);
    }
    hide Compare, IsLive, BlankStatus, MissingField, Survives, Timed;
  }

  /** The next merge ranks as the next leader exactly when its last segment does not spoil the rank, and then it has
      that leader's members too. */
  lemma NextLeads(best: Value, fold: Value, last: Value, key: string, none: bool)
    requires Leads(best, fold, key, none) && Timed(last, key)
    ensures var leader, next := if Compare(last, best).Greater? then last else best, Merged(fold, last);
      && Timed(next, key)
      && (SameRank(next, leader, key) <==> !Spoiling(best, last, key, none))
      && (Leads(leader, next, key, none && MissingField(last, "status")) <==> !Spoiling(best, last, key, none))
  {
    SpoilsIsOverwritten(best, fold, last, key, none);
    hide Compare, IsLive, Spoiling, Overwritten, BlankStatus, Survives;
    MergeKeepsRank(fold, last, key);
    MergedField(fold, last, "status");
    assert fold.Obj? && last.Obj?;
    hide Timed, Merged, MissingField;
    MergeSurvives(fold, last);
    LeaderSurvives(best, fold, last);
  }

  lemma FoldNext(segments: seq<Value>, n: nat)
    requires 0 < n < |segments|
    ensures Fold(segments[..n + 1]) == Merged(Fold(segments[..n]), segments[n])
  {
    hide Merged;
    assert segments[..n + 1][..n] == segments[..n];
    FoldLast(segments[..n + 1]);
    hide Fold;
  }

  lemma TracksOn(segments: seq<Value>, n: nat, key: string)
    requires 0 < n < |segments| && AllTimed(segments, key) && Tracks(segments, n, key)
    ensures Tracks(segments, n + 1, key) <==> !Spoils(segments, n, key)
    ensures RanksBest(segments, n + 1, key) <==> !Spoils(segments, n, key)
  {
    var fold, best, last := Fold(segments[..n]), segments[Best(segments, n)], segments[n];
    assert Timed(last, key);
    hide AllTimed, Timed, SameRank, Leads, Spoiling, Compare, Merged, MissingField, Fold;
    FoldNext(segments, n);
    NextLeads(best, fold, last, key, NoStatus(segments, n));
    assert NoStatus(segments, n + 1) == (NoStatus(segments, n) && MissingField(last, "status"));
  }

  lemma LeaderSurvives(best: Value, fold: Value, last: Value)
    requires Survives(best, fold) && fold.Obj? && last.Obj?
    ensures !Compare(last, fold).Greater? ==> Survives(best, Merged(fold, last))
  {
    MergeSurvives(fold, last);
    if !Compare(last, fold).Greater? {
      forall k | !MissingField(best, k) ensures Merged(fold, last).Get(k) == best.Get(k) {
        assert fold.Get(k) == best.Get(k);
      }
    }
  }

  lemma {:induction false} TracksUpto(segments: seq<Value>, n: nat, key: string)
    requires 0 < n <= |segments| && AllTimed(segments, key)
    requires forall m | 0 < m < n :: !Spoils(segments, m, key)
    ensures Tracks(segments, n, key) && RanksBest(segments, n, key)
  {
    hide Spoils;
    if n == 1 {
      assert segments[..1] == [segments[0]] && Timed(segments[0], key);
      assert Fold([segments[0]]) == segments[0];
    } else {
      hide Tracks;
      TracksUpto(segments, n - 1, key);
      TracksOn(segments, n - 1, key);
    }
  }

  /** The fold ranks as the best segment so far, all along a list, exactly when no segment spoils the rank. */
  lemma {:induction false} FoldRanksBest(segments: seq<Value>, key: string)
    requires AllTimed(segments, key)
    ensures (forall n | 0 < n <= |segments| :: RanksBest(segments, n, key))
       <==> (forall n | 0 < n < |segments| :: !Spoils(segments, n, key))
  {
    hide AllTimed, RanksBest, Spoils;
    if forall n | 0 < n <= |segments| :: RanksBest(segments, n, key) {
      forall n | 0 < n < |segments| ensures !Spoils(segments, n, key) {
        RankedUpto(segments, n, key);
        TracksOn(segments, n, key);
      }
    }
    if forall n | 0 < n < |segments| :: !Spoils(segments, n, key) {
      forall n | 0 < n <= |segments| ensures RanksBest(segments, n, key) {
        TracksUpto(segments, n, key);
      }
    }
  }

  lemma {:induction false} RankedUpto(segments: seq<Value>, n: nat, key: string)
    requires 0 < n <= |segments| && AllTimed(segments, key)
    requires forall m | 0 < m <= |segments| :: RanksBest(segments, m, key)
    ensures Tracks(segments, n, key)
  {
    hide RanksBest, AllTimed, Tracks;
    if n == 1 {
      TracksUpto(segments, 1, key);
    } else {
      RankedUpto(segments, n - 1, key);
      TracksOn(segments, n - 1, key);
    }
  }

  /** Unless a segment spoils it, the fold ranks as the greatest segment, the earliest of them if several, and that
      one's non-missing members all survive. */
  lemma {:induction false} FoldKeepsBest(segments: seq<Value>, key: string)
    requires segments != [] && AllTimed(segments, key)
    requires forall n | 0 < n < |segments| :: !Spoils(segments, n, key)
    ensures var best := Best(segments, |segments|);
      && (forall i | 0 <= i < |segments| :: !Compare(segments[i], segments[best]).Greater?)
      && (forall i | 0 <= i < best :: Compare(segments[i], segments[best]).Less?)
      && Timed(Fold(segments), key) && SameRank(Fold(segments), segments[best], key)
      && Survives(segments[best], Fold(segments))
  {
    hide Spoils, AllTimed, Survives, SameRank, Compare, Timed;
    BestIsEarliest(segments, |segments|, key);
    TracksUpto(segments, |segments|, key);
    assert segments[..|segments|] == segments;
  }

  // ---------------------------------------------------------------- the two ways to spoil it

  const RUNNING: Value := Obj(map["status" := Str("running"), "updatedAt" := Str(" ")])
  const BLANK: Value := Obj(map["status" := Str(" "), "updatedAt" := Str("2027")])
  const UNLOADED: Value := Obj(map["status" := Str("notLoaded"), "updatedAt" := Str("2026")])

  lemma ExamplesAreTimed()
    ensures Timed(RUNNING, "updatedAt") && Timed(BLANK, "updatedAt") && Timed(UNLOADED, "updatedAt")
    ensures IsLive(RUNNING) && IsLive(BLANK) && !IsLive(UNLOADED)
    ensures Trim(" ") == "" && Trim("2026") != ""
  {
    assert TIMESTAMP_KEYS[2] == "updatedAt";
    assert Trim("2026") == "2026";
  }

  /** A blank timestamp: the merge is live and of 2026, as no segment is. */
  lemma BlankTimestampInventsARank()
    ensures IsLive(Merged(RUNNING, UNLOADED)) && Merged(RUNNING, UNLOADED).GetStr("updatedAt") == Some("2026")
    ensures Spoils([RUNNING, UNLOADED], 1, "updatedAt")
  {
    ExamplesAreTimed();
    MergedField(RUNNING, UNLOADED, "updatedAt");
    MergedField(RUNNING, UNLOADED, "status");
    MergedField(RUNNING, UNLOADED, "runtimeStatusAvailability");
  }

  /** A blank status: the live one of two segments is preferred, and the merge is not live. */
  lemma BlankStatusIsLost()
    ensures Preferred(BLANK, UNLOADED) == BLANK && IsLive(BLANK) && !IsLive(Merged(BLANK, UNLOADED))
    ensures Spoils([BLANK, UNLOADED], 1, "updatedAt")
  {
    ExamplesAreTimed();
    MergedField(BLANK, UNLOADED, "status");
    MergedField(BLANK, UNLOADED, "runtimeStatusAvailability");
  }
}
