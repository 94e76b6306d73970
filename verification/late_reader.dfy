/** When a client's last event ID is lost, and what it then misses, read off the actions of a run
    (`src/notification_stream.rs`, `src/app_server/event_store.rs`). */
module LateReaders {
  import opened Json
  import opened Cursors
  import opened EventStores
  import opened Streams
  import opened FrameLinks

  // ---------------------------------------------------------------- what a run shows of a client

  /** The state before action `t`. */
  function At(start: World, actions: seq<Action>, t: nat): World
    requires t <= |actions|
  {
    Run(start, actions[..t])
  }

  function Count(w: World, c: nat): nat {
    if c < |w.clients| then |w.clients[c].received| else 0
  }

  /** Action `t` is client `c` reading a keepalive on a connection that has brought no frame, having received `n`. */
  predicate IdlesAt(start: World, actions: seq<Action>, c: nat, n: nat, t: nat) {
    && t < |actions| && actions[t] == Idle(c)
    && Enabled(At(start, actions, t), actions[t]) && Count(At(start, actions, t), c) == n
  }

  /** Action `u` is client `c` connecting without a Last-Event-ID after `n` frames, the stream standing at `tail`. */
  predicate StartsAnewAt(start: World, actions: seq<Action>, c: nat, n: nat, tail: Cursor, u: nat) {
    && u < |actions| && actions[u] == Connect(c)
    && Enabled(At(start, actions, u), actions[u]) && Count(At(start, actions, u), c) == n
    && Offered(At(start, actions, u).clients[c]).None? && Tail(At(start, actions, u).store) == tail
  }

  lemma AtPrefix(start: World, actions: seq<Action>, t: nat)
    requires actions != [] && t <= |actions| - 1
    ensures At(start, actions, t) == At(start, actions[..|actions| - 1], t)
  {
    assert actions[..t] == actions[..|actions| - 1][..t];
  }

  /** What one step makes of a client's count, of its lost id and of its marks. */
  lemma OneStep(w: World, a: Action, c: nat)
    requires c < |w.clients|
    ensures var v := Step(w, a);
      && |v.clients| == |w.clients|
      && Count(v, c) == (if a == Receive(c) && Enabled(w, a) then Count(w, c) + 1 else Count(w, c))
      && v.clients[c].reader.idled == (if !Enabled(w, a) then w.clients[c].reader.idled
                                       else if a == Receive(c) then false
                                       else a == Idle(c) || w.clients[c].reader.idled)
      && v.clients[c].reader.marks
           == w.clients[c].reader.marks
              + (if a == Connect(c) && Enabled(w, a) && Offered(w.clients[c]).None?
                 then [Mark(Count(w, c), Tail(w.store))] else [])
  {
    hide Opened, Pushed, Subscribed, Offered, IsQuiet, Unserved;
    var none: seq<Mark> := [];
    assert w.clients[c].reader.marks + none == w.clients[c].reader.marks;
  }

  /** The keepalives of a run are those of its front and the last action. */
  lemma IdlesInFront(start: World, actions: seq<Action>, c: nat, n: nat, t: nat)
    requires actions != []
    ensures IdlesAt(start, actions, c, n, t) <==>
      var last := |actions| - 1;
      if t == last then actions[last] == Idle(c) && Enabled(At(start, actions, last), actions[last])
                        && Count(At(start, actions, last), c) == n
      else IdlesAt(start, actions[..last], c, n, t)
  {
    hide Enabled, Count;
    if t < |actions| - 1 {
      AtPrefix(start, actions, t);
    }
    hide At;
  }

  /** One action more, put without the steps: the world before it, and what it makes of the lost id and the count. */
  lemma IdlesStep(start: World, actions: seq<Action>, c: nat, count: nat, after: nat, had: bool, has: bool, idles: bool)
    requires actions != [] && count <= after
    requires var front := actions[..|actions| - 1];
      && (had <==> exists t: nat :: IdlesAt(start, front, c, count, t))
      && forall n: nat, t: nat | IdlesAt(start, front, c, n, t) :: n <= count
    requires forall n: nat, t: nat | t == |actions| - 1 :: IdlesAt(start, actions, c, n, t) <==> idles && n == count
    requires if after > count then !has && !idles else has == (had || idles)
    ensures has <==> exists t: nat :: IdlesAt(start, actions, c, after, t)
    ensures forall n: nat, t: nat | IdlesAt(start, actions, c, n, t) :: n <= after
  {
    var front, last := actions[..|actions| - 1], |actions| - 1;
    assert forall n: nat, t: nat | IdlesAt(start, front, c, n, t) :: t < last;
    hide IdlesAt;
    forall n: nat, t: nat | t != last ensures IdlesAt(start, actions, c, n, t) <==> IdlesAt(start, front, c, n, t) {
      IdlesInFront(start, actions, c, n, t);
    }
    if idles {
      assert IdlesAt(start, actions, c, count, last);
    }
  }

  /** A client's id is lost exactly when it has read a keepalive on a frameless connection since its last frame. */
  lemma {:induction false} LostExactlyWhenIdle(start: World, actions: seq<Action>, c: nat)
    requires c < |start.clients| && !start.clients[c].reader.idled
    ensures var w := Run(start, actions);
      && c < |w.clients|
      && (w.clients[c].reader.idled <==> exists t: nat :: IdlesAt(start, actions, c, Count(w, c), t))
      && forall n: nat, t: nat | IdlesAt(start, actions, c, n, t) :: n <= Count(w, c)
    decreases |actions|
  {
    if actions != [] {
      var front, a := actions[..|actions| - 1], actions[|actions| - 1];
      LostExactlyWhenIdle(start, front, c);
      var w, v := Run(start, front), Run(start, actions);
      assert v == Step(w, a) && At(start, actions, |actions| - 1) == w;
      hide Run, At;
      OneStep(w, a, c);
      hide Step;
      var idles := a == Idle(c) && Enabled(w, a);
      hide Enabled;
      assert forall n: nat, t: nat | t == |actions| - 1 ::
        IdlesAt(start, actions, c, n, t) <==> idles && n == Count(w, c);
      hide IdlesAt, Count;
      IdlesStep(start, actions, c, Count(w, c), Count(v, c), w.clients[c].reader.idled, v.clients[c].reader.idled,
                idles);
    }
  }

  /** The marks are the connections opened without a Last-Event-ID. */
  lemma {:induction false} MarksAreNewStarts(start: World, actions: seq<Action>, c: nat, n: nat, tail: Cursor)
    requires c < |start.clients| && start.clients[c].reader.marks == []
    ensures c < |Run(start, actions).clients|
    ensures Mark(n, tail) in Run(start, actions).clients[c].reader.marks
      <==> exists u: nat :: StartsAnewAt(start, actions, c, n, tail, u)
    decreases |actions|
  {
    if actions != [] {
      var front, m := actions[..|actions| - 1], |actions| - 1;
      MarksAreNewStarts(start, front, c, n, tail);
      var w := Run(start, front);
      OneStep(w, actions[m], c);
      assert At(start, actions, m) == w;
      assert Run(start, actions) == Step(w, actions[m]);
      hide Step, Enabled, Offered, Run, Tail;
      forall u: nat | StartsAnewAt(start, actions, c, n, tail, u) && u < m
        ensures StartsAnewAt(start, front, c, n, tail, u)
      {
        AtPrefix(start, actions, u);
      }
      forall u: nat | StartsAnewAt(start, front, c, n, tail, u) ensures StartsAnewAt(start, actions, c, n, tail, u) {
        AtPrefix(start, actions, u);
      }
      if && actions[m] == Connect(c) && Enabled(w, actions[m]) && Offered(w.clients[c]).None?
         && Count(w, c) == n && Tail(w.store) == tail
      {
        assert StartsAnewAt(start, actions, c, n, tail, m);
      }
    }
  }

  // ---------------------------------------------------------------- what it misses

  /** Having received `n` frames, client `c` reads a keepalive on a connection without frames (action `t`), and then,
      with no frame in between, connects again (action `u`) when the stream is no longer at `last`. */
  predicate ReturnsLate(start: World, actions: seq<Action>, c: nat, n: nat, last: Cursor, t: nat, u: nat) {
    && t < u < |actions| && IdlesAt(start, actions, c, n, t)
    && actions[u] == Connect(c) && Enabled(At(start, actions, u), actions[u])
    && Count(At(start, actions, u), c) == n && Tail(At(start, actions, u).store) != last
  }

  ghost predicate CameBackLate(start: World, actions: seq<Action>, c: nat, n: nat, last: Cursor) {
    exists t: nat, u: nat :: ReturnsLate(start, actions, c, n, last, t, u)
  }

  /** After its first frame, a client starts anew exactly when it is strict and has idled since its last frame. */
  lemma StartsAnewWhenIdle(streamId: string, readers: seq<bool>, actions: seq<Action>, c: nat, n: nat, u: nat)
    requires c < |readers| && n > 0
    ensures var start := Init(streamId, readers);
      u < |actions| && actions[u] == Connect(c) && Count(At(start, actions, u), c) == n ==>
        c < |At(start, actions, u).clients|
        && (Offered(At(start, actions, u).clients[c]).None?
            <==> readers[c] && exists t: nat | t < u :: IdlesAt(start, actions, c, n, t))
  {
    var start := Init(streamId, readers);
    if u < |actions| && actions[u] == Connect(c) && Count(At(start, actions, u), c) == n {
      var upto := actions[..u];
      Reachable(streamId, readers, upto);
      LostExactlyWhenIdle(start, upto, c);
      hide Run, Init, Inv;
      forall t: nat | t < u ensures IdlesAt(start, actions, c, n, t) <==> IdlesAt(start, upto, c, n, t) {
        assert upto[..t] == actions[..t];
      }
    }
  }

  /** What a strict client misses: a notification it receives skips others, with no resync to say so, exactly when just
      before it the client lost its id to keepalives on a connection without frames and came back when the stream
      had moved on. No other client ever skips. */
  lemma {:induction false} SkipsExactlyWhenLate(streamId: string, readers: seq<bool>, actions: seq<Action>, c: nat)
    requires c < |readers|
    ensures var start := Init(streamId, readers);
      c < |Run(start, actions).clients|
      && var got := Run(start, actions).clients[c].received;
      forall i | 0 < i < |got| && got[i].Notification? ::
        got[i].cursor != Next(got[i - 1].cursor)
        <==> readers[c] && CameBackLate(start, actions, c, i, got[i - 1].cursor)
  {
    var start := Init(streamId, readers);
    var w := Run(start, actions);
    Reachable(streamId, readers, actions);
    RunLinks(streamId, readers, actions);
    hide Run, Init;
    var got := w.clients[c].received;
    assert Linked(w, w.clients[c]);
    forall i | 0 < i < |got| && got[i].Notification?
      ensures got[i].cursor != Next(got[i - 1].cursor)
        <==> readers[c] && CameBackLate(start, actions, c, i, got[i - 1].cursor)
    {
      SkipsAtMarks(w, w.clients[c], i);
      MarkedWhenLate(streamId, readers, actions, c, i, got[i - 1].cursor);
    }
  }

  /** A client has a mark after `i` frames that is not at `last` exactly when it then returned late. */
  lemma MarkedWhenLate(streamId: string, readers: seq<bool>, actions: seq<Action>, c: nat, i: nat, last: Cursor)
    requires c < |readers| && i > 0
    ensures var start := Init(streamId, readers);
      c < |Run(start, actions).clients|
      && (StartedElsewhere(Run(start, actions).clients[c].reader.marks, i, last)
          <==> readers[c] && CameBackLate(start, actions, c, i, last))
  {
    var start := Init(streamId, readers);
    Reachable(streamId, readers, actions);
    hide Run, Enabled, Inv;
    var marks := Run(start, actions).clients[c].reader.marks;
    if StartedElsewhere(marks, i, last) {
      var j :| 0 <= j < |marks| && marks[j].after == i && marks[j].cursor != last;
      var cursor := marks[j].cursor;
      assert marks[j] == Mark(i, cursor);
      MarksAreNewStarts(start, actions, c, i, cursor);
      var u: nat :| StartsAnewAt(start, actions, c, i, cursor, u);
      StartsAnewWhenIdle(streamId, readers, actions, c, i, u);
      var t: nat :| t < u && IdlesAt(start, actions, c, i, t);
      assert ReturnsLate(start, actions, c, i, last, t, u);
    }
    if readers[c] && CameBackLate(start, actions, c, i, last) {
      var t: nat, u: nat :| ReturnsLate(start, actions, c, i, last, t, u);
      var tail := Tail(At(start, actions, u).store);
      StartsAnewWhenIdle(streamId, readers, actions, c, i, u);
      assert StartsAnewAt(start, actions, c, i, tail, u);
      MarksAreNewStarts(start, actions, c, i, tail);
      var j :| 0 <= j < |marks| && marks[j] == Mark(i, tail);
    }
  }
}
