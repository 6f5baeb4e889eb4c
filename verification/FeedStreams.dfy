/** The steps taken by subscribers, by the supervisor, and by the release of streams that fell behind. */
module FeedStreams {
  import opened Wrappers
  import opened FeedEvents
  import opened HubSpec
  import opened Feed
  import opened FeedInvariant

  /** A step that only touches streams, what is remembered of them, and the hub's flags. */
  predicate StreamsOnly(f: State, g: State) {
    && Shape(f) && Shape(g)
    && g == f.(hub := g.hub, watches := g.watches, conn := g.conn)
    && g.hub.floor == f.hub.floor && g.hub.inTx == f.hub.inTx
    && (g.hub.closed ==> g.hub.why != Error(Overflow))
    && (forall id :: id in g.hub.streams ==> id <= g.hub.nextId)
    && (f.conn.Down? ==> g.conn.Down?)
    && (f.conn.Up? ==> g.conn.Up? && g.conn == f.conn.(pc := g.conn.pc))
  }

  lemma StreamsOnlyHub(f: State, g: State)
    requires StreamsOnly(f, g) && HubOk(f)
    ensures HubOk(g)
  {
    hide Open, ChangesInside, BeginsUpTo;
  }

  lemma StreamsOnlyFrames(f: State, g: State)
    requires StreamsOnly(f, g) && FramesOk(f)
    ensures FramesOk(g)
  {
    hide Rows, FrameOf;
    forall i | 0 <= i < |g.frames| ensures FrameAt(g, i) {
      assert FrameAt(f, i);
    }
  }

  lemma StreamsOnlyOpen(f: State, g: State)
    requires StreamsOnly(f, g) && OpenOk(f)
    ensures OpenOk(g)
  {
    hide Open, Visible;
  }

  lemma SameConn(f: State, g: State)
    requires StreamsOnly(f, g) && ConnOk(f) && g.conn == f.conn && g.hub.releasable == f.hub.releasable
    ensures ConnOk(g)
  {
    hide Rows, Progress, RowEvents;
  }

  lemma StreamsOnlyStep(f: State, g: State)
    requires Inv(f) && StreamsOnly(f, g) && ConnOk(g) && StreamsOk(g)
    ensures Inv(g)
  {
    hide ConnOk, StreamsOk, OpenOk, FramesOk, HubOk, LogOk;
    LogCarries(f, g);
    StreamsOnlyHub(f, g);
    StreamsOnlyFrames(f, g);
    StreamsOnlyOpen(f, g);
  }

  /** A stream left alone by such a step, with the connection as it was. */
  lemma SameStream(f: State, g: State, id: nat)
    requires StreamsOnly(f, g) && id in f.watches && StreamOk(f, id)
    requires id in g.watches && g.hub.streams[id] == f.hub.streams[id] && g.watches[id] == f.watches[id]
    requires g.conn == f.conn && g.hub.releasable == f.hub.releasable
    ensures StreamOk(g, id)
  {
    hide Kept, BeginsUpTo, Visible;
  }

  // Reading.

  lemma ReadKept(s: Stream, w: Watch, emitted: seq<Event>, n: nat)
    requires n <= |emitted| && Kept(s, w, emitted, n) && s.buffer != []
    ensures Kept(s.(buffer := s.buffer[1..]), w, emitted, n)
  {
    hide Open;
    assert s.buffer[1..] == w.got[|w.got| - |s.buffer| + 1..];
  }

  lemma ReadStream(f: State, g: State, id: nat, i: nat)
    requires StreamsOnly(f, g) && i in f.watches && StreamOk(f, i) && id in f.hub.streams && f.hub.streams[id].buffer != []
    requires g == OnRead(f, id)
    ensures StreamOk(g, i)
  {
    if i != id {
      SameStream(f, g, i);
    } else {
      ReadKept(f.hub.streams[i], f.watches[i], f.emitted, f.shown);
      hide Kept, BeginsUpTo, Visible;
    }
  }

  lemma ReadInv(f: State, id: nat)
    requires Inv(f) && id in f.hub.streams && f.hub.streams[id].buffer != []
    ensures Inv(OnRead(f, id))
  {
    var g := OnRead(f, id);
    hide LogOk, ConnOk, OpenOk, FramesOk, StreamOk, Open, ChangesInside;
    assert StreamsOnly(f, g);
    hide HubOk;
    SameConn(f, g);
    forall i | i in g.watches ensures StreamOk(g, i) {
      ReadStream(f, g, id, i);
    }
    hide OnRead;
    StreamsOnlyStep(f, g);
  }

  // Joining.

  lemma NewKept(s: Stream, w: Watch, emitted: seq<Event>, n: nat)
    requires n <= |emitted| && s.buffer == [] && w.got == [] && w.from == n && w.lost.None? && s.pending.NoNotice?
    requires w.until == (if s.done then Some(n) else None) && (!s.done ==> s.reason.NoNotice?) && s.reason != Error(Overflow)
    ensures Kept(s, w, emitted, n)
  {
    hide Open;
    assert emitted[n..n] == [];
    assert w.got[0..] == [];
  }

  lemma JoinStream(f: State, g: State, since: Lsn, capacity: nat)
    requires Shape(f) && HubOk(f) && g == OnJoin(f, since, capacity) && Shape(g)
    ensures StreamOk(g, f.hub.nextId + 1)
  {
    hide Open, ChangesInside, Kept;
    var id := f.hub.nextId + 1;
    NewKept(g.hub.streams[id], g.watches[id], g.emitted, g.shown);
    assert f.hub.floor >= f.start && BeginsUpTo(f.emitted, f.shown, f.hub.floor);
    assert g.watches[id].admitted ==> BeginsUpTo(g.emitted, f.shown, since);
  }

  lemma JoinInv(f: State, since: Lsn, capacity: nat)
    requires Inv(f)
    ensures Inv(OnJoin(f, since, capacity))
  {
    var g := OnJoin(f, since, capacity);
    hide LogOk, ConnOk, OpenOk, FramesOk, StreamOk, Open, ChangesInside, BeginsUpTo;
    assert StreamsOnly(f, g);
    JoinStream(f, g, since, capacity);
    hide HubOk;
    SameConn(f, g);
    forall i | i in g.watches ensures StreamOk(g, i) {
      if i != f.hub.nextId + 1 {
        SameStream(f, g, i);
      }
    }
    hide OnJoin;
    StreamsOnlyStep(f, g);
  }

  // Ending.

  /** `t` is `s`, or `s` ended now for a reason other than overflow. */
  predicate EndedOrSame(s: Stream, t: Stream) {
    || t == s
    || (!s.done && t.done && t.buffer == s.buffer && t.capacity == s.capacity && t.reason != Error(Overflow))
  }

  function Stamped(w: Watch, t: Stream, now: nat): Watch {
    if w.until.None? && t.done then w.(until := Some(now)) else w
  }

  lemma EndKept(s: Stream, t: Stream, w: Watch, emitted: seq<Event>, n: nat)
    requires n <= |emitted| && Kept(s, w, emitted, n) && EndedOrSame(s, t)
    ensures Kept(t, Stamped(w, t, n), emitted, n)
  {
    hide Open;
  }

  lemma EndWhole(f: State, g: State, w: Watch, t: Stream)
    requires StreamsOnly(f, g) && WholeBut(f, w)
    ensures WholeBut(g, Stamped(w, t, f.shown))
  {
    hide Visible;
  }

  lemma SettleStream(f: State, g: State, id: nat)
    requires StreamsOnly(f, g) && id in f.watches && id in g.watches && StreamOk(f, id)
    requires EndedOrSame(f.hub.streams[id], g.hub.streams[id])
    requires g.watches[id] == Stamped(f.watches[id], g.hub.streams[id], f.shown)
    requires IsWaiting(f, id) && !g.hub.streams[id].done ==> g.conn == f.conn && g.hub.releasable == f.hub.releasable
    ensures StreamOk(g, id)
  {
    var s, t, w := f.hub.streams[id], g.hub.streams[id], f.watches[id];
    EndKept(s, t, w, f.emitted, f.shown);
    EndWhole(f, g, w, t);
    if w.lost.Some? && !t.done {
      assert s == t;
      assert Settling(f) ==> Settling(g);
      assert Anchored(g, w.hole) && PendOk(g, w) by { hide Kept, BeginsUpTo, WholeBut, Visible; }
    }
    hide Kept, BeginsUpTo, WholeBut, Anchored, PendOk;
  }

  lemma SettleIs(f: State, hub: HubState)
    requires Shape(f) && hub.streams.Keys == f.hub.streams.Keys
    ensures Shape(Settle(f, hub)) && Settle(f, hub).hub == hub
    ensures forall id :: id in f.watches ==> Settle(f, hub).watches[id] == Stamped(f.watches[id], hub.streams[id], f.shown)
  {
  }

  lemma LeaveInv(f: State, id: nat)
    requires Inv(f) && id in f.hub.streams
    ensures Inv(OnLeave(f, id))
  {
    var g := OnLeave(f, id);
    SettleIs(f, CloseStream(f.hub, id));
    hide LogOk, ConnOk, OpenOk, FramesOk, StreamOk, Open, ChangesInside, BeginsUpTo, Settle;
    assert StreamsOnly(f, g);
    hide HubOk;
    SameConn(f, g);
    forall i | i in g.watches ensures StreamOk(g, i) {
      NoOverflowYet(f, i);
      SettleStream(f, g, i);
    }
    hide OnLeave;
    StreamsOnlyStep(f, g);
  }

  lemma NoOverflowYet(f: State, id: nat)
    requires Shape(f) && id in f.watches && StreamOk(f, id)
    ensures !f.hub.streams[id].done ==> f.hub.streams[id].reason.NoNotice?
    ensures Waiting(f.hub.streams[id]) ==> f.hub.streams[id].pending == Resync(TxTooLarge)
  {
    hide Open, Visible;
  }

  lemma GiveUpInv(f: State, n: Notice)
    requires Inv(f) && n != Error(Overflow)
    ensures Inv(OnGiveUp(f, n))
  {
    var g := OnGiveUp(f, n);
    SettleIs(f, Close(f.hub, n));
    hide LogOk, ConnOk, OpenOk, FramesOk, StreamOk, Open, ChangesInside, BeginsUpTo, Settle;
    assert StreamsOnly(f, g);
    hide HubOk;
    SameConn(f, g);
    forall i | i in g.watches ensures StreamOk(g, i) {
      NoOverflowYet(f, i);
      SettleStream(f, g, i);
    }
    hide OnGiveUp;
    StreamsOnlyStep(f, g);
  }

  lemma ReleasedStream(s: Stream)
    requires Waiting(s) ==> s.pending == Resync(TxTooLarge)
    ensures EndedOrSame(s, Release(s)) && (Waiting(s) ==> Release(s).done)
  {
  }

  lemma ReleaseConn(f: State, g: State)
    requires StreamsOnly(f, g) && ConnOk(f) && f.conn.Up? && f.shown == |f.emitted|
    requires g.conn.pc == Receiving && !g.hub.releasable
    ensures ConnOk(g)
  {
    hide Rows, Progress, RowEvents;
  }

  /** What a release does: every stream held back ends, and the hub has none left to release. */
  predicate Released(f: State, g: State) {
    && StreamsOnly(f, g) && f.conn.Up? && g.conn.Up? && g.conn.pc == Receiving && !g.hub.releasable
    && g.watches.Keys == f.watches.Keys
    && forall id :: id in f.watches ==>
         && g.hub.streams[id] == Release(f.hub.streams[id])
         && g.watches[id] == Stamped(f.watches[id], g.hub.streams[id], f.shown)
  }

  lemma ReleaseIs(f: State)
    requires Shape(f) && HubOk(f) && f.conn.Up?
    ensures Released(f, OnRelease(f))
  {
    hide Open, ChangesInside, BeginsUpTo, Release;
    SettleIs(f, ReleasePending(f.hub));
    hide Settle;
  }

  lemma ReleaseStream(f: State, g: State, id: nat)
    requires Released(f, g) && id in f.watches && StreamOk(f, id)
    ensures StreamOk(g, id)
  {
    NoOverflowYet(f, id);
    WaitingHasPending(f, id);
    ReleasedStream(f.hub.streams[id]);
    hide Release, StreamOk, EndedOrSame, Stamped;
    SettleStream(f, g, id);
  }

  lemma ReleaseInv(f: State)
    requires Inv(f) && Enabled(f, ReleaseStep)
    ensures Inv(OnRelease(f))
  {
    hide LogOk, ConnOk, OpenOk, FramesOk, HubOk, StreamOk, OnRelease, Release, Stamped;
    var g := OnRelease(f);
    ReleaseIs(f);
    ReleaseConn(f, g);
    forall i | i in g.watches ensures StreamOk(g, i) {
      ReleaseStream(f, g, i);
    }
    StreamsOnlyStep(f, g);
  }

  lemma WaitingHasPending(f: State, id: nat)
    requires Shape(f) && id in f.watches && StreamOk(f, id)
    ensures IsWaiting(f, id) ==> Waiting(f.hub.streams[id])
  {
    hide Open, Visible;
  }
}
