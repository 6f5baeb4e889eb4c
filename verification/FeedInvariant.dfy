/** What every step of the feed keeps. */
module FeedInvariant {
  import opened Wrappers
  import opened FeedEvents
  import opened DecoderSpec
  import opened HubSpec
  import opened Feed

  /** The bounds the other statements are written in terms of. */
  predicate Shape(f: State) {
    |f.frames| <= |f.log| && f.shown <= |f.emitted| && f.hub.streams.Keys == f.watches.Keys
  }

  // The server's side: the log, the slot, and which transactions have been handled.

  predicate LogOk(f: State)
    requires Shape(f)
  {
    && Increasing(f.log) && (forall i :: 0 <= i < |f.log| ==> GoodTx(f.log[i]))
    && f.resume <= f.origin && Whole(f)
    && (forall i :: 0 <= i < |f.log| && f.log[i].commit < f.origin ==> i < |f.frames|)
    && Covered(f, f.confirmed)
  }

  /** A position that everything before it has been handled. */
  predicate Covered(f: State, p: Lsn)
    requires Shape(f)
  {
    p <= f.origin || (|f.frames| > 0 && p <= f.log[|f.frames| - 1].commit)
  }

  // The connection.

  predicate TxOk(f: State)
    requires f.conn.Up?
  {
    match f.conn.sent
    case None => f.conn.dec.tx == NO_TX
    case Some(k) =>
      && f.conn.idx < |f.log| && k <= |f.log[f.conn.idx].rows|
      && var t := f.log[f.conn.idx];
         && f.conn.dec.tx == TxState(t.xid, Some(t.commit), |RowEvents(t, k)|, RowEvents(t, k) != [])
         && f.conn.mark <= |f.emitted| && Rows(f.emitted[f.conn.mark..]) == Progress(t, k)
  }

  /** A commit is published alone, as the last event of its message. */
  predicate OutboxOk(f: State)
    requires f.conn.Up?
  {
    forall j :: f.shown <= j < |f.emitted| && f.emitted[j].Commit? ==>
      j == f.shown && j + 1 == |f.emitted| && f.conn.sent.None? && f.conn.idx > 0
  }

  predicate ConnOk(f: State)
    requires Shape(f)
  {
    && (f.untried ==> f.emitted == [] && f.epoch == 0)
    && match f.conn
       case Down => f.shown == |f.emitted|
       case Up(dec, announced, idx, sent, mark, pc, reported) =>
         && !f.untried && f.epoch > 0
         && idx <= |f.frames| && announced == dec.relations
         && Covered(f, dec.acked) && Covered(f, reported)
         && (idx < |f.log| ==> f.confirmed <= f.log[idx].commit && dec.acked <= f.log[idx].commit)
         && TxOk(f) && OutboxOk(f)
         && (pc != Checking ==> f.shown == |f.emitted|)
         && (pc == Reported ==> f.hub.releasable && reported == dec.acked)
         && (sent.Some? && (sent.value > 0 || pc == Receiving) ==> !f.hub.releasable)
  }

  // What has been emitted.

  predicate FrameAt(f: State, i: nat)
    requires Shape(f) && i < |f.frames|
  {
    var (a, b) := f.frames[i];
    && a <= b <= |f.emitted|
    && (f.log[i].commit >= f.origin ==> Rows(f.emitted[a..b]) == FrameOf(f.log[i]))
    && (b <= f.shown || JustCommitted(f, i))
  }

  /** The frame of `i` ends in the one event that is waiting to be published. */
  predicate JustCommitted(f: State, i: nat) {
    f.conn.Up? && i + 1 == f.conn.idx && f.shown + 1 == |f.emitted| && f.emitted[f.shown].Commit?
  }

  predicate FramesOk(f: State)
    requires Shape(f)
  {
    forall i {:trigger FrameAt(f, i)} :: 0 <= i < |f.frames| ==> FrameAt(f, i)
  }

  /** Every change comes after a begin with no commit in between. */
  predicate ChangesInside(evs: seq<Event>) {
    forall j :: 0 <= j < |evs| && evs[j].Change? ==> Open(evs[..j])
  }

  predicate BeginsUpTo(evs: seq<Event>, n: nat, bound: Lsn)
    requires n <= |evs|
  {
    forall j :: 0 <= j < n && evs[j].Begin? ==> evs[j].commit <= bound
  }

  predicate HubOk(f: State)
    requires Shape(f)
  {
    && f.hub.floor >= f.start && BeginsUpTo(f.emitted, f.shown, f.hub.floor)
    && f.hub.inTx == Open(f.emitted[..f.shown])
    && ChangesInside(f.emitted)
    && (forall id :: id in f.hub.streams ==> id <= f.hub.nextId)
    && (f.hub.closed ==> f.hub.why != Error(Overflow))
  }

  /** The transaction left open by the last begin has not been passed by. */
  predicate OpenOk(f: State)
    requires Shape(f)
  {
    && f.openIn <= f.epoch
    && (Open(f.emitted) ==>
      && Ahead(f, f.openTx)
      && (f.conn.Up? ==> f.conn.idx <= f.openTx)
      && (f.conn.Up? && f.openIn == f.epoch ==>
            f.conn.idx == f.openTx && f.conn.sent.Some? && f.conn.sent.value > 0))
  }

  /** Transaction `h` is visible, and neither acknowledged past nor out of the server's reach. */
  predicate Ahead(f: State, h: nat)
    requires Shape(f)
  {
    && h < |f.log| && h <= |f.frames| && Visible(f.log[h])
    && f.confirmed <= f.log[h].commit
    && (f.conn.Up? ==> f.conn.dec.acked <= f.log[h].commit)
  }

  // The streams.

  function EndOf(w: Watch, now: nat): nat {
    if w.until.Some? then w.until.value else now
  }

  /** A stream and what is remembered of it, against what has been published. */
  predicate Kept(s: Stream, w: Watch, emitted: seq<Event>, shown: nat)
    requires shown <= |emitted|
  {
    var e := EndOf(w, shown);
    && (s.done <==> w.until.Some?) && w.from <= e <= shown
    && |s.buffer| <= |w.got| && s.buffer == w.got[|w.got| - |s.buffer|..]
    && (!s.done ==> s.reason.NoNotice?)
    && match w.lost
       case None =>
         && w.got == emitted[w.from..e] && (s.done || s.pending.NoNotice?)
         && s.reason != Error(Overflow)
       case Some(j) =>
         && w.from <= j < e && j - w.from <= |w.got| && w.got[..j - w.from] == emitted[w.from..j]
         && (!s.done ==> s.pending == Resync(TxTooLarge) && Open(emitted[..j + 1]))
         && (s.reason == Error(Overflow) ==> e == j + 1 && |w.got| == j - w.from && !emitted[j].Change?)
  }

  /** Between the commit of a transaction that dropped a stream and that stream being told. */
  predicate Settling(f: State) {
    f.conn.Up? &&
    if f.shown < |f.emitted| then f.emitted[f.shown].Commit?
    else f.conn.pc != Receiving && f.hub.releasable
  }

  predicate Anchored(f: State, h: nat)
    requires Shape(f)
  {
    && Ahead(f, h)
    && (f.conn.Up? ==> f.conn.idx <= h || (f.conn.idx == h + 1 && Settling(f)))
  }

  predicate PendOk(f: State, w: Watch)
    requires Shape(f)
  {
    && w.pendedIn <= f.epoch
    && (f.conn.Up? && w.pendedIn == f.epoch ==>
          || (f.conn.idx == w.hole && f.conn.sent.Some? && f.conn.sent.value > 0)
          || (f.conn.idx == w.hole + 1 && w.hole < |f.log| && f.conn.dec.acked == f.log[w.hole].commit && Settling(f)))
  }

  /** Apart from `hole`, every frame finished while the stream was there was finished before it lost anything. */
  predicate WholeBut(f: State, w: Watch)
    requires Shape(f)
  {
    w.lost.Some? ==>
    forall i :: 0 <= i < |f.frames| && i != w.hole && Visible(f.log[i]) && f.frames[i].1 <= EndOf(w, |f.emitted|) ==>
      f.frames[i].1 <= w.lost.value
  }

  predicate StreamOk(f: State, id: nat)
    requires Shape(f) && id in f.watches
  {
    var s, w := f.hub.streams[id], f.watches[id];
    && Kept(s, w, f.emitted, f.shown)
    && (w.lost.Some? && !s.done ==> Anchored(f, w.hole) && PendOk(f, w))
    && WholeBut(f, w)
    && (w.admitted ==> w.since >= f.start && BeginsUpTo(f.emitted, w.from, w.since))
  }

  predicate StreamsOk(f: State)
    requires Shape(f)
  {
    forall id :: id in f.watches ==> StreamOk(f, id)
  }

  predicate Inv(f: State) {
    && Shape(f) && LogOk(f) && ConnOk(f) && FramesOk(f) && HubOk(f) && OpenOk(f) && StreamsOk(f)
  }

  // Facts about the log.

  lemma {:induction false} StartIdxSplits(log: seq<Tx>, at: Lsn)
    requires Increasing(log)
    ensures forall i :: 0 <= i < StartIdx(log, at) ==> log[i].commit < at
    ensures forall i :: StartIdx(log, at) <= i < |log| ==> log[i].commit >= at
  {
    if log != [] {
      var front := log[..|log| - 1];
      if log[|log| - 1].commit < at {
      } else {
        StartIdxSplits(front, at);
        assert forall i :: 0 <= i < |front| ==> log[i] == front[i];
      }
    }
  }

  lemma InitInv(f: State)
    requires Init(f)
    ensures Inv(f)
  {
    StartIdxSplits(f.log, f.origin);
    assert Rows([]) == [];
    forall i | 0 <= i < |f.frames| ensures FrameAt(f, i) {
      assert f.log[i].commit < f.origin;
    }
  }

  // Carrying the streams across a step that publishes nothing.

  predicate IsWaiting(f: State, id: nat) {
    id in f.watches && id in f.hub.streams && f.watches[id].lost.Some? && !f.hub.streams[id].done
  }

  lemma KeptExtends(s: Stream, w: Watch, emitted: seq<Event>, more: seq<Event>, shown: nat)
    requires shown <= |emitted| <= |more| && emitted == more[..|emitted|]
    requires Kept(s, w, emitted, shown)
    ensures Kept(s, w, more, shown)
  {
    hide Open;
    var e := EndOf(w, shown);
    assert more[w.from..e] == emitted[w.from..e];
    if w.lost.Some? {
      var j := w.lost.value;
      assert more[w.from..j] == emitted[w.from..j] && more[..j + 1] == emitted[..j + 1];
    }
  }

  /** Nothing was published: the streams are as they were, with at most one more frame on record. */
  predicate Quiet(f: State, g: State) {
    && f.shown == g.shown <= |f.emitted| <= |g.emitted| && f.emitted == g.emitted[..|f.emitted|]
    && Shape(f) && Shape(g) && |f.log| <= |g.log| && f.log == g.log[..|f.log|]
    && g.hub.streams == f.hub.streams && g.watches == f.watches && f.start == g.start
    && |f.frames| <= |g.frames| <= |f.frames| + 1 && f.frames == g.frames[..|f.frames|]
  }

  ghost predicate NewFrameOk(f: State, g: State)
    requires Quiet(f, g)
  {
    |g.frames| > |f.frames| && Visible(g.log[|f.frames|]) ==>
      && g.frames[|f.frames|].1 > g.shown
      && forall id :: IsWaiting(f, id) ==> f.watches[id].hole == |f.frames|
  }

  lemma EndedOrWaiting(f: State, id: nat)
    requires Shape(f) && id in f.watches && StreamOk(f, id)
    ensures f.watches[id].until.Some? ==> f.watches[id].until.value <= f.shown
    ensures f.watches[id].until.Some? <==> f.hub.streams[id].done
  {
    hide Open, Visible;
  }

  lemma WholeCarries(f: State, g: State, id: nat)
    requires Quiet(f, g) && NewFrameOk(f, g) && id in f.watches && StreamOk(f, id)
    requires forall i :: 0 <= i < |f.frames| ==> f.frames[i].1 <= |f.emitted|
    ensures WholeBut(g, g.watches[id])
  {
    hide Visible, Kept, Anchored, PendOk, BeginsUpTo;
    var w := f.watches[id];
    EndedOrWaiting(f, id);
    if w.lost.Some? {
      assert IsWaiting(f, id) || w.until.Some?;
      forall i | 0 <= i < |g.frames| && i != w.hole && Visible(g.log[i]) && g.frames[i].1 <= EndOf(w, |g.emitted|)
        ensures g.frames[i].1 <= w.lost.value
      {
        if i < |f.frames| {
          assert g.frames[i] == f.frames[i] && g.log[i] == f.log[i];
        }
      }
    }
  }

  lemma StreamsCarry(f: State, g: State)
    requires Quiet(f, g) && NewFrameOk(f, g) && StreamsOk(f)
    requires forall i :: 0 <= i < |f.frames| ==> f.frames[i].1 <= |f.emitted|
    requires forall id :: IsWaiting(f, id) ==> Anchored(g, f.watches[id].hole) && PendOk(g, f.watches[id])
    ensures StreamsOk(g)
  {
    forall id | id in g.watches ensures StreamOk(g, id) {
      assert StreamOk(f, id);
      WholeCarries(f, g, id);
      KeptExtends(f.hub.streams[id], f.watches[id], f.emitted, g.emitted, f.shown);
      hide Kept, Anchored, PendOk, WholeBut;
      assert IsWaiting(f, id) <==> f.watches[id].lost.Some? && !f.hub.streams[id].done;
      assert f.watches[id].admitted ==> BeginsUpTo(g.emitted, f.watches[id].from, f.watches[id].since) by {
        forall j | 0 <= j < f.watches[id].from && f.watches[id].from <= |f.emitted| ensures g.emitted[j] == f.emitted[j] {
        }
      }
    }
  }

  // Steps that touch only the connection's bookkeeping.

  lemma NewCommitIsHighest(f: State, t: Tx, p: Lsn)
    requires Shape(f) && LogOk(f) && Enabled(f, CommitTx(t)) && Covered(f, p)
    ensures p <= t.commit
  {
    hide GoodTx;
  }

  lemma OrderGrows(f: State, t: Tx)
    requires Shape(f) && LogOk(f) && Enabled(f, CommitTx(t))
    ensures Increasing(OnTx(f, t).log) && forall i :: 0 <= i < |OnTx(f, t).log| ==> GoodTx(OnTx(f, t).log[i])
  {
    hide GoodTx, Whole, Covered, Visible;
    var g := OnTx(f, t);
    assert forall i :: 0 <= i < |f.log| ==> g.log[i] == f.log[i];
  }

  lemma WholeGrows(f: State, t: Tx)
    requires Whole(f) && t.commit >= f.origin
    ensures Whole(OnTx(f, t))
  {
    hide Visible;
    var g := OnTx(f, t);
    assert forall i :: 0 <= i < |f.log| ==> g.log[i] == f.log[i];
  }

  lemma LogGrows(f: State, t: Tx)
    requires Shape(f) && LogOk(f) && Enabled(f, CommitTx(t))
    ensures LogOk(OnTx(f, t))
  {
    OrderGrows(f, t);
    WholeGrows(f, t);
    hide GoodTx, Increasing, Whole;
    var g := OnTx(f, t);
    assert forall i :: 0 <= i < |f.log| ==> g.log[i] == f.log[i];
  }

  lemma SliceOfPrefix(x: seq<Event>, y: seq<Event>, a: nat, b: nat)
    requires |x| <= |y| && x == y[..|x|] && a <= b <= |x|
    ensures x[a..b] == y[a..b]
  {
  }

  lemma FramesCarry(f: State, g: State)
    requires Shape(f) && Shape(g) && |f.log| <= |g.log| && f.log == g.log[..|f.log|] && f.frames == g.frames
    requires f.shown == g.shown <= |f.emitted| <= |g.emitted| && f.emitted == g.emitted[..|f.emitted|]
    requires f.origin == g.origin && FramesOk(f)
    requires f.shown < |f.emitted| && f.conn.Up? ==>
      g.emitted == f.emitted && g.conn.Up? && g.conn.idx == f.conn.idx
    ensures FramesOk(g)
  {
    hide FrameOf, Rows;
    forall i | 0 <= i < |g.frames| ensures FrameAt(g, i) {
      assert FrameAt(f, i) && g.log[i] == f.log[i];
      var (a, b) := f.frames[i];
      SliceOfPrefix(f.emitted, g.emitted, a, b);
    }
  }

  lemma FrameEnds(f: State)
    requires Shape(f) && FramesOk(f)
    ensures forall i :: 0 <= i < |f.frames| ==> f.frames[i].1 <= |f.emitted|
  {
    hide FrameOf, Rows;
    forall i | 0 <= i < |f.frames| ensures f.frames[i].1 <= |f.emitted| {
      assert FrameAt(f, i);
    }
  }

  /** What a waiting stream relies on. */
  lemma WaitingIsAnchored(f: State, id: nat)
    requires Shape(f) && StreamsOk(f) && IsWaiting(f, id)
    ensures Anchored(f, f.watches[id].hole) && PendOk(f, f.watches[id])
  {
    hide Kept, WholeBut, BeginsUpTo, Anchored, PendOk;
    assert StreamOk(f, id);
  }

  lemma GrowStreams(f: State, g: State)
    requires Shape(f) && FramesOk(f) && StreamsOk(f)
    requires g == f.(log := g.log) && |f.log| <= |g.log| && f.log == g.log[..|f.log|]
    ensures StreamsOk(g)
  {
    FrameEnds(f);
    forall id | IsWaiting(f, id) ensures Anchored(g, f.watches[id].hole) && PendOk(g, f.watches[id]) {
      WaitingIsAnchored(f, id);
      hide StreamsOk, FramesOk, LogOk, Visible;
      assert f.watches[id].hole < |f.log|;
      assert g.log[f.watches[id].hole] == f.log[f.watches[id].hole];
    }
    StreamsCarry(f, g);
  }

  lemma GrowConn(f: State, t: Tx)
    requires Shape(f) && LogOk(f) && ConnOk(f) && Enabled(f, CommitTx(t))
    ensures ConnOk(OnTx(f, t))
  {
    hide Rows, Progress, RowEvents, GoodTx;
    var g := OnTx(f, t);
    assert forall i :: 0 <= i < |f.log| ==> g.log[i] == f.log[i];
    NewCommitIsHighest(f, t, f.confirmed);
    if f.conn.Up? {
      NewCommitIsHighest(f, t, f.conn.dec.acked);
      hide LogOk, Enabled;
      assert TxOk(g);
    }
  }

  lemma HubCarries(f: State, g: State)
    requires Shape(f) && Shape(g) && HubOk(f)
    requires g.hub == f.hub && g.emitted == f.emitted && g.shown == f.shown && g.start == f.start
    ensures HubOk(g)
  {
    hide Open;
  }

  lemma LogCarries(f: State, g: State)
    requires Shape(f) && Shape(g) && LogOk(f)
    requires g.log == f.log && |g.frames| == |f.frames| && g.confirmed == f.confirmed
    requires g.resume == f.resume && g.origin == f.origin && g.start == f.start
    ensures LogOk(g)
  {
    hide GoodTx;
  }

  lemma CommitTxInv(f: State, t: Tx)
    requires Inv(f) && Enabled(f, CommitTx(t))
    ensures Inv(OnTx(f, t))
  {
    hide Enabled, ConnOk, LogOk, FramesOk, StreamsOk, HubOk, Visible, Open;
    var g := OnTx(f, t);
    assert g.log[..|f.log|] == f.log;
    GrowConn(f, t);
    LogGrows(f, t);
    FramesCarry(f, g);
    GrowStreams(f, g);
    HubCarries(f, g);
    assert OpenOk(g);
  }

  /** A step of the connection alone, taken when everything emitted has been published. */
  lemma ConnStep(f: State, g: State)
    requires Inv(f) && f.shown == |f.emitted|
    requires g == f.(confirmed := g.confirmed, conn := g.conn, untried := g.untried, epoch := g.epoch)
    requires LogOk(g) && ConnOk(g) && OpenOk(g)
    requires forall id :: IsWaiting(f, id) ==> Anchored(g, f.watches[id].hole) && PendOk(g, f.watches[id])
    ensures Inv(g)
  {
    hide LogOk, ConnOk, OpenOk, FramesOk, StreamsOk, HubOk, Visible, Anchored, PendOk;
    FrameEnds(f);
    HubCarries(f, g);
    FramesCarry(f, g);
    StreamsCarry(f, g);
  }

  lemma FailAttemptInv(f: State)
    requires Inv(f) && Enabled(f, FailAttempt)
    ensures Inv(OnFail(f))
  {
    var g := OnFail(f);
    hide Increasing, GoodTx, FramesOk, HubOk, Visible, Open;
    forall id | IsWaiting(f, id) ensures Anchored(g, f.watches[id].hole) && PendOk(g, f.watches[id]) {
      WaitingIsAnchored(f, id);
    }
    hide StreamsOk;
    ConnStep(f, g);
  }

  lemma StartIdxAtMost(log: seq<Tx>, at: Lsn, n: nat)
    requires Increasing(log) && n <= |log| && (n < |log| ==> at <= log[n].commit)
    ensures StartIdx(log, at) <= n
  {
    StartIdxSplits(log, at);
  }

  lemma CoveredIdx(f: State, at: Lsn)
    requires Shape(f) && LogOk(f) && Covered(f, at)
    ensures StartIdx(f.log, at) <= |f.frames|
  {
    hide GoodTx;
    StartIdxAtMost(f.log, at, |f.frames|);
  }

  /** A transaction the slot has not been moved past is within a new connection's reach. */
  lemma DialReaches(f: State, h: nat)
    requires Shape(f) && LogOk(f) && h < |f.log| && f.confirmed <= f.log[h].commit
    ensures StartIdx(f.log, f.confirmed) <= h
  {
    hide GoodTx;
    StartIdxAtMost(f.log, f.confirmed, h);
  }

  lemma LostSomething(f: State, id: nat)
    requires Shape(f) && StreamsOk(f) && IsWaiting(f, id)
    ensures f.emitted != []
  {
    assert StreamOk(f, id);
  }

  lemma DialConn(f: State)
    requires Shape(f) && LogOk(f) && ConnOk(f) && f.conn.Down?
    ensures Shape(Dial(f)) && ConnOk(Dial(f)) && f.shown == |f.emitted|
  {
    var g := Dial(f);
    var at := Max(if f.untried then f.resume else 0, f.confirmed);
    CoveredIdx(f, at);
    StartIdxSplits(f.log, at);
    hide GoodTx, Rows, Progress, RowEvents;
    assert g.conn.idx == StartIdx(f.log, at);
    assert TxOk(g) && OutboxOk(g);
  }

  lemma DialStart(f: State)
    requires Shape(f) && ConnOk(f) && f.emitted != []
    ensures !f.untried && Dial(f).conn.idx == StartIdx(f.log, f.confirmed) && Dial(f).conn.dec.acked == 0
  {
    hide TxOk, OutboxOk, StartIdx, Covered;
  }

  lemma DialOpen(f: State)
    requires Shape(f) && LogOk(f) && ConnOk(f) && OpenOk(f) && f.conn.Down?
    ensures Shape(Dial(f)) && OpenOk(Dial(f))
  {
    hide LogOk, ConnOk, Visible, StartIdx;
    if Open(f.emitted) {
      DialStart(f);
      DialReaches(f, f.openTx);
    }
  }

  lemma DialAnchored(f: State, id: nat)
    requires Shape(f) && LogOk(f) && ConnOk(f) && StreamsOk(f) && f.conn.Down? && IsWaiting(f, id)
    ensures Shape(Dial(f)) && Anchored(Dial(f), f.watches[id].hole) && PendOk(Dial(f), f.watches[id])
  {
    hide LogOk, ConnOk, StreamsOk, Visible, StartIdx;
    WaitingIsAnchored(f, id);
    LostSomething(f, id);
    DialStart(f);
    DialReaches(f, f.watches[id].hole);
  }

  lemma DialInv(f: State)
    requires Inv(f) && f.conn.Down?
    ensures Inv(Dial(f))
  {
    hide LogOk, ConnOk, OpenOk, StreamsOk, FramesOk, HubOk, StartIdx, Anchored, PendOk;
    var g := Dial(f);
    DialConn(f);
    DialOpen(f);
    LogCarries(f, g);
    forall id | IsWaiting(f, id) ensures Anchored(g, f.watches[id].hole) && PendOk(g, f.watches[id]) {
      DialAnchored(f, id);
    }
    ConnStep(f, g);
  }

  lemma CarryInv(f: State)
    requires Inv(f) && Enabled(f, Carry)
    ensures Inv(OnCarry(f))
  {
    hide Increasing, GoodTx, Rows, Progress, RowEvents, Visible, Open, FramesOk, HubOk;
    var g := OnCarry(f);
    assert LogOk(g) && OpenOk(g);
    assert TxOk(g) && OutboxOk(g);
    assert ConnOk(g);
    hide LogOk, OpenOk, ConnOk, TxOk, OutboxOk;
    forall id | IsWaiting(f, id) ensures Anchored(g, f.watches[id].hole) && PendOk(g, f.watches[id]) {
      WaitingIsAnchored(f, id);
    }
    hide StreamsOk;
    ConnStep(f, g);
  }

  lemma AckBase(f: State)
    requires Inv(f) && f.conn.Up? && f.shown == |f.emitted|
    ensures LogOk(Acknowledge(f)) && ConnOk(Acknowledge(f).(conn := Down))
    ensures OpenOk(Acknowledge(f)) && OpenOk(Acknowledge(f).(conn := Down))
    ensures forall id :: IsWaiting(f, id) ==> Anchored(Acknowledge(f), f.watches[id].hole) && PendOk(Acknowledge(f), f.watches[id])
  {
    hide StreamsOk, FramesOk, HubOk, LogOk, ConnOk, OpenOk, Anchored, PendOk, Acknowledge;
    AckLog(f);
    AckOpen(f);
    forall id | IsWaiting(f, id)
      ensures Anchored(Acknowledge(f), f.watches[id].hole) && PendOk(Acknowledge(f), f.watches[id])
    {
      WaitingIsAnchored(f, id);
      AckAnchored(f, f.watches[id]);
    }
  }

  lemma AckLog(f: State)
    requires Shape(f) && LogOk(f) && ConnOk(f) && f.conn.Up? && f.shown == |f.emitted|
    ensures Shape(Acknowledge(f)) && LogOk(Acknowledge(f)) && ConnOk(Acknowledge(f).(conn := Down))
  {
    hide Increasing, GoodTx, Visible, TxOk, OutboxOk;
  }

  lemma AckOpen(f: State)
    requires Shape(f) && OpenOk(f) && f.conn.Up?
    ensures OpenOk(Acknowledge(f)) && OpenOk(Acknowledge(f).(conn := Down))
  {
    hide Open, Visible;
  }

  lemma AckAnchored(f: State, w: Watch)
    requires Shape(f) && f.conn.Up? && Anchored(f, w.hole) && PendOk(f, w)
    ensures Anchored(Acknowledge(f), w.hole) && PendOk(Acknowledge(f), w)
  {
    hide Visible;
  }

  lemma AckConn(f: State, pc: Pc)
    requires Inv(f) && f.conn.Up? && f.shown == |f.emitted|
    requires pc == Receiving ==> f.conn.pc == Receiving
    requires pc == Reported ==> f.conn.pc == Checking && f.hub.releasable
    requires pc != Checking
    ensures ConnOk(Acknowledge(f).(conn := Acknowledge(f).conn.(pc := pc)))
  {
    var g := Acknowledge(f);
    g := g.(conn := g.conn.(pc := pc));
    hide GoodTx, Rows, Progress, RowEvents, Visible, Open, FramesOk, HubOk, OpenOk, StreamsOk;
    assert TxOk(g) && OutboxOk(g);
    hide TxOk, OutboxOk;
    assert ConnOk(g);
  }

  lemma ReportAnchored(f: State, w: Watch)
    requires Shape(f) && f.conn.Up? && f.conn.pc == Checking && f.hub.releasable && f.shown == |f.emitted|
    requires Anchored(f, w.hole) && PendOk(f, w)
    ensures Anchored(OnReport(f), w.hole) && PendOk(OnReport(f), w)
  {
    hide Visible;
    assert Settling(f) && Settling(OnReport(f));
  }

  lemma ReportOpen(f: State)
    requires Shape(f) && OpenOk(f) && f.conn.Up?
    ensures OpenOk(OnReport(f))
  {
    hide Open, Visible;
  }

  lemma ReportInv(f: State)
    requires Inv(f) && Enabled(f, Report)
    ensures Inv(OnReport(f))
  {
    var g := OnReport(f);
    hide LogOk, OpenOk, ConnOk, StreamsOk, FramesOk, HubOk, Anchored, PendOk;
    AckBase(f);
    AckConn(f, Reported);
    LogCarries(Acknowledge(f), g);
    ReportOpen(f);
    forall id | IsWaiting(f, id) ensures Anchored(g, f.watches[id].hole) && PendOk(g, f.watches[id]) {
      WaitingIsAnchored(f, id);
      ReportAnchored(f, f.watches[id]);
    }
    ConnStep(f, g);
  }

  lemma StandbyInv(f: State)
    requires Inv(f) && Enabled(f, Standby)
    ensures Inv(Acknowledge(f))
  {
    var g := Acknowledge(f);
    AckBase(f);
    AckConn(f, Receiving);
    assert g.conn.(pc := Receiving) == g.conn;
    hide Acknowledge, LogOk, OpenOk, ConnOk, StreamsOk, FramesOk, HubOk, Anchored, PendOk;
    ConnStep(f, g);
  }

  lemma DropConn(f: State, heard: bool)
    requires Inv(f) && Enabled(f, Drop(heard))
    ensures Shape(OnDrop(f, heard)) && LogOk(OnDrop(f, heard)) && ConnOk(OnDrop(f, heard)) && OpenOk(OnDrop(f, heard))
  {
    var g := OnDrop(f, heard);
    AckBase(f);
    hide OpenOk, LogOk, TxOk, OutboxOk, FramesOk, StreamsOk, HubOk, Anchored, PendOk, Covered;
    LogCarries(if heard then Acknowledge(f) else f, g);
    if !heard {
      DropOpen(f);
    }
  }

  lemma DropOpen(f: State)
    requires Shape(f) && OpenOk(f) && f.conn.Up?
    ensures OpenOk(f.(conn := Down))
  {
    hide Open, Visible;
  }

  lemma DropAnchored(f: State, heard: bool, w: Watch)
    requires Shape(f) && f.conn.Up? && Anchored(f, w.hole) && PendOk(f, w)
    ensures Anchored(OnDrop(f, heard), w.hole) && PendOk(OnDrop(f, heard), w)
  {
    hide Visible;
  }

  lemma DropInv(f: State, heard: bool)
    requires Inv(f) && Enabled(f, Drop(heard))
    ensures Inv(OnDrop(f, heard))
  {
    var g := OnDrop(f, heard);
    hide LogOk, OpenOk, ConnOk, StreamsOk, FramesOk, HubOk, Anchored, PendOk;
    DropConn(f, heard);
    forall id | IsWaiting(f, id) ensures Anchored(g, f.watches[id].hole) && PendOk(g, f.watches[id]) {
      WaitingIsAnchored(f, id);
      DropAnchored(f, heard, f.watches[id]);
    }
    ConnStep(f, g);
  }
}
