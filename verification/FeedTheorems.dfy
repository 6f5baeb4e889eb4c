/** What holds in every run of the feed. */
module FeedTheorems {
  import opened Wrappers
  import opened FeedEvents
  import opened DecoderSpec
  import opened HubSpec
  import opened Feed
  import opened FeedInvariant
  import opened FeedReceive
  import opened FeedPublish
  import opened FeedStreams

  lemma StepInv(f: State, s: Step)
    requires Inv(f) && Enabled(f, s)
    ensures Inv(Next(f, s))
  {
    hide Inv;
    match s
    case CommitTx(t) => CommitTxInv(f, t);
    case FailAttempt => FailAttemptInv(f);
    case Connect => DialInv(f);
    case SendBegin => BeginInv(f);
    case SendRelation(id, rel, at) => RelationInv(f, id, rel, at);
    case SendRow => RowInv(f);
    case SendCommit => CommitInv(f);
    case PublishNext => PublishInv(f);
    case Carry => CarryInv(f);
    case Report => ReportInv(f);
    case ReleaseStep => ReleaseInv(f);
    case Standby => StandbyInv(f);
    case Drop(heard) => DropInv(f, heard);
    case Join(since, capacity) => JoinInv(f, since, capacity);
    case ReadNext(id) => ReadInv(f, id);
    case Leave(id) => LeaveInv(f, id);
    case GiveUp(code) => GiveUpInv(f, if code == DecoderFailed then Error(code) else Resync(code));
  }

  lemma {:induction false} RunInv(f: State, steps: seq<Step>)
    requires Init(f)
    ensures Inv(Run(f, steps))
  {
    if steps == [] {
      InitInv(f);
    } else {
      RunInv(f, steps[..|steps| - 1]);
      var g := Run(f, steps[..|steps| - 1]);
      hide Inv;
      if Enabled(g, steps[|steps| - 1]) {
        StepInv(g, steps[|steps| - 1]);
      }
    }
  }

  // No silent gap.

  /** The whole frame of a transaction, in order and without a hole, among what a stream was given. */
  ghost predicate Delivered(w: Watch, t: Tx) {
    exists a, b :: 0 <= a <= b <= |w.got| && Rows(w.got[a..b]) == FrameOf(t)
  }

  /** Transaction `i` of the log had been published whole by the time `n` events had been. */
  predicate PublishedBy(f: State, i: nat, n: nat) {
    i < |f.frames| && f.frames[i].1 <= n
  }

  /** A visible transaction the stream's position does not cover, published whole while it was attached. */
  predicate Owed(f: State, w: Watch, i: nat) {
    && i < |f.log| && Visible(f.log[i]) && f.log[i].commit > w.since
    && PublishedBy(f, i, EndOf(w, f.shown))
  }

  lemma {:induction false} RowsMembers(evs: seq<Event>, e: Event)
    requires e in Rows(evs)
    ensures exists j :: 0 <= j < |evs| && evs[j] == e
  {
    if e in Rows(evs[..|evs| - 1]) {
      RowsMembers(evs[..|evs| - 1], e);
    } else {
      assert evs[|evs| - 1] == e;
    }
  }

  lemma FrameStartsWithBegin(t: Tx)
    requires Visible(t)
    ensures FrameOf(t) != [] && FrameOf(t)[0] == Begin(t.xid, t.commit)
  {
    hide RowEvents;
  }

  /** Events published before a stream attached hold nothing of a transaction above its position. */
  lemma EarlierHoldsNone(evs: seq<Event>, rest: seq<Event>, t: Tx, since: Lsn)
    requires Visible(t) && t.commit > since
    requires Rows(evs) + rest == FrameOf(t)
    requires forall j :: 0 <= j < |evs| && evs[j].Begin? ==> evs[j].commit <= since
    ensures Rows(evs) == []
  {
    FrameStartsWithBegin(t);
    if Rows(evs) != [] {
      hide FrameOf, Visible;
      var first := Rows(evs)[0];
      assert first == (Rows(evs) + rest)[0];
      RowsMembers(evs, first);
    }
  }

  /** Nothing of an owed transaction was published before the stream attached. */
  lemma FrameAfterJoin(emitted: seq<Event>, from: nat, a: nat, b: nat, t: Tx, since: Lsn)
    requires a <= b <= |emitted| && from <= |emitted| && Rows(emitted[a..b]) == FrameOf(t) && Visible(t)
    requires BeginsUpTo(emitted, from, since) && t.commit > since
    ensures from <= b && Rows(emitted[Max(a, from)..b]) == FrameOf(t)
  {
    FrameStartsWithBegin(t);
    if a < from {
      var m := if from < b then from else b;
      var head, tail := emitted[a..m], emitted[m..b];
      assert emitted[a..b] == head + tail;
      RowsConcat(head, tail);
      EarlierHoldsNone(head, Rows(tail), t, since);
      assert tail != [];
    }
  }

  /** What a stream can rely on having been given: everything up to its end, or up to its first loss. */
  function Solid(w: Watch, now: nat): nat {
    if w.lost.Some? then w.lost.value else EndOf(w, now)
  }

  lemma SolidIsGiven(s: Stream, w: Watch, emitted: seq<Event>, shown: nat)
    requires shown <= |emitted| && Kept(s, w, emitted, shown)
    ensures w.from <= Solid(w, shown) <= shown && Solid(w, shown) - w.from <= |w.got|
    ensures w.got[..Solid(w, shown) - w.from] == emitted[w.from..Solid(w, shown)]
    ensures w.lost.None? ==> w.got == emitted[w.from..EndOf(w, shown)]
  {
    hide Open;
  }

  lemma KeptOf(f: State, id: nat)
    requires Inv(f) && id in f.watches
    ensures id in f.hub.streams && f.shown <= |f.emitted| && Shape(f)
    ensures Kept(f.hub.streams[id], f.watches[id], f.emitted, f.shown)
    ensures WholeBut(f, f.watches[id])
    ensures f.watches[id].admitted ==>
      f.watches[id].since >= f.start && f.watches[id].from <= |f.emitted| &&
      BeginsUpTo(f.emitted, f.watches[id].from, f.watches[id].since)
  {
    hide Anchored, PendOk, WholeBut, ConnOk, OpenOk, FramesOk, HubOk, GoodTx, Increasing, Open;
    assert StreamOk(f, id);
  }

  lemma FrameOn(f: State, i: nat)
    requires Inv(f) && i < |f.frames|
    ensures FrameAt(f, i)
  {
    hide LogOk, ConnOk, OpenOk, HubOk, StreamsOk, FrameAt;
  }

  lemma SameSlice(got: seq<Event>, emitted: seq<Event>, from: nat, a: nat, b: nat, solid: nat)
    requires from <= a <= b <= solid <= |emitted| && solid - from <= |got|
    requires got[..solid - from] == emitted[from..solid]
    ensures got[a - from..b - from] == emitted[a..b]
  {
    forall k | 0 <= k < b - a ensures got[a - from..b - from][k] == emitted[a..b][k] {
      assert got[a - from + k] == got[..solid - from][a - from + k] == emitted[from..solid][a - from + k] == emitted[a + k];
    }
  }

  /** What is visible and above the start is sent by the feed. */
  lemma SinceOrigin(f: State, i: nat)
    requires i < |f.log| && Visible(f.log[i]) && f.log[i].commit > f.start && Inv(f)
    ensures f.log[i].commit >= f.origin
  {
    hide ConnOk, OpenOk, FramesOk, HubOk, StreamsOk, GoodTx, Increasing, Visible, Covered;
  }

  lemma FrameInGot(f: State, id: nat, i: nat)
    requires Inv(f) && id in f.watches && f.watches[id].admitted
    requires i < |f.frames| && Visible(f.log[i]) && f.log[i].commit > f.watches[id].since
    requires f.frames[i].1 <= Solid(f.watches[id], f.shown)
    ensures Delivered(f.watches[id], f.log[i])
  {
    var w := f.watches[id];
    KeptOf(f, id);
    FrameOn(f, i);
    SolidIsGiven(f.hub.streams[id], w, f.emitted, f.shown);
    SinceOrigin(f, i);
    hide Inv, WholeBut, Kept, BeginsUpTo, Visible, FrameOf, Rows, Delivered;
    DeliveredWhole(w, f.emitted, f.frames[i].0, f.frames[i].1, Solid(w, f.shown), f.log[i]);
  }

  lemma DeliveredWhole(w: Watch, emitted: seq<Event>, a: nat, b: nat, solid: nat, t: Tx)
    requires w.from <= solid && a <= b <= solid <= |emitted| && solid - w.from <= |w.got|
    requires w.got[..solid - w.from] == emitted[w.from..solid]
    requires Rows(emitted[a..b]) == FrameOf(t) && Visible(t) && t.commit > w.since && BeginsUpTo(emitted, w.from, w.since)
    ensures Delivered(w, t)
  {
    FrameAfterJoin(emitted, w.from, a, b, t, w.since);
    hide FrameOf, Rows, BeginsUpTo, Visible;
    var x := Max(a, w.from);
    SameSlice(w.got, emitted, w.from, x, b, solid);
    assert Rows(w.got[x - w.from..b - w.from]) == FrameOf(t);
  }

  /**
   No silent gap. In every run, a stream that attached at or above the floor has been given the whole
   frame of every visible transaction committed after its position and published while it was there,
   but for one: the transaction open when it first missed an event. That one is the last of the stream
   (every other was published whole before the miss), and the stream is then waiting to be told to
   refetch, or has ended. A stream that missed nothing was given every event, those of the
   transaction still open included.
   */
  lemma NoSilentGap(f0: State, steps: seq<Step>, id: nat, i: nat)
    requires Init(f0)
    requires id in Run(f0, steps).watches && Run(f0, steps).watches[id].admitted
    requires Owed(Run(f0, steps), Run(f0, steps).watches[id], i)
    ensures var f := Run(f0, steps);
      && id in f.hub.streams
      && var s, w := f.hub.streams[id], f.watches[id];
         && (w.lost.None? || i != w.hole ==> Delivered(w, f.log[i]))
         && (w.lost.Some? ==> s.done || s.pending == Resync(TxTooLarge))
         && (w.lost.Some? && i != w.hole ==> f.frames[i].1 <= w.lost.value)
  {
    RunInv(f0, steps);
    var f := Run(f0, steps);
    var w := f.watches[id];
    hide Run, Init, FrameOf, Visible, Open, Delivered;
    KeptOf(f, id);
    hide Inv;
    if w.lost.None? {
      FrameInGot(f, id, i);
    } else if i != w.hole {
      assert f.frames[i].1 <= EndOf(w, |f.emitted|);
      FrameInGot(f, id, i);
    }
  }

  /** A stream that missed nothing was given exactly what was published while it was attached. */
  lemma NothingElseIsGiven(f0: State, steps: seq<Step>, id: nat)
    requires Init(f0) && id in Run(f0, steps).watches && Run(f0, steps).watches[id].lost.None?
    ensures var f := Run(f0, steps);
      var w := f.watches[id];
      w.from <= EndOf(w, f.shown) <= |f.emitted| && w.got == f.emitted[w.from..EndOf(w, f.shown)]
  {
    RunInv(f0, steps);
    var f := Run(f0, steps);
    KeptOf(f, id);
    hide Run, Init, Open, Inv;
  }

  /**
   Nothing acknowledged to the server since the feed began, and so free to be discarded there, is missing from a
   stream that is attached and has lost nothing. (Between messages, when no event is on its way through the hub.)
   */
  lemma AcknowledgedIsDelivered(f0: State, steps: seq<Step>, id: nat, i: nat)
    requires Init(f0)
    requires var f := Run(f0, steps);
      && id in f.watches && f.watches[id].admitted && f.watches[id].lost.None? && f.watches[id].until.None?
      && f.shown == |f.emitted| && i < |f.log| && Visible(f.log[i])
      && f.watches[id].since < f.log[i].commit && f.origin < f.log[i].commit <= f.confirmed
    ensures Delivered(Run(f0, steps).watches[id], Run(f0, steps).log[i])
  {
    RunInv(f0, steps);
    var f := Run(f0, steps);
    hide Run, Init, FrameOf, Visible, Delivered;
    KeptOf(f, id);
    AcknowledgedIsHandled(f, i);
    FrameOn(f, i);
    hide Inv;
    FrameInGot(f, id, i);
  }

  lemma AcknowledgedIsHandled(f: State, i: nat)
    requires Inv(f) && i < |f.log| && f.origin < f.log[i].commit <= f.confirmed
    ensures i < |f.frames|
  {
    hide ConnOk, OpenOk, FramesOk, HubOk, StreamsOk, GoodTx;
  }

  /** What a reader takes from its buffer is what the stream was given, in order and from the front. */
  lemma BufferIsSuffix(f0: State, steps: seq<Step>, id: nat)
    requires Init(f0) && id in Run(f0, steps).watches
    ensures var f := Run(f0, steps);
      && id in f.hub.streams && |f.hub.streams[id].buffer| <= |f.watches[id].got|
      && f.hub.streams[id].buffer == f.watches[id].got[|f.watches[id].got| - |f.hub.streams[id].buffer|..]
  {
    RunInv(f0, steps);
    KeptOf(Run(f0, steps), id);
    hide Run, Init, Open, Inv;
  }

  // Overflow advice.

  /**
   A stream told that it overflowed, and so that it may resume with `?since=`, was given every change
   published while it was attached. One that missed a change is never told that: it waits to be told to
   refetch, unless it is closed for another reason first.
   */
  lemma OverflowAdviceIsSound(f0: State, steps: seq<Step>, id: nat, p: nat)
    requires Init(f0) && id in Run(f0, steps).watches
    requires var f := Run(f0, steps);
      f.watches[id].from <= p < EndOf(f.watches[id], f.shown) && p < |f.emitted| && f.emitted[p].Change?
    ensures var f := Run(f0, steps);
      && id in f.hub.streams
      && var s, w := f.hub.streams[id], f.watches[id];
         && (s.reason == Error(Overflow) ==> p - w.from < |w.got| && w.got[p - w.from] == f.emitted[p])
         && (w.lost == Some(p) ==> (s.done && s.reason != Error(Overflow)) || (!s.done && s.pending == Resync(TxTooLarge)))
  {
    hide Inv, Run, Init, WholeBut, Kept, BeginsUpTo;
    RunInv(f0, steps);
    var f := Run(f0, steps);
    KeptOf(f, id);
    assert f.shown <= |f.emitted|;
    KeptChange(f.hub.streams[id], f.watches[id], f.emitted, f.shown, p);
  }

  lemma KeptChange(s: Stream, w: Watch, emitted: seq<Event>, shown: nat, p: nat)
    requires shown <= |emitted| && Kept(s, w, emitted, shown)
    requires w.from <= p < EndOf(w, shown) && p < |emitted| && emitted[p].Change?
    ensures s.reason == Error(Overflow) ==> p - w.from < |w.got| && w.got[p - w.from] == emitted[p]
    ensures w.lost == Some(p) ==> (s.done && s.reason != Error(Overflow)) || (!s.done && s.pending == Resync(TxTooLarge))
  {
    hide Open;
    if s.reason == Error(Overflow) {
      var j := w.lost.value;
      assert w.got[..j - w.from][p - w.from] == emitted[w.from..j][p - w.from];
    }
  }

  // Acknowledging.

  /** Everything up to `p` came before the feed began or has been handled to its last message. */
  predicate Handled(f: State, origin: Lsn, p: Lsn) {
    p <= origin || (0 < |f.frames| <= |f.log| && p <= f.log[|f.frames| - 1].commit)
  }

  /** No position is reported, on this connection or any before it, until everything up to it has been handled. */
  lemma ReportedIsHandled(f0: State, steps: seq<Step>)
    requires Init(f0)
    ensures var f := Run(f0, steps);
      Handled(f, f0.origin, f.confirmed) && (f.conn.Up? ==> Handled(f, f0.origin, f.conn.reported))
  {
    RunInv(f0, steps);
    OriginFixed(f0, steps);
    hide Run, Init, OpenOk, FramesOk, HubOk, StreamsOk, Visible, TxOk, OutboxOk;
  }

  lemma {:induction false} OriginFixed(f: State, steps: seq<Step>)
    ensures Run(f, steps).origin == f.origin
  {
    if steps != [] {
      OriginFixed(f, steps[..|steps| - 1]);
      var g := Run(f, steps[..|steps| - 1]);
      if Enabled(g, steps[|steps| - 1]) {
        OriginStep(g, steps[|steps| - 1]);
      }
    }
  }

  lemma OriginStep(g: State, s: Step)
    requires Enabled(g, s)
    ensures Next(g, s).origin == g.origin
  {
    hide Handle, StartIdx, Publish, Subscribe;
  }
}
