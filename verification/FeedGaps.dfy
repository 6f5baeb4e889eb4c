/**
 Where a gap would be. A transaction the connection is past is not sent again unless a connection is dialled that
 starts at or before it; so a stream that attaches too late for one, or a feed that begins too late for one, never
 gives it. These are the other halves of the conditions the feed's promise is proved from.
 */
module FeedGaps {
  import opened Wrappers
  import opened FeedEvents
  import opened DecoderSpec
  import opened HubSpec
  import opened Feed
  import opened FeedInvariant
  import opened FeedTheorems
  import opened FeedAdmission

  /** Streams and what is remembered of them go together, and the next id is a new one. */
  predicate IdsOk(f: State) {
    f.hub.streams.Keys == f.watches.Keys && forall id :: id in f.watches ==> id <= f.hub.nextId
  }

  predicate BeginsAbove(evs: seq<Event>, n: nat, c: Lsn) {
    forall j :: n <= j < |evs| && evs[j].Begin? ==> evs[j].commit > c
  }

  predicate AllGood(log: seq<Tx>) {
    forall k :: 0 <= k < |log| ==> GoodTx(log[k])
  }

  /** The connection is past transaction `i`, and nothing emitted from `n` on begins it. */
  predicate Past(f: State, i: nat, n: nat) {
    && i < |f.log| && Increasing(f.log) && AllGood(f.log) && n <= f.shown <= |f.emitted|
    && (f.conn.Up? ==>
          && i < f.conn.idx
          && (f.conn.dec.tx.commit.Some? ==> f.conn.dec.tx.commit.value > f.log[i].commit))
    && BeginsAbove(f.emitted, n, f.log[i].commit)
  }

  /** No stream from `m` on was given the begin of transaction `i`. */
  predicate Unseen(f: State, i: nat, m: nat) {
    IdsOk(f) && i < |f.log| && forall id :: id in f.watches && id >= m ==> BeginsAbove(f.watches[id].got, 0, f.log[i].commit)
  }

  lemma HandleBegins(d: DecoderState, m: Msg, at: Lsn, c: Lsn)
    requires d.tx.commit.Some? ==> d.tx.commit.value > c
    ensures BeginsAbove(Handle(d, m, at).1, 0, c)
    ensures var t := Handle(d, m, at).0.tx.commit;
      if m.BeginMsg? then t == Some(m.final) else if m.CommitMsg? then t == None else t == d.tx.commit
  {
    hide Bodies;
  }

  lemma AboveConcat(a: seq<Event>, b: seq<Event>, n: nat, c: Lsn)
    requires n <= |a| && BeginsAbove(a, n, c) && BeginsAbove(b, 0, c)
    ensures BeginsAbove(a + b, n, c)
  {
    forall j | n <= j < |a + b| && (a + b)[j].Begin? ensures (a + b)[j].commit > c {
      if j >= |a| {
        assert (a + b)[j] == b[j - |a|];
      }
    }
  }

  /** A message received by a connection past `i`, whatever it is but an earlier begin. */
  lemma ReceivePast(f: State, i: nat, n: nat, m: Msg, at: Lsn, g: State)
    requires Past(f, i, n) && f.conn.Up? && (m.BeginMsg? ==> m.final > f.log[i].commit)
    requires g.log == f.log && g.emitted == f.emitted + Handle(f.conn.dec, m, at).1 && g.shown == f.shown
    requires g.conn.Up? && g.conn.dec == Handle(f.conn.dec, m, at).0 && g.conn.idx >= f.conn.idx
    ensures Past(g, i, n)
  {
    HandleBegins(f.conn.dec, m, at, f.log[i].commit);
    hide Handle;
    AboveConcat(f.emitted, Handle(f.conn.dec, m, at).1, n, f.log[i].commit);
  }

  lemma DialPast(f: State, i: nat, n: nat)
    requires Past(f, i, n) && f.confirmed > f.log[i].commit
    ensures Past(Dial(f), i, n)
  {
    var at := Max(if f.untried then f.resume else 0, f.confirmed);
    StartIdxSplits(f.log, at);
    assert f.log[i].commit < at;
    assert StartIdx(f.log, at) > i;
    hide StartIdx;
  }

  lemma StepPast(f: State, s: Step, i: nat, n: nat)
    requires Enabled(f, s) && Past(f, i, n) && (s.Connect? ==> f.confirmed > f.log[i].commit)
    ensures Past(Next(f, s), i, n)
  {
    hide Handle, StartIdx, BeginsAbove, Publish, GoodTx, AllGood, Increasing;
    match s
    case CommitTx(t) => TxPast(f, i, n, t);
    case Connect => DialPast(f, i, n);
    case SendBegin => BeginPast(f, i, n);
    case SendRelation(id, rel, at) => ReceivePast(f, i, n, RelationMsg(id, rel), at, OnRelation(f, id, rel, at));
    case SendRow => RowPast(f, i, n);
    case SendCommit =>
      var t := f.log[f.conn.idx];
      ReceivePast(f, i, n, CommitMsg(t.commit), t.commit, OnCommit(f));
    case _ =>
  }

  lemma TxPast(f: State, i: nat, n: nat, t: Tx)
    requires Enabled(f, CommitTx(t)) && Past(f, i, n)
    ensures Past(OnTx(f, t), i, n)
  {
    hide GoodTx, BeginsAbove;
    var g := OnTx(f, t);
    assert forall k :: 0 <= k < |f.log| ==> g.log[k] == f.log[k];
  }

  lemma BeginPast(f: State, i: nat, n: nat)
    requires Enabled(f, SendBegin) && Past(f, i, n)
    ensures Past(OnBegin(f), i, n)
  {
    hide Handle, GoodTx;
    var t := f.log[f.conn.idx];
    ReceivePast(f, i, n, BeginMsg(t.xid, t.commit), t.commit, OnBegin(f));
  }

  lemma RowPast(f: State, i: nat, n: nat)
    requires Enabled(f, SendRow) && Past(f, i, n)
    ensures Past(OnRow(f), i, n)
  {
    var row := f.log[f.conn.idx].rows[f.conn.sent.value];
    assert GoodTx(f.log[f.conn.idx]) && GoodRow(row);
    hide Handle;
    ReceivePast(f, i, n, row.msg, row.at, OnRow(f));
  }

  lemma PublishUnseen(f: State, i: nat, n: nat, m: nat)
    requires Past(f, i, n) && Unseen(f, i, m) && Enabled(f, PublishNext)
    ensures Unseen(OnPublish(f), i, m)
  {
    var g := OnPublish(f);
    forall id | id in g.watches && id >= m ensures BeginsAbove(g.watches[id].got, 0, f.log[i].commit) {
      var w := f.watches[id];
      assert BeginsAbove(w.got, 0, f.log[i].commit);
      AboveConcat(w.got, [f.emitted[f.shown]], 0, f.log[i].commit);
    }
  }

  /** Steps that put nothing in a buffer. */
  lemma SettleUnseen(f: State, i: nat, m: nat, hub: HubState)
    requires Unseen(f, i, m) && hub.streams.Keys == f.hub.streams.Keys && hub.nextId == f.hub.nextId
    ensures Unseen(Settle(f, hub), i, m)
  {
    hide BeginsAbove;
  }

  lemma JoinUnseen(f: State, i: nat, m: nat, since: Lsn, capacity: nat)
    requires Unseen(f, i, m)
    ensures Unseen(OnJoin(f, since, capacity), i, m)
  {
    NoneAbove(f.log[i].commit);
    hide BeginsAbove;
  }

  lemma SameUnseen(f: State, g: State, i: nat, m: nat)
    requires Unseen(f, i, m) && g.watches == f.watches && g.hub.streams.Keys == f.hub.streams.Keys && g.hub.nextId == f.hub.nextId
    requires i < |g.log| && g.log[i] == f.log[i]
    ensures Unseen(g, i, m)
  {
    hide BeginsAbove;
  }

  lemma StepUnseen(f: State, s: Step, i: nat, n: nat, m: nat)
    requires Enabled(f, s) && Past(f, i, n) && Unseen(f, i, m)
    ensures Unseen(Next(f, s), i, m)
  {
    hide Unseen, Handle, StartIdx, BeginsAbove, Offer, Release, End, GoodTx, Settle;
    assert i < |f.log|;
    match s
    case PublishNext => PublishUnseen(f, i, n, m);
    case Join(since, capacity) => JoinUnseen(f, i, m, since, capacity);
    case Leave(id) => SettleUnseen(f, i, m, CloseStream(f.hub, id));
    case GiveUp(code) => SettleUnseen(f, i, m, Close(f.hub, if code == DecoderFailed then Error(code) else Resync(code)));
    case ReleaseStep =>
      SettleUnseen(f, i, m, ReleasePending(f.hub));
      SettleKeepsLog(f, ReleasePending(f.hub));
      SameUnseen(Settle(f, ReleasePending(f.hub)), Next(f, s), i, m);
    case _ => SameUnseen(f, Next(f, s), i, m);
  }

  lemma SettleKeepsLog(f: State, hub: HubState)
    ensures Settle(f, hub).log == f.log && Settle(f, hub).hub == hub
  {
  }

  lemma NoneAbove(c: Lsn)
    ensures BeginsAbove([], 0, c)
  {
  }

  predicate NoConnect(steps: seq<Step>) {
    forall k :: 0 <= k < |steps| ==> !steps[k].Connect?
  }

  lemma StepKeeps(f: State, s: Step)
    requires Enabled(f, s)
    ensures var g := Next(f, s); g.confirmed >= f.confirmed && |g.log| >= |f.log| && g.log[..|f.log|] == f.log
  {
    hide Handle, StartIdx, Publish;
  }

  /** What a connection is past stays so, and unseen, over any run that dials no connection at or before it. */
  lemma {:induction false} RunPast(f: State, steps: seq<Step>, i: nat, n: nat, m: nat)
    requires Past(f, i, n) && Unseen(f, i, m) && (f.confirmed > f.log[i].commit || NoConnect(steps))
    ensures var g := Run(f, steps);
      Past(g, i, n) && Unseen(g, i, m) && g.log[i] == f.log[i] && g.confirmed >= f.confirmed
  {
    hide Past, Unseen, Enabled, Next;
    if steps != [] {
      var front, s := steps[..|steps| - 1], steps[|steps| - 1];
      assert NoConnect(steps) ==> NoConnect(front) && !s.Connect?;
      assert i < |f.log| by { InLog(f, i, n); }
      RunPast(f, front, i, n, m);
      var g := Run(f, front);
      InLog(g, i, n);
      if Enabled(g, s) {
        StepPast(g, s, i, n);
        StepUnseen(g, s, i, n, m);
        StepKeeps(g, s);
        InLog(Next(g, s), i, n);
        assert Next(g, s).log[i] == g.log[i];
      }
    }
  }

  lemma InLog(f: State, i: nat, n: nat)
    requires Past(f, i, n)
    ensures i < |f.log|
  {
  }

  lemma UnseenIsNotDelivered(f: State, i: nat, m: nat, id: nat)
    requires Unseen(f, i, m) && id in f.watches && id >= m && Visible(f.log[i])
    ensures !Delivered(f.watches[id], f.log[i])
  {
    var got := f.watches[id].got;
    FrameStartsWithBegin(f.log[i]);
    hide FrameOf, Visible;
    forall a, b | 0 <= a <= b <= |got| ensures Rows(got[a..b]) != FrameOf(f.log[i]) {
      if Rows(got[a..b]) == FrameOf(f.log[i]) {
        RowsMembers(got[a..b], FrameOf(f.log[i])[0]);
      }
    }
  }

  // Attaching below the floor.

  /** An event on its way that begins a transaction begins the one being decoded. */
  predicate Queued(f: State) {
    forall j :: f.shown <= j < |f.emitted| && f.emitted[j].Begin? ==>
      f.conn.Up? && f.conn.dec.tx.commit == Some(f.emitted[j].commit)
  }

  lemma HandleQueues(d: DecoderState, m: Msg, at: Lsn)
    ensures var (e, evs) := Handle(d, m, at);
      forall j :: 0 <= j < |evs| && evs[j].Begin? ==> e.tx.commit == Some(evs[j].commit)
  {
    hide Bodies;
  }

  lemma ReceiveQueues(f: State, m: Msg, at: Lsn, g: State)
    requires f.conn.Up? && f.shown == |f.emitted| && g.shown == f.shown
    requires g.emitted == f.emitted + Handle(f.conn.dec, m, at).1 && g.conn.Up? && g.conn.dec == Handle(f.conn.dec, m, at).0
    ensures Queued(g)
  {
    HandleQueues(f.conn.dec, m, at);
    hide Handle;
    var evs := Handle(f.conn.dec, m, at).1;
    forall j | g.shown <= j < |g.emitted| && g.emitted[j].Begin? ensures g.conn.dec.tx.commit == Some(g.emitted[j].commit) {
      assert g.emitted[j] == evs[j - |f.emitted|];
    }
  }

  lemma StepQueues(f: State, s: Step)
    requires Queued(f) && Enabled(f, s) && (f.conn.Down? ==> f.shown == |f.emitted|)
    ensures Queued(Next(f, s))
  {
    hide Handle, StartIdx, Publish;
    match s
    case SendBegin =>
      var t := f.log[f.conn.idx];
      ReceiveQueues(f, BeginMsg(t.xid, t.commit), t.commit, OnBegin(f));
    case SendRelation(id, rel, at) => ReceiveQueues(f, RelationMsg(id, rel), at, OnRelation(f, id, rel, at));
    case SendRow =>
      var row := f.log[f.conn.idx].rows[f.conn.sent.value];
      ReceiveQueues(f, row.msg, row.at, OnRow(f));
    case SendCommit =>
      var t := f.log[f.conn.idx];
      ReceiveQueues(f, CommitMsg(t.commit), t.commit, OnCommit(f));
    case _ =>
  }

  lemma DownIsQuiet(f: State)
    requires Inv(f)
    ensures f.conn.Down? ==> f.shown == |f.emitted|
  {
    hide LogOk, FramesOk, HubOk, OpenOk, StreamsOk, TxOk, OutboxOk;
  }

  lemma {:induction false} RunQueues(f: State, steps: seq<Step>)
    requires Init(f)
    ensures Queued(Run(f, steps))
  {
    if steps != [] {
      var front := steps[..|steps| - 1];
      RunQueues(f, front);
      RunInv(f, front);
      hide Inv, Queued, Enabled, Next, Init;
      DownIsQuiet(Run(f, front));
      if Enabled(Run(f, front), steps[|steps| - 1]) {
        StepQueues(Run(f, front), steps[|steps| - 1]);
      }
    }
  }

  lemma TxIsNext(f: State)
    requires Inv(f) && f.conn.Up? && f.conn.dec.tx.commit.Some?
    ensures f.conn.idx < |f.log| && f.conn.dec.tx.commit.value == f.log[f.conn.idx].commit
  {
    hide LogOk, FramesOk, HubOk, OpenOk, StreamsOk, OutboxOk, Rows, Progress, RowEvents;
  }

  lemma LogAndIds(f: State)
    requires Inv(f)
    ensures Increasing(f.log) && AllGood(f.log) && f.shown <= |f.emitted| && IdsOk(f)
  {
    hide ConnOk, FramesOk, OpenOk, StreamsOk, Open, ChangesInside, BeginsUpTo, GoodTx, Whole, Covered;
  }

  lemma JoinIsPast(f: State, since: Lsn, capacity: nat, i: nat)
    requires Queued(f) && i < |f.log| && (f.conn.Up? ==> f.conn.idx > i) && Inv(f)
    ensures var g := OnJoin(f, since, capacity);
      Past(g, i, f.shown) && Unseen(g, i, f.hub.nextId + 1)
  {
    hide Inv, AllGood;
    LogAndIds(f);
    if f.conn.Up? && f.conn.dec.tx.commit.Some? {
      TxIsNext(f);
    }
    assert BeginsAbove(f.emitted, f.shown, f.log[i].commit);
  }

  /**
   Attaching below the floor. The stream opened with a position that a published visible transaction is above, when
   the connection is past that transaction, is never given it, in any run after that dials no connection at or before
   it; whatever else it is given, it is not told. So a floor read before the stream attaches, and passed by a publish in
   between, is not enough: `since >= floor` at the moment of attaching is.
   */
  lemma JoinBelowFloorMisses(f0: State, steps: seq<Step>, since: Lsn, capacity: nat, i: nat, more: seq<Step>)
    requires var f := Run(f0, steps);
      && PublishedBy(f, i, f.shown) && i < |f.log| && Visible(f.log[i]) && since < f.log[i].commit
      && (f.conn.Up? ==> f.conn.idx > i) && (NoConnect(more) || f.confirmed > f.log[i].commit)
    requires Init(f0)
    ensures var f := Run(f0, steps);
      var g := Run(OnJoin(f, since, capacity), more);
      var id := f.hub.nextId + 1;
      && since < f.hub.floor && i < |g.log| && g.log[i] == f.log[i]
      && id in g.watches && !Delivered(g.watches[id], f.log[i])
  {
    hide Inv, Init, Queued, Delivered, Visible, Run;
    RunInv(f0, steps);
    RunQueues(f0, steps);
    JoinedMisses(Run(f0, steps), since, capacity, i, more);
  }

  lemma JoinedMisses(f: State, since: Lsn, capacity: nat, i: nat, more: seq<Step>)
    requires PublishedBy(f, i, f.shown) && i < |f.log| && Visible(f.log[i]) && since < f.log[i].commit
    requires (f.conn.Up? ==> f.conn.idx > i) && (NoConnect(more) || f.confirmed > f.log[i].commit)
    requires Queued(f) && Inv(f)
    ensures var g := Run(OnJoin(f, since, capacity), more);
      var id := f.hub.nextId + 1;
      && since < f.hub.floor && i < |g.log| && g.log[i] == f.log[i]
      && id in g.watches && !Delivered(g.watches[id], f.log[i])
  {
    hide Inv, Queued, Past, Visible, Delivered, Unseen, Run, NoConnect;
    PublishedIsBelowFloor(f, i);
    JoinIsPast(f, since, capacity, i);
    var j := OnJoin(f, since, capacity);
    var id := f.hub.nextId + 1;
    assert id in j.watches && id in j.hub.streams && j.log == f.log && j.confirmed == f.confirmed;
    hide OnJoin;
    RunPast(j, more, i, f.shown, id);
    InLog(Run(j, more), i, f.shown);
    RunKeepsStreams(j, more, id);
    UnseenIsNotDelivered(Run(j, more), i, id, id);
  }

  lemma StepKeepsStreams(f: State, s: Step, id: nat)
    requires Enabled(f, s) && id in f.watches && id in f.hub.streams
    ensures id in Next(f, s).watches && id in Next(f, s).hub.streams
  {
    hide Handle, StartIdx, Offer, Release, End, WatchOffer, AnyWaiting;
  }

  lemma {:induction false} RunKeepsStreams(f: State, steps: seq<Step>, id: nat)
    requires id in f.watches && id in f.hub.streams
    ensures id in Run(f, steps).watches && id in Run(f, steps).hub.streams
  {
    hide Enabled, Next;
    if steps != [] {
      RunKeepsStreams(f, steps[..|steps| - 1], id);
      var g, s := Run(f, steps[..|steps| - 1]), steps[|steps| - 1];
      if Enabled(g, s) {
        StepKeepsStreams(g, s, id);
      }
    }
  }

  // A feed that begins above its floor.

  lemma StartingIsPast(f: State, i: nat)
    requires Starting(f) && i < |f.log|
    ensures Past(f, i, 0) && Unseen(f, i, 0)
  {
    hide StartIdx, GoodTx;
  }

  /**
   A transaction committed below the slot's confirmed position when the feed starts is never sent, by any connection
   of any run, to any stream: one attached with a position below it is not told, and never has it.
   */
  lemma LateSlotSkips(f0: State, steps: seq<Step>, id: nat, i: nat)
    requires Starting(f0) && i < |f0.log| && Visible(f0.log[i]) && f0.log[i].commit < f0.confirmed
    requires id in Run(f0, steps).watches
    ensures !Delivered(Run(f0, steps).watches[id], f0.log[i])
  {
    StartingIsPast(f0, i);
    hide Past, Starting, Visible, Delivered;
    RunPast(f0, steps, i, 0, 0);
    InLog(Run(f0, steps), i, 0);
    UnseenIsNotDelivered(Run(f0, steps), i, 0, id);
  }
}
