/**
 Acknowledging, connection by connection: what has been reported when a stream that was held back is let go, and
 what a reconnect sends again.
 */
module FeedAck {
  import opened FeedEvents
  import opened DecoderSpec
  import opened HubSpec
  import opened Feed
  import opened FeedInvariant
  import opened FeedTheorems
  import opened FeedGaps

  // What a connection after the first has acknowledged.

  /** All that lies before the transaction the connection is at has been confirmed. */
  predicate AllConfirmed(f: State, n: nat) {
    n <= |f.log| && forall k :: 0 <= k < n ==> f.log[k].commit < f.confirmed
  }

  /** On a connection after the first: the commit it handled last, or nothing at all yet. */
  predicate Acks(f: State) {
    f.conn.Up? && f.epoch > 1 ==>
      || (0 < f.conn.idx <= |f.log| && f.conn.dec.acked == f.log[f.conn.idx - 1].commit)
      || (f.conn.dec.acked == 0 && AllConfirmed(f, f.conn.idx))
  }

  /** A begin is only ever emitted by a connection, and one that was made is numbered. */
  predicate Opened(f: State) {
    forall j :: 0 <= j < |f.emitted| && f.emitted[j].Begin? ==> f.openIn >= 1
  }

  /** A stream is held back only for a transaction some connection began. */
  predicate Pended(f: State) {
    forall id :: id in f.watches && f.watches[id].lost.Some? && f.watches[id].until.None? ==> f.watches[id].pendedIn >= 1
  }

  lemma HandleAcks(d: DecoderState, m: Msg, at: Lsn)
    ensures Handle(d, m, at).0.acked == if m.CommitMsg? then m.commit else d.acked
  {
  }

  lemma DialAcks(f: State)
    requires Increasing(f.log) && (f.untried ==> f.epoch == 0)
    ensures Acks(Dial(f))
  {
    StartIdxSplits(f.log, f.confirmed);
    hide StartIdx;
  }

  /** A message moves neither the connection nor what it has acknowledged, unless it is a commit. */
  predicate SameAck(f: State, g: State) {
    && f.conn.Up? && g.conn.Up? && g.epoch == f.epoch && g.log == f.log && g.confirmed == f.confirmed
    && g.conn.idx == f.conn.idx && g.conn.dec.acked == f.conn.dec.acked
  }

  lemma SendKeepsAck(f: State, s: Step)
    requires Enabled(f, s) && (s.SendBegin? || s.SendRelation? || s.SendRow?) && AllGood(f.log)
    ensures SameAck(f, Next(f, s))
  {
    hide GoodTx;
    match s
    case SendBegin =>
      var t := f.log[f.conn.idx];
      HandleAcks(f.conn.dec, BeginMsg(t.xid, t.commit), t.commit);
      hide Handle;
    case SendRelation(id, rel, at) =>
      HandleAcks(f.conn.dec, RelationMsg(id, rel), at);
      hide Handle;
    case SendRow =>
      var row := f.log[f.conn.idx].rows[f.conn.sent.value];
      assert GoodTx(f.log[f.conn.idx]);
      RowIsRow(f.log[f.conn.idx], f.conn.sent.value);
      HandleAcks(f.conn.dec, row.msg, row.at);
      hide Handle;
  }

  lemma RowIsRow(t: Tx, k: nat)
    requires GoodTx(t) && k < |t.rows|
    ensures IsRowMsg(t.rows[k].msg)
  {
    assert GoodRow(t.rows[k]);
  }

  lemma CommitAcks(f: State)
    requires Enabled(f, SendCommit)
    ensures Acks(OnCommit(f))
  {
    var t := f.log[f.conn.idx];
    HandleAcks(f.conn.dec, CommitMsg(t.commit), t.commit);
    hide Handle;
  }

  /** A step that neither dials nor handles a message. */
  lemma AcksCarry(f: State, g: State)
    requires Acks(f) && g.epoch == f.epoch && f.confirmed <= g.confirmed && |f.log| <= |g.log| && f.log == g.log[..|f.log|]
    requires g.conn.Up? ==> f.conn.Up? && g.conn.idx == f.conn.idx && g.conn.dec.acked == f.conn.dec.acked
    ensures Acks(g)
  {
    assert forall k :: 0 <= k < |f.log| ==> g.log[k] == f.log[k];
    if g.conn.Up? && AllConfirmed(f, f.conn.idx) {
      forall k | 0 <= k < f.conn.idx ensures g.log[k].commit < g.confirmed {
        assert f.log[k].commit < f.confirmed;
      }
    }
  }

  lemma StepAcks(f: State, s: Step)
    requires Enabled(f, s) && Acks(f) && Increasing(f.log) && AllGood(f.log) && (f.untried ==> f.epoch == 0)
    ensures Acks(Next(f, s))
  {
    hide Handle, StartIdx, Publish, GoodTx, AllGood, Increasing, Settle, Acks;
    match s
    case Connect => DialAcks(f);
    case SendBegin => SendKeepsAck(f, s); AcksCarry(f, Next(f, s));
    case SendRelation(_, _, _) => SendKeepsAck(f, s); AcksCarry(f, Next(f, s));
    case SendRow => SendKeepsAck(f, s); AcksCarry(f, Next(f, s));
    case SendCommit => CommitAcks(f);
    case ReleaseStep => SettleKeepsConn(f, ReleasePending(f.hub)); AcksCarry(f, Next(f, s));
    case Leave(id) => SettleKeepsConn(f, CloseStream(f.hub, id)); AcksCarry(f, Next(f, s));
    case GiveUp(code) =>
      SettleKeepsConn(f, Close(f.hub, if code == DecoderFailed then Error(code) else Resync(code)));
      AcksCarry(f, Next(f, s));
    case _ => AcksCarry(f, Next(f, s));
  }

  lemma SettleKeepsConn(f: State, hub: HubState)
    ensures var g := Settle(f, hub);
      g.conn == f.conn && g.log == f.log && g.confirmed == f.confirmed && g.epoch == f.epoch
      && g.emitted == f.emitted && g.openIn == f.openIn
  {
  }

  // Who is held back, and since which connection.

  lemma HandleOpens(d: DecoderState, m: Msg, at: Lsn)
    ensures var (e, evs) := Handle(d, m, at);
      forall j :: 0 <= j < |evs| && evs[j].Begin? ==> IsRowMsg(m) && e.tx.begun && !d.tx.begun
  {
    hide Bodies;
  }

  lemma ReceiveOpens(f: State, m: Msg, at: Lsn, g: State)
    requires f.conn.Up? && Opened(f) && g.emitted == f.emitted + Handle(f.conn.dec, m, at).1
    requires g.openIn >= f.openIn
    requires IsRowMsg(m) && Handle(f.conn.dec, m, at).0.tx.begun && !f.conn.dec.tx.begun ==> g.openIn >= 1
    ensures Opened(g)
  {
    HandleOpens(f.conn.dec, m, at);
    hide Handle;
    forall j | 0 <= j < |g.emitted| && g.emitted[j].Begin? ensures g.openIn >= 1 {
      if j < |f.emitted| {
        assert g.emitted[j] == f.emitted[j];
      } else {
        assert g.emitted[j] == Handle(f.conn.dec, m, at).1[j - |f.emitted|];
      }
    }
  }

  lemma RowOpens(f: State)
    requires Enabled(f, SendRow) && Opened(f) && 1 <= f.epoch && f.openIn <= f.epoch
    ensures Opened(OnRow(f))
  {
    var row := f.log[f.conn.idx].rows[f.conn.sent.value];
    hide Handle;
    ReceiveOpens(f, row.msg, row.at, OnRow(f));
  }

  lemma OtherOpens(f: State, s: Step)
    requires Enabled(f, s) && (s.SendBegin? || s.SendRelation? || s.SendCommit?) && Opened(f)
    ensures Opened(Next(f, s))
  {
    hide Handle;
    match s
    case SendBegin =>
      var t := f.log[f.conn.idx];
      ReceiveOpens(f, BeginMsg(t.xid, t.commit), t.commit, OnBegin(f));
    case SendRelation(id, rel, at) => ReceiveOpens(f, RelationMsg(id, rel), at, OnRelation(f, id, rel, at));
    case SendCommit =>
      var t := f.log[f.conn.idx];
      ReceiveOpens(f, CommitMsg(t.commit), t.commit, OnCommit(f));
  }

  lemma StepOpens(f: State, s: Step)
    requires Enabled(f, s) && Opened(f) && f.openIn <= f.epoch && (f.conn.Up? ==> 1 <= f.epoch)
    ensures Opened(Next(f, s))
  {
    hide Handle, StartIdx, Publish, GoodTx, Settle;
    match s
    case SendBegin => OtherOpens(f, s);
    case SendRelation(_, _, _) => OtherOpens(f, s);
    case SendRow => RowOpens(f);
    case SendCommit => OtherOpens(f, s);
    case ReleaseStep => SettleKeepsConn(f, ReleasePending(f.hub));
    case Leave(id) => SettleKeepsConn(f, CloseStream(f.hub, id));
    case GiveUp(code) => SettleKeepsConn(f, Close(f.hub, if code == DecoderFailed then Error(code) else Resync(code)));
    case _ =>
  }

  lemma {:induction false} OpenHasBegin(evs: seq<Event>)
    requires Open(evs)
    ensures exists j :: 0 <= j < |evs| && evs[j].Begin?
  {
    if !evs[|evs| - 1].Begin? {
      OpenHasBegin(evs[..|evs| - 1]);
      var j :| 0 <= j < |evs| - 1 && evs[..|evs| - 1][j].Begin?;
      assert evs[j].Begin?;
    }
  }

  lemma PublishPends(f: State)
    requires Enabled(f, PublishNext) && Pended(f) && Opened(f) && f.hub.inTx == Open(f.emitted[..f.shown])
    ensures Pended(OnPublish(f))
  {
    var ev := f.emitted[f.shown];
    var full := OverflowNotice(Note(f.hub, ev).inTx);
    if full == Resync(TxTooLarge) {
      if !ev.Begin? {
        OpenHasBegin(f.emitted[..f.shown]);
      }
      assert f.openIn >= 1;
    }
    hide Open, Opened, Publish;
  }

  lemma SettlePends(f: State, hub: HubState)
    requires Pended(f)
    ensures Pended(Settle(f, hub))
  {
  }

  lemma StepPends(f: State, s: Step)
    requires Enabled(f, s) && Pended(f) && Opened(f) && f.shown <= |f.emitted| && f.hub.inTx == Open(f.emitted[..f.shown])
    ensures Pended(Next(f, s))
  {
    hide Handle, StartIdx, Publish, GoodTx, Settle, Open, Opened, OnPublish;
    match s
    case PublishNext => PublishPends(f);
    case ReleaseStep =>
      SettlePends(f, ReleasePending(f.hub));
    case Leave(id) => SettlePends(f, CloseStream(f.hub, id));
    case GiveUp(code) => SettlePends(f, Close(f.hub, if code == DecoderFailed then Error(code) else Resync(code)));
    case _ =>
  }

  predicate AckInv(f: State) {
    Acks(f) && Opened(f) && Pended(f)
  }

  lemma InvFacts(f: State)
    requires Inv(f)
    ensures f.shown <= |f.emitted| && f.hub.inTx == Open(f.emitted[..f.shown]) && (f.untried ==> f.epoch == 0)
    ensures f.openIn <= f.epoch && (f.conn.Up? ==> 1 <= f.epoch)
  {
    hide LogOk, FramesOk, StreamsOk, Open, TxOk, OutboxOk, Visible, ChangesInside, BeginsUpTo, Covered;
  }

  lemma {:induction false} RunAcks(f: State, steps: seq<Step>)
    requires Init(f)
    ensures AckInv(Run(f, steps))
  {
    if steps != [] {
      var front, s := steps[..|steps| - 1], steps[|steps| - 1];
      RunAcks(f, front);
      RunInv(f, front);
      var g := Run(f, front);
      hide Inv, Init, Enabled, Next, Acks, Opened, Pended, IdsOk, AllGood;
      InvFacts(g);
      LogAndIds(g);
      if Enabled(g, s) {
        StepAcks(g, s);
        StepOpens(g, s);
        StepPends(g, s);
      }
    }
  }

  // At a release.

  /**
   When the decoder is about to release the streams it held back, the position it has just reported covers the
   transaction a stream overflowed in exactly when this connection has handled that transaction's commit (or the
   commit is at position zero, which every report covers). It has if the transaction was begun on this connection.
   */
  lemma AcknowledgedBeforeDetachIff(f0: State, steps: seq<Step>, id: nat)
    requires Init(f0)
    requires var f := Run(f0, steps); Enabled(f, ReleaseStep) && IsWaiting(f, id)
    ensures var f := Run(f0, steps);
      && f.conn.Up? && IsWaiting(f, id) && f.watches[id].hole < |f.log|
      && var w := f.watches[id];
         && (f.conn.reported >= f.log[w.hole].commit <==> f.conn.idx == w.hole + 1 || f.log[w.hole].commit == 0)
         && (w.pendedIn == f.epoch ==> f.conn.idx == w.hole + 1)
         && f.conn.reported <= f.log[w.hole].commit
  {
    hide Inv, Run, Init, AckInv;
    RunInv(f0, steps);
    RunAcks(f0, steps);
    ReleasedIff(Run(f0, steps), id);
  }

  /** What is known of the connection and of a stream it is about to release. */
  lemma AtRelease(f: State, id: nat)
    requires f.conn.Up? && f.conn.pc == Reported && IsWaiting(f, id) && Inv(f)
    ensures f.conn.reported == f.conn.dec.acked && Increasing(f.log)
    ensures var h := f.watches[id].hole;
      && h < |f.log| && f.confirmed <= f.log[h].commit && f.conn.dec.acked <= f.log[h].commit
      && f.conn.idx <= h + 1 && f.watches[id].pendedIn <= f.epoch && f.watches[id].until.None?
      && (f.watches[id].pendedIn == f.epoch ==> f.conn.idx == h + 1 && f.conn.dec.acked == f.log[h].commit)
  {
    assert StreamOk(f, id);
    EndedOrWaiting(f, id);
    WaitingIsAnchored(f, id);
    hide StreamsOk, OpenOk, FramesOk, HubOk, Visible, TxOk, OutboxOk, Increasing, Covered, Whole, GoodTx, StreamOk;
  }

  lemma NotConfirmed(f: State, n: nat, h: nat)
    requires AllConfirmed(f, n) && h < |f.log| && f.confirmed <= f.log[h].commit
    ensures n <= h
  {
  }

  lemma ReleasedIff(f: State, id: nat)
    requires f.conn.Up? && f.conn.pc == Reported && IsWaiting(f, id) && AckInv(f) && Inv(f)
    ensures var w := f.watches[id];
      && w.hole < |f.log|
      && (f.conn.reported >= f.log[w.hole].commit <==> f.conn.idx == w.hole + 1 || f.log[w.hole].commit == 0)
      && (w.pendedIn == f.epoch ==> f.conn.idx == w.hole + 1)
      && f.conn.reported <= f.log[w.hole].commit
  {
    hide Inv, Opened;
    AtRelease(f, id);
    var w := f.watches[id];
    assert w.pendedIn >= 1;
    if f.epoch > 1 && w.pendedIn != f.epoch {
      if f.conn.dec.acked == 0 && AllConfirmed(f, f.conn.idx) {
        NotConfirmed(f, f.conn.idx, w.hole);
      }
    }
  }

  // Reconnecting.

  /**
   What a reconnect sends again: a transaction is behind the feed exactly when the confirmed position is past its
   commit. The position acknowledged for a transaction is its commit itself, so the one acknowledged last is sent
   once more.
   */
  lemma ReconnectReplaysIff(f0: State, steps: seq<Step>, i: nat)
    requires Init(f0)
    requires var f := Run(f0, steps); f.conn.Down? && !f.untried && i < |f.log|
    ensures var f := Run(f0, steps);
      && (Dial(f).conn.idx > i <==> f.confirmed > f.log[i].commit)
      && (f.confirmed == f.log[i].commit ==> Dial(f).conn.idx == i)
  {
    RunInv(f0, steps);
    var f := Run(f0, steps);
    hide Run, Init;
    LogAndIds(f);
    hide Inv;
    ReplaysIff(f, i);
  }

  lemma ReplaysIff(f: State, i: nat)
    requires Increasing(f.log) && !f.untried && i < |f.log|
    ensures Dial(f).conn.idx > i <==> f.confirmed > f.log[i].commit
    ensures f.confirmed == f.log[i].commit ==> Dial(f).conn.idx == i
  {
    StartIdxSplits(f.log, f.confirmed);
    var k := StartIdx(f.log, f.confirmed);
    hide StartIdx;
    if k <= i {
      assert f.log[i].commit >= f.confirmed;
      assert f.confirmed == f.log[i].commit ==> k == i by { if k < i { assert f.log[k].commit < f.log[i].commit; } }
    } else {
      assert f.log[i].commit < f.confirmed;
    }
  }
}
