/** The steps in which the decoder takes one message from the server. */
module FeedReceive {
  import opened Wrappers
  import opened Wire
  import opened FeedEvents
  import opened DecoderSpec
  import opened Feed
  import opened FeedInvariant

  // Facts about emitted events.

  lemma {:induction false} RowsOfNone(evs: seq<Event>)
    requires forall j :: 0 <= j < |evs| ==> !evs[j].Schema?
    ensures Rows(evs) == evs
  {
    if evs != [] {
      RowsOfNone(evs[..|evs| - 1]);
    }
  }

  lemma {:induction false} OpenThroughChanges(before: seq<Event>, more: seq<Event>)
    requires Open(before) && forall j :: 0 <= j < |more| ==> !more[j].Commit?
    ensures Open(before + more)
  {
    if more == [] {
      assert before + more == before;
    } else {
      var front := more[..|more| - 1];
      OpenThroughChanges(before, front);
      assert (before + more)[..|before + more| - 1] == before + front;
    }
  }

  lemma ChangesInsideAppend(evs: seq<Event>, more: seq<Event>)
    requires ChangesInside(evs)
    requires forall j :: 0 <= j < |more| && more[j].Change? ==> Open(evs + more[..j])
    ensures ChangesInside(evs + more)
  {
    hide Open;
    var all := evs + more;
    forall j | 0 <= j < |all| && all[j].Change? ensures Open(all[..j]) {
      if j < |evs| {
        assert all[..j] == evs[..j];
      } else {
        assert all[..j] == evs + more[..j - |evs|];
      }
    }
  }

  /** Events whose rows are a begin and changes leave a transaction open, whatever came before them. */
  lemma {:induction false} OpenByRows(before: seq<Event>, evs: seq<Event>)
    requires Rows(evs) != [] && forall j :: 0 <= j < |Rows(evs)| ==> (if j == 0 then Rows(evs)[j].Begin? else Rows(evs)[j].Change?)
    ensures Open(before + evs)
  {
    var last, front := evs[|evs| - 1], evs[..|evs| - 1];
    assert (before + evs)[..|before + evs| - 1] == before + front;
    assert (before + evs)[|before + evs| - 1] == last;
    if last.Schema? {
      OpenByRows(before, front);
    } else {
      assert Rows(evs)[|Rows(evs)| - 1] == last;
      if last.Change? {
        assert Rows(front) == Rows(evs)[..|Rows(evs)| - 1];
        OpenByRows(before, front);
      }
    }
  }

  lemma {:induction false} RowEventsAreChanges(t: Tx, k: nat)
    requires k <= |t.rows|
    ensures forall j :: 0 <= j < |RowEvents(t, k)| ==> RowEvents(t, k)[j].Change?
  {
    if k > 0 {
      RowEventsAreChanges(t, k - 1);
    }
  }

  lemma {:induction false} VisibleOnceAny(t: Tx, k: nat, n: nat)
    requires k <= n <= |t.rows| && RowEvents(t, k) != []
    ensures RowEvents(t, n) != []
    decreases n - k
  {
    hide Bodies, ChangesOf;
    if k < n {
      VisibleOnceAny(t, k + 1, n);
    }
  }

  lemma {:induction false} TruncateAgrees(a: map<nat, Relation>, b: map<nat, Relation>, ids: seq<nat>)
    requires forall i :: 0 <= i < |ids| ==> ids[i] in a && ids[i] in b && a[ids[i]] == b[ids[i]]
    ensures TruncateBodies(a, ids) == TruncateBodies(b, ids)
  {
    if ids != [] {
      TruncateAgrees(a, b, ids[..|ids| - 1]);
    }
  }

  /** A row whose relations were announced decodes as the log has it. */
  lemma BodiesAgree(r: LogRow, announced: map<nat, Relation>)
    requires GoodRow(r) && Announced(r, announced)
    ensures Bodies(announced, r.msg) == Bodies(r.shapes, r.msg)
  {
    if r.msg.TruncateMsg? {
      assert forall i :: 0 <= i < |r.msg.ids| ==> r.msg.ids[i] in Ids(r.msg);
      TruncateAgrees(announced, r.shapes, r.msg.ids);
    }
  }

  // The shared part of the four steps.

  lemma ReceiveHub(f: State, g: State)
    requires Shape(f) && Shape(g) && HubOk(f) && f.shown == g.shown == |f.emitted|
    requires |f.emitted| <= |g.emitted| && f.emitted == g.emitted[..|f.emitted|]
    requires g.hub == f.hub && g.start == f.start && ChangesInside(g.emitted)
    ensures HubOk(g)
  {
    hide Open, ChangesInside;
    assert g.emitted[..g.shown] == f.emitted[..f.shown];
  }

  lemma ReceiveStep(f: State, g: State)
    requires Inv(f) && f.shown == |f.emitted| && Quiet(f, g)
    requires g.hub == f.hub && g.origin == f.origin
    requires LogOk(g) && ConnOk(g) && FramesOk(g) && OpenOk(g) && ChangesInside(g.emitted)
    requires NewFrameOk(f, g)
    requires forall id :: IsWaiting(f, id) ==> Anchored(g, f.watches[id].hole) && PendOk(g, f.watches[id])
    ensures Inv(g)
  {
    hide LogOk, ConnOk, OpenOk, FramesOk, StreamsOk, HubOk, Visible, Anchored, PendOk, ChangesInside;
    FrameEnds(f);
    ReceiveHub(f, g);
    StreamsCarry(f, g);
  }

  /** While the decoder waits for a message no stream is about to be released. */
  lemma IdleWaiting(f: State, id: nat)
    requires Inv(f) && Idle(f) && IsWaiting(f, id)
    ensures Ahead(f, f.watches[id].hole) && f.conn.idx <= f.watches[id].hole
    ensures f.watches[id].pendedIn <= f.epoch
    ensures f.watches[id].pendedIn == f.epoch ==>
      f.conn.idx == f.watches[id].hole && f.conn.sent.Some? && f.conn.sent.value > 0
  {
    hide LogOk, ConnOk, OpenOk, FramesOk, HubOk, Ahead;
    WaitingIsAnchored(f, id);
  }

  // Begin.

  lemma BeginConn(f: State)
    requires Inv(f) && Enabled(f, SendBegin)
    ensures Shape(OnBegin(f)) && ConnOk(OnBegin(f)) && OnBegin(f).emitted == f.emitted
  {
    hide FramesOk, StreamsOk, OpenOk, HubOk, Visible, GoodTx, Increasing;
    var g := OnBegin(f);
    assert f.emitted + [] == f.emitted;
    assert f.emitted[|f.emitted|..] == [];
    assert Rows([]) == [];
    assert TxOk(g);
    assert OutboxOk(g);
  }

  lemma BeginInv(f: State)
    requires Inv(f) && Enabled(f, SendBegin)
    ensures Inv(OnBegin(f))
  {
    var g := OnBegin(f);
    BeginConn(f);
    hide LogOk, GoodTx, Increasing, Visible, TxOk, OutboxOk, Rows, Progress, RowEvents, Open, FramesOk, StreamsOk;
    LogCarries(f, g);
    assert OpenOk(g);
    assert ChangesInside(g.emitted);
    forall id | IsWaiting(f, id) ensures Anchored(g, f.watches[id].hole) && PendOk(g, f.watches[id]) {
      IdleWaiting(f, id);
      hide LogOk, ConnOk, OpenOk, FramesOk, HubOk, StreamsOk;
    }
    hide LogOk, ConnOk, OpenOk, HubOk, StreamsOk, Open;
    FramesCarry(f, g);
    ReceiveStep(f, g);
  }

  // Relation.

  lemma RelationEmits(f: State, id: nat, rel: Relation, at: Lsn)
    requires f.conn.Up?
    ensures var more := Handle(f.conn.dec, RelationMsg(id, rel), at).1;
      && OnRelation(f, id, rel, at).emitted == f.emitted + more
      && |more| <= 1 && Rows(more) == [] && (more != [] ==> more[0].Schema?)
  {
    assert Rows([]) == [];
  }

  lemma RelationConn(f: State, id: nat, rel: Relation, at: Lsn)
    requires Inv(f) && Idle(f)
    ensures Shape(OnRelation(f, id, rel, at)) && ConnOk(OnRelation(f, id, rel, at))
  {
    hide Whole, FramesOk, StreamsOk, OpenOk, HubOk, Visible, GoodTx, Increasing, Progress, RowEvents;
    var g := OnRelation(f, id, rel, at);
    RelationEmits(f, id, rel, at);
    var more := Handle(f.conn.dec, RelationMsg(id, rel), at).1;
    if f.conn.sent.Some? {
      RowsConcat(f.emitted[f.conn.mark..], more);
      assert g.emitted[f.conn.mark..] == f.emitted[f.conn.mark..] + more;
    }
    hide Rows;
    assert TxOk(g);
    assert OutboxOk(g);
  }

  lemma SchemaKeepsOpen(evs: seq<Event>, more: seq<Event>)
    requires |more| <= 1 && (more != [] ==> more[0].Schema?)
    ensures Open(evs + more) == Open(evs)
    ensures ChangesInside(evs) ==> ChangesInside(evs + more)
  {
    if more == [] {
      assert evs + more == evs;
    } else {
      assert (evs + more)[..|evs|] == evs;
      if ChangesInside(evs) {
        ChangesInsideAppend(evs, more);
      }
    }
  }

  lemma RelationInv(f: State, id: nat, rel: Relation, at: Lsn)
    requires Inv(f) && Idle(f)
    ensures Inv(OnRelation(f, id, rel, at))
  {
    var g := OnRelation(f, id, rel, at);
    RelationConn(f, id, rel, at);
    RelationEmits(f, id, rel, at);
    SchemaKeepsOpen(f.emitted, Handle(f.conn.dec, RelationMsg(id, rel), at).1);
    hide LogOk, GoodTx, Increasing, Visible, TxOk, OutboxOk, Rows, Progress, RowEvents, Open, FramesOk, StreamsOk;
    LogCarries(f, g);
    assert OpenOk(g);
    assert ChangesInside(g.emitted);
    forall i | IsWaiting(f, i) ensures Anchored(g, f.watches[i].hole) && PendOk(g, f.watches[i]) {
      IdleWaiting(f, i);
      hide LogOk, ConnOk, OpenOk, FramesOk, HubOk, StreamsOk, ChangesInside;
    }
    hide LogOk, ConnOk, OpenOk, HubOk, StreamsOk, ChangesInside;
    FramesCarry(f, g);
    ReceiveStep(f, g);
  }

  // A row.

  predicate NoCommit(evs: seq<Event>) {
    forall j :: 0 <= j < |evs| ==> evs[j].Begin? || evs[j].Change?
  }

  /** What one row does: it adds the changes the log has for it, with the begin in front if they are the first. */
  predicate RowRel(f: State, g: State, t: Tx, k: nat, more: seq<Event>) {
    && f.conn.Up? && f.conn.idx < |f.log| && t == f.log[f.conn.idx] && f.conn.sent == Some(k) && k < |t.rows|
    && var was, now := RowEvents(t, k), RowEvents(t, k + 1);
       && g.conn == f.conn.(dec := f.conn.dec.(tx := TxState(t.xid, Some(t.commit), |now|, now != [])),
                            sent := Some(k + 1), pc := Checking)
       && g == f.(conn := g.conn, emitted := f.emitted + more,
                  openTx := if was == [] && now != [] then f.conn.idx else f.openTx,
                  openIn := if was == [] && now != [] then f.epoch else f.openIn)
       && NoCommit(more) && Progress(t, k + 1) == Progress(t, k) + more
       && (now == [] ==> more == [])
  }

  lemma EmittedRow(t: Tx, k: nat, tx: TxState, more: seq<Event>)
    requires k < |t.rows|
    requires tx == TxState(t.xid, Some(t.commit), |RowEvents(t, k)|, RowEvents(t, k) != [])
    requires more == Emitted(tx, t.rows[k].at, Bodies(t.rows[k].shapes, t.rows[k].msg))
    ensures AfterChanges(tx, |Bodies(t.rows[k].shapes, t.rows[k].msg)|)
         == TxState(t.xid, Some(t.commit), |RowEvents(t, k + 1)|, RowEvents(t, k + 1) != [])
    ensures NoCommit(more) && Progress(t, k + 1) == Progress(t, k) + more
    ensures RowEvents(t, k + 1) == [] ==> more == []
  {
    hide Bodies;
    var bodies := Bodies(t.rows[k].shapes, t.rows[k].msg);
    var cs := ChangesOf(tx, t.rows[k].at, bodies);
    assert cs == ChangesOf(TxOf(t), t.rows[k].at, bodies);
    assert RowEvents(t, k + 1) == RowEvents(t, k) + cs;
  }

  function RowMore(f: State): seq<Event>
    requires Enabled(f, SendRow)
  {
    Handle(f.conn.dec, f.log[f.conn.idx].rows[f.conn.sent.value].msg, f.log[f.conn.idx].rows[f.conn.sent.value].at).1
  }

  lemma RowHandled(d: DecoderState, t: Tx, k: nat)
    requires k < |t.rows| && GoodRow(t.rows[k]) && Announced(t.rows[k], d.relations)
    requires d.tx == TxState(t.xid, Some(t.commit), |RowEvents(t, k)|, RowEvents(t, k) != [])
    ensures var (d', more) := Handle(d, t.rows[k].msg, t.rows[k].at);
      && d' == d.(tx := TxState(t.xid, Some(t.commit), |RowEvents(t, k + 1)|, RowEvents(t, k + 1) != []))
      && NoCommit(more) && Progress(t, k + 1) == Progress(t, k) + more
      && (RowEvents(t, k + 1) == [] ==> more == [])
  {
    var row := t.rows[k];
    BodiesAgree(row, d.relations);
    HandleRowMsg(d, row.msg, row.at);
    hide Bodies, Announced, Progress, Handle, RowEvents, Emitted, IsRowMsg, AfterChanges, NoCommit;
    EmittedRow(t, k, d.tx, Handle(d, row.msg, row.at).1);
  }

  lemma RowIsRel(f: State)
    requires Shape(f) && Enabled(f, SendRow) && f.conn.announced == f.conn.dec.relations && TxOk(f)
    requires GoodTx(f.log[f.conn.idx])
    ensures RowRel(f, OnRow(f), f.log[f.conn.idx], f.conn.sent.value, RowMore(f))
  {
    hide Announced, Progress, Handle, RowEvents, NoCommit, GoodRow, Rows;
    RowHandled(f.conn.dec, f.log[f.conn.idx], f.conn.sent.value);
  }

  lemma HandleRowMsg(d: DecoderState, m: Msg, at: Lsn)
    requires IsRowMsg(m)
    ensures Handle(d, m, at) ==
      (d.(tx := AfterChanges(d.tx, |Bodies(d.relations, m)|)), Emitted(d.tx, at, Bodies(d.relations, m)))
  {
  }

  lemma RowConn(f: State, g: State, t: Tx, k: nat, more: seq<Event>)
    requires Shape(f) && ConnOk(f) && Idle(f) && RowRel(f, g, t, k, more)
    ensures Shape(g) && ConnOk(g)
  {
    hide RowEvents, Progress;
    var x := f.emitted[f.conn.mark..];
    assert g.emitted[f.conn.mark..] == x + more;
    RowsConcat(x, more);
    RowsOfNone(more);
    hide Rows;
    assert TxOk(g);
    assert OutboxOk(g);
    hide TxOk, OutboxOk, NoCommit;
  }

  /** A frame that has been opened on this connection is open. */
  lemma BegunIsOpen(evs: seq<Event>, mark: nat, t: Tx, k: nat)
    requires mark <= |evs| && k <= |t.rows| && RowEvents(t, k) != [] && Rows(evs[mark..]) == Progress(t, k)
    ensures Open(evs)
  {
    RowEventsAreChanges(t, k);
    hide RowEvents, Rows, Open;
    assert evs[..mark] + evs[mark..] == evs;
    OpenByRows(evs[..mark], evs[mark..]);
  }

  lemma RowChangesInside(evs: seq<Event>, mark: nat, t: Tx, k: nat, more: seq<Event>)
    requires mark <= |evs| && k < |t.rows| && Rows(evs[mark..]) == Progress(t, k)
    requires ChangesInside(evs) && NoCommit(more) && Progress(t, k + 1) == Progress(t, k) + more
    ensures ChangesInside(evs + more)
    ensures RowEvents(t, k + 1) != [] ==> Open(evs + more)
    ensures RowEvents(t, k) != [] ==> Open(evs)
  {
    if RowEvents(t, k) != [] {
      BegunIsOpen(evs, mark, t, k);
      hide RowEvents, Rows, Open, ChangesInside, Progress;
      forall j | 0 <= j <= |more| ensures Open(evs + more[..j]) {
        OpenThroughChanges(evs, more[..j]);
      }
      assert more[..|more|] == more;
      ChangesInsideAppend(evs, more);
    } else {
      RowEventsAreChanges(t, k + 1);
      assert more == Progress(t, k + 1);
      hide RowEvents, Rows, Open, ChangesInside;
      if more == [] {
        assert evs + more == evs;
      } else {
        OpeningRow(evs, more);
      }
    }
  }

  lemma OpeningRow(evs: seq<Event>, more: seq<Event>)
    requires ChangesInside(evs) && more != [] && more[0].Begin? && forall j :: 1 <= j < |more| ==> more[j].Change?
    ensures ChangesInside(evs + more) && Open(evs + more)
  {
    var b := more[0];
    assert Open(evs + [b]);
    hide Open;
    forall j | 1 <= j <= |more| ensures Open(evs + more[..j]) {
      OpenThroughChanges(evs + [b], more[1..j]);
      assert evs + [b] + more[1..j] == evs + more[..j];
    }
    assert more[..|more|] == more;
    ChangesInsideAppend(evs, more);
  }

  lemma RowOpen(f: State, g: State, t: Tx, k: nat, more: seq<Event>)
    requires Shape(f) && OpenOk(f) && RowRel(f, g, t, k, more) && Shape(g)
    requires f.conn.idx <= |f.frames| && f.confirmed <= t.commit && f.conn.dec.acked <= t.commit
    requires RowEvents(t, k + 1) != [] ==> Visible(t)
    requires RowEvents(t, k) != [] ==> Open(f.emitted)
    ensures OpenOk(g)
  {
    hide RowEvents, Progress, Visible, Open, NoCommit;
    if RowEvents(t, k + 1) == [] {
      assert g.emitted == f.emitted;
    }
  }

  lemma RowInv(f: State)
    requires Inv(f) && Enabled(f, SendRow)
    ensures Inv(OnRow(f))
  {
    var t, k, more := f.log[f.conn.idx], f.conn.sent.value, RowMore(f);
    assert GoodTx(t);
    hide LogOk, OpenOk, FramesOk, HubOk, StreamsOk, RowRel, GoodTx;
    RowIsRel(f);
    RowStep(f, OnRow(f), t, k, more);
  }

  lemma RowWaiting(f: State, g: State, t: Tx, k: nat, more: seq<Event>, id: nat)
    requires Inv(f) && Idle(f) && RowRel(f, g, t, k, more) && Shape(g) && IsWaiting(f, id)
    ensures Anchored(g, f.watches[id].hole) && PendOk(g, f.watches[id])
  {
    hide LogOk, ConnOk, OpenOk, FramesOk, HubOk, StreamsOk, RowEvents, Progress, Visible, NoCommit;
    IdleWaiting(f, id);
  }

  lemma RowStep(f: State, g: State, t: Tx, k: nat, more: seq<Event>)
    requires Inv(f) && Idle(f) && RowRel(f, g, t, k, more)
    ensures Inv(g)
  {
    hide LogOk, ConnOk, OpenOk, FramesOk, HubOk, StreamsOk, RowEvents, Progress, Visible, Open, NoCommit, ChangesInside;
    RowConn(f, g, t, k, more);
    RowFacts(f, g, t, k, more);
    RowOpen(f, g, t, k, more);
    LogCarries(f, g);
    forall i | IsWaiting(f, i) ensures Anchored(g, f.watches[i].hole) && PendOk(g, f.watches[i]) {
      RowWaiting(f, g, t, k, more, i);
    }
    hide Anchored, PendOk;
    assert g.emitted[..|f.emitted|] == f.emitted;
    FramesCarry(f, g);
    ReceiveStep(f, g);
  }

  lemma RowFacts(f: State, g: State, t: Tx, k: nat, more: seq<Event>)
    requires Inv(f) && Idle(f) && RowRel(f, g, t, k, more)
    ensures ChangesInside(g.emitted)
    ensures f.conn.idx <= |f.frames| && f.confirmed <= t.commit && f.conn.dec.acked <= t.commit
    ensures RowEvents(t, k + 1) != [] ==> Visible(t)
    ensures RowEvents(t, k) != [] ==> Open(f.emitted)
  {
    assert TxOk(f) && ChangesInside(f.emitted);
    if RowEvents(t, k + 1) != [] {
      VisibleOnceAny(t, k + 1, |t.rows|);
    }
    hide LogOk, FramesOk, HubOk, StreamsOk, OpenOk, RowEvents, Progress, Open, Rows, ChangesInside;
    RowChangesInside(f.emitted, f.conn.mark, t, k, more);
  }

  // Commit.

  predicate CommitRel(f: State, g: State, t: Tx, more: seq<Event>) {
    && f.conn.Up? && f.conn.idx < |f.log| && t == f.log[f.conn.idx] && f.conn.mark <= |f.emitted|
    && g.conn == f.conn.(dec := f.conn.dec.(tx := NO_TX, acked := t.commit), sent := None, pc := Checking,
                         idx := f.conn.idx + 1)
    && g == f.(conn := g.conn, emitted := f.emitted + more,
               frames := if f.conn.idx == |f.frames| then f.frames + [(f.conn.mark, |f.emitted + more|)] else f.frames)
    && (Visible(t) ==> |more| == 1 && more[0].Commit?) && (!Visible(t) ==> more == [])
    && Rows(f.emitted[f.conn.mark..]) + more == FrameOf(t)
  }

  function CommitMore(f: State): seq<Event>
    requires Enabled(f, SendCommit)
  {
    Handle(f.conn.dec, CommitMsg(f.log[f.conn.idx].commit), f.log[f.conn.idx].commit).1
  }

  lemma CommitIsRel(f: State)
    requires Enabled(f, SendCommit) && TxOk(f)
    ensures CommitRel(f, OnCommit(f), f.log[f.conn.idx], CommitMore(f))
  {
    hide RowEvents, Rows;
  }

  lemma CommitLog(f: State, g: State, t: Tx, more: seq<Event>)
    requires Shape(f) && LogOk(f) && CommitRel(f, g, t, more) && f.conn.idx <= |f.frames|
    ensures Shape(g) && LogOk(g)
  {
    hide GoodTx, Visible, Rows, FrameOf;
    assert Covered(g, f.confirmed);
  }

  lemma CommitConn(f: State, g: State, t: Tx, more: seq<Event>)
    requires Shape(f) && LogOk(f) && ConnOk(f) && Idle(f) && CommitRel(f, g, t, more) && Shape(g)
    ensures ConnOk(g)
  {
    hide GoodTx, Visible, Rows, FrameOf, RowEvents, Progress;
    assert TxOk(g);
    assert OutboxOk(g);
    hide TxOk, OutboxOk;
    assert g.conn.idx <= |g.frames|;
    assert Covered(g, g.conn.dec.acked) && Covered(g, g.conn.reported);
  }

  lemma FinishedFrame(evs: seq<Event>, mark: nat, more: seq<Event>, t: Tx)
    requires mark <= |evs| && Rows(evs[mark..]) + more == FrameOf(t) && forall j :: 0 <= j < |more| ==> !more[j].Schema?
    ensures Rows((evs + more)[mark..|evs + more|]) == FrameOf(t)
  {
    hide FrameOf;
    assert (evs + more)[mark..|evs + more|] == evs[mark..] + more;
    RowsConcat(evs[mark..], more);
    RowsOfNone(more);
  }

  lemma CommitFrames(f: State, g: State, t: Tx, more: seq<Event>)
    requires Shape(f) && FramesOk(f) && Idle(f) && CommitRel(f, g, t, more) && Shape(g)
    ensures FramesOk(g)
  {
    hide Visible, Rows, FrameOf;
    FinishedFrame(f.emitted, f.conn.mark, more, t);
    assert g.emitted[..|f.emitted|] == f.emitted;
    forall i | 0 <= i < |g.frames| ensures FrameAt(g, i) {
      if i < |f.frames| {
        assert FrameAt(f, i);
        SliceOfPrefix(f.emitted, g.emitted, f.frames[i].0, f.frames[i].1);
      }
    }
  }

  lemma CommitOrder(f: State, h: nat)
    requires Shape(f) && LogOk(f) && f.conn.Up? && f.conn.idx <= h < |f.log|
    ensures f.log[f.conn.idx].commit <= f.log[h].commit
  {
    hide GoodTx, Whole, Covered;
  }

  lemma CommitOpen(f: State, g: State, t: Tx, more: seq<Event>)
    requires Shape(f) && LogOk(f) && OpenOk(f) && CommitRel(f, g, t, more) && Shape(g)
    ensures OpenOk(g)
  {
    if Visible(t) {
      assert !Open(g.emitted);
    } else {
      assert g.emitted == f.emitted;
      hide GoodTx, Increasing, Visible, Rows, FrameOf, Open;
      if Open(f.emitted) {
        assert f.conn.idx != f.openTx;
        CommitOrder(f, f.openTx);
      }
    }
  }

  lemma CommitWaiting(f: State, g: State, t: Tx, more: seq<Event>, id: nat)
    requires Inv(f) && Idle(f) && CommitRel(f, g, t, more) && Shape(g) && IsWaiting(f, id)
    ensures Anchored(g, f.watches[id].hole) && PendOk(g, f.watches[id])
    ensures f.conn.idx == |f.frames| ==> f.watches[id].hole == |f.frames|
  {
    var h := f.watches[id].hole;
    IdleWaiting(f, id);
    CommitOrder(f, h);
    hide LogOk, ConnOk, OpenOk, FramesOk, HubOk, StreamsOk, Rows, FrameOf, Visible;
    assert h == f.conn.idx ==> Visible(t);
    assert Visible(t) ==> Settling(g);
  }

  lemma CommitChangesInside(f: State, g: State, t: Tx, more: seq<Event>)
    requires ChangesInside(f.emitted) && CommitRel(f, g, t, more)
    ensures ChangesInside(g.emitted)
  {
    hide ChangesInside, Open, Visible, Rows, FrameOf;
    ChangesInsideAppend(f.emitted, more);
  }

  lemma CommitStep(f: State, g: State, t: Tx, more: seq<Event>)
    requires Inv(f) && Idle(f) && CommitRel(f, g, t, more)
    ensures Inv(g)
  {
    CommitLog(f, g, t, more);
    CommitConn(f, g, t, more);
    CommitFrames(f, g, t, more);
    CommitOpen(f, g, t, more);
    CommitChangesInside(f, g, t, more);
    hide LogOk, ConnOk, OpenOk, HubOk, FramesOk, Rows, FrameOf, Visible, ChangesInside, Anchored, PendOk, StreamsOk;
    forall i | IsWaiting(f, i)
      ensures Anchored(g, f.watches[i].hole) && PendOk(g, f.watches[i])
      ensures f.conn.idx == |f.frames| ==> f.watches[i].hole == |f.frames|
    {
      CommitWaiting(f, g, t, more, i);
    }
    assert g.emitted[..|f.emitted|] == f.emitted;
    ReceiveStep(f, g);
  }

  lemma CommitInv(f: State)
    requires Inv(f) && Enabled(f, SendCommit)
    ensures Inv(OnCommit(f))
  {
    hide LogOk, OpenOk, FramesOk, HubOk, StreamsOk, CommitRel;
    CommitIsRel(f);
    CommitStep(f, OnCommit(f), f.log[f.conn.idx], CommitMore(f));
  }
}
