/** The decoder as the program keeps it: a relation cache, the open transaction, and a hub to publish to. */
module Decoder {
  import opened Wrappers
  import opened Wire
  import opened FeedEvents
  import opened DecoderSpec
  import opened SessionSpec
  import HubSpec
  import Hub

  class Decoder {
    const hub: Hub.Hub
    var relations: map<nat, Relation>
    var tx: TxState
    var acked: Lsn

    constructor (hub: Hub.Hub)
      ensures this.hub == hub && State() == DecoderState(map[], NO_TX, 0)
    {
      this.hub := hub;
      relations, tx, acked := map[], NO_TX, 0;
    }

    function State(): DecoderState
      reads this
    {
      DecoderState(relations, tx, acked)
    }

    /** Publishes one event after those already published since `h0`. */
    method Send(ev: Event, ghost h0: HubSpec.HubState, ghost sofar: seq<Event>)
      requires hub.Valid() && hub.View() == HubSpec.PublishAll(h0, sofar)
      modifies hub, hub.all.Values
      ensures hub.Valid() && hub.all == old(hub.all)
      ensures hub.View() == HubSpec.PublishAll(h0, sofar + [ev])
    {
      hub.Publish(ev);
      assert (sofar + [ev])[..|sofar|] == sofar;
    }

    /** Publishes one change, opening the transaction's frame if this is its first. */
    method PublishChange(body: RowChange, record: Lsn, ghost h0: HubSpec.HubState, ghost sofar: seq<Event>)
      requires hub.Valid() && hub.View() == HubSpec.PublishAll(h0, sofar)
      modifies `tx, hub, hub.all.Values
      ensures hub.Valid() && hub.all == old(hub.all)
      ensures tx == AfterChanges(old(tx), 1)
      ensures hub.View() == HubSpec.PublishAll(h0, sofar + Emitted(old(tx), record, [body]))
    {
      hide HubSpec.PublishAll, Hub.Hub.View, Hub.Hub.Valid;
      ghost var change := ChangeOf(tx, record, body);
      ghost var done := sofar;
      assert ChangesOf(tx, record, [body]) == [change];
      ghost var evs := Emitted(tx, record, [body]);
      var t := tx;
      tx := tx.(begun := tx.begun || tx.commit.Some?, changes := tx.changes + 1);
      if t.commit.Some? && !t.begun {
        Send(Begin(t.xid, t.commit.value), h0, sofar);
        done := sofar + [Begin(t.xid, t.commit.value)];
      }
      assert sofar + evs == done + [change];
      Send(Change(t.xid, Stamp(t, record), record, body), h0, done);
    }

    method TruncateAll(ids: seq<nat>, record: Lsn, ghost h0: HubSpec.HubState)
      requires hub.Valid() && hub.View() == h0
      modifies `tx, hub, hub.all.Values
      ensures hub.Valid() && hub.all == old(hub.all)
      ensures tx == AfterChanges(old(tx), |TruncateBodies(relations, ids)|)
      ensures hub.View() == HubSpec.PublishAll(h0, Emitted(old(tx), record, TruncateBodies(relations, ids)))
    {
      hide HubSpec.PublishAll;
      assert HubSpec.PublishAll(h0, []) == h0 by { HubSpec.PublishAllNone(h0); }
      ghost var tx0 := tx;
      ghost var sofar: seq<Event>, bodies := [], TruncateBodies(relations, ids[..0]);
      for i := 0 to |ids|
        invariant hub.Valid() && hub.all == old(hub.all)
        invariant bodies == TruncateBodies(relations, ids[..i])
        invariant tx == AfterChanges(tx0, |bodies|) && sofar == Emitted(tx0, record, bodies)
        invariant hub.View() == HubSpec.PublishAll(h0, sofar)
      {
        assert ids[..i + 1][..i] == ids[..i];
        if ids[i] in relations {
          var body := BuildChange(relations[ids[i]], Truncate, [], []);
          ghost var more := Emitted(tx, record, [body]);
          EmittedConcat(tx0, record, bodies, body);
          PublishChange(body, record, h0, sofar);
          sofar, bodies := sofar + more, bodies + [body];
        }
      }
      assert ids[..|ids|] == ids;
    }

    method PublishRow(id: nat, action: Action, oldTuple: seq<ColumnValue>, newTuple: seq<ColumnValue>, record: Lsn)
      requires hub.Valid()
      modifies `tx, hub, hub.all.Values
      ensures hub.Valid() && hub.all == old(hub.all)
      ensures id !in relations ==> tx == old(tx) && hub.View() == old(hub.View())
      ensures id in relations ==> tx == AfterChanges(old(tx), 1)
      ensures id in relations ==>
        var body := BuildChange(relations[id], action, oldTuple, newTuple);
        hub.View() == HubSpec.PublishAll(old(hub.View()), Emitted(old(tx), record, [body]))
    {
      if id in relations {
        var body := BuildChange(relations[id], action, oldTuple, newTuple);
        hide HubSpec.PublishAll;
        HubSpec.PublishAllNone(hub.View());
        assert [] + Emitted(tx, record, [body]) == Emitted(tx, record, [body]);
        PublishChange(body, record, hub.View(), []);
      }
    }

    method HandleRow(m: Msg, record: Lsn)
      requires hub.Valid() && IsRowMsg(m)
      modifies `tx, hub, hub.all.Values
      ensures hub.Valid() && hub.all == old(hub.all)
      ensures tx == AfterChanges(old(tx), |Bodies(relations, m)|)
      ensures hub.View() == HubSpec.PublishAll(old(hub.View()), Emitted(old(tx), record, Bodies(relations, m)))
    {
      ghost var h0 := hub.View();
      hide HubSpec.PublishAll;
      HubSpec.PublishAllNone(h0);
      assert Emitted(tx, record, []) == [];
      match m {
        case InsertMsg(id, tuple) =>
          PublishRow(id, Insert, [], tuple, record);
        case UpdateMsg(id, oldTuple, newTuple) =>
          PublishRow(id, Update, oldTuple, newTuple, record);
        case DeleteMsg(id, oldTuple) =>
          PublishRow(id, Delete, oldTuple, [], record);
        case TruncateMsg(ids) =>
          TruncateAll(ids, record, h0);
      }
    }

    /** Announces a shape, but only one the stream has not already described. */
    method HandleRelation(id: nat, rel: Relation)
      requires hub.Valid()
      modifies `relations, hub, hub.all.Values
      ensures hub.Valid() && hub.all == old(hub.all)
      ensures relations == old(relations)[id := rel]
      ensures hub.View() == HubSpec.PublishAll(old(hub.View()),
        if id in old(relations) && SameShape(old(relations)[id], rel) then [] else [Schema(Qualified(rel), rel.columns)])
    {
      hide HubSpec.PublishAll, Hub.Hub.View, Hub.Hub.Valid, SameShape;
      ghost var h0 := hub.View();
      HubSpec.PublishAllNone(h0);
      var known := id in relations && SameShape(relations[id], rel);
      relations := relations[id := rel];
      if !known {
        var ev := Schema(Qualified(rel), rel.columns);
        assert [] + [ev] == [ev];
        Send(ev, h0, []);
      }
    }

    /** Closes the frame if one was opened; only then is the position safe to acknowledge. */
    method HandleCommit(commit: Lsn)
      requires hub.Valid()
      modifies `tx, `acked, hub, hub.all.Values
      ensures hub.Valid() && hub.all == old(hub.all)
      ensures tx == NO_TX && acked == commit
      ensures hub.View() == HubSpec.PublishAll(old(hub.View()),
        if old(tx).begun then [Commit(old(tx).xid, commit, old(tx).changes)] else [])
    {
      hide HubSpec.PublishAll, Hub.Hub.View, Hub.Hub.Valid;
      ghost var h0 := hub.View();
      HubSpec.PublishAllNone(h0);
      if tx.begun {
        var ev := Commit(tx.xid, commit, tx.changes);
        assert [] + [ev] == [ev];
        Send(ev, h0, []);
      }
      tx := NO_TX;
      acked := commit;
    }

    method HandleMessage(m: Msg, record: Lsn)
      requires hub.Valid()
      modifies this, hub, hub.all.Values
      ensures hub.Valid() && hub.all == old(hub.all)
      ensures State() == Handle(old(State()), m, record).0
      ensures hub.View() == HubSpec.PublishAll(old(hub.View()), Handle(old(State()), m, record).1)
    {
      hide HubSpec.PublishAll, Hub.Hub.View, Hub.Hub.Valid, Emitted, Bodies, SameShape;
      match m {
        case BeginMsg(xid, final) =>
          HubSpec.PublishAllNone(hub.View());
          tx := TxState(xid, Some(final), 0, false);
        case RelationMsg(id, rel) =>
          HandleRelation(id, rel);
        case CommitMsg(commit) =>
          HandleCommit(commit);
        case _ =>
          HandleRow(m, record);
      }
    }

    /** One turn of the receive loop, standby update first. */
    method Listen(t: Turn, asked: bool, reports: seq<Lsn>)
      returns (asked2: bool, reports2: seq<Lsn>, broken: Option<Trouble>)
      requires hub.Valid()
      modifies this, hub, hub.all.Values
      ensures hub.Valid() && hub.all == old(hub.all)
      ensures Session(State(), hub.View(), asked2, reports2, broken)
           == TakeTurn(Session(old(State()), old(hub.View()), asked, reports, None), t)
    {
      hide HubSpec.PublishAll, HubSpec.ReleasePending, Hub.Hub.View, Hub.Hub.Valid, Handle;
      asked2, reports2, broken := asked, reports, None;
      if t.late || asked {
        if !t.heard { return asked2, reports2, Some(OtherTrouble); }
        reports2, asked2 := reports2 + [acked], false;
      }
      match t.input {
        case Silence =>
        case Chatter =>
        case Lost(trouble) => broken := Some(trouble);
        case Garbled => broken := Some(OtherTrouble);
        case Keepalive(reply) => asked2 := asked2 || reply;
        case Data(m, at) =>
          HandleMessage(m, at);
          var release := hub.Releasable();
          if release {
            if !t.heardAgain { return asked2, reports2, Some(OtherTrouble); }
            reports2, asked2 := reports2 + [acked], false;
            hub.ReleasePending();
          }
      }
    }

    /** The receive loop. */
    method Receive(turns: seq<Turn>, ghost s0: Session) returns (reports: seq<Lsn>, broken: Option<Trouble>)
      requires hub.Valid() && s0 == Session(State(), hub.View(), false, [], None)
      modifies this, hub, hub.all.Values
      ensures hub.Valid() && hub.all == old(hub.all)
      ensures var s := TakeTurns(s0, turns);
        State() == s.dec && hub.View() == s.hub && reports == s.reports && broken == s.broken
    {
      hide TakeTurn, Hub.Hub.View, Hub.Hub.Valid;
      reports, broken := [], None;
      var asked := false;
      for i := 0 to |turns|
        invariant hub.Valid() && hub.all == old(hub.all) && broken.None?
        invariant Session(State(), hub.View(), asked, reports, broken) == TakeTurns(s0, turns[..i])
      {
        asked, reports, broken := Listen(turns[i], asked, reports);
        assert turns[..i + 1][..i] == turns[..i];
        if broken.Some? {
          BrokenStays(s0, turns, i + 1);
          return;
        }
      }
      assert turns[..|turns|] == turns;
    }

    /** Streams until the connection fails or the caller stops it; there is no other way out. */
    method Run(since: Lsn, a: Attempt) returns (reports: seq<Lsn>, failure: Failure)
      requires hub.Valid() && State() == DecoderState(map[], NO_TX, 0) && a.setup.None?
      modifies this, hub, hub.all.Values
      ensures hub.Valid() && hub.all == old(hub.all)
      ensures hub.View() == HubOnce(old(hub.View()), a, since)
      ensures failure == Outcome(old(hub.View()), a, since)
      ensures reports == if Starts(a, since) then TakeTurns(Opening(old(hub.View()), since), a.turns).reports else []
    {
      hide TakeTurns, Hub.Hub.View, Hub.Hub.Valid;
      reports := [];
      if since > 0 {
        if a.walEnd.None? { return reports, Failed(OtherTrouble); }
        if since > a.walEnd.value { return reports, Ahead; }
      }
      acked := since;
      if a.start.Some? { return reports, Failed(a.start.value); }
      var broken;
      reports, broken := Receive(a.turns, Opening(hub.View(), since));
      failure := Failed(if broken.Some? then broken.value else OtherTrouble);
    }
  }

  /** Emitting one change after others is emitting them together. */
  lemma EmittedConcat(tx: TxState, record: Lsn, before: seq<RowChange>, body: RowChange)
    ensures Emitted(tx, record, before + [body])
         == Emitted(tx, record, before) + Emitted(AfterChanges(tx, |before|), record, [body])
  {
    var after := AfterChanges(tx, |before|);
    assert ChangesOf(tx, record, before + [body]) == ChangesOf(tx, record, before) + [ChangeOf(tx, record, body)];
    assert ChangesOf(after, record, [body]) == [ChangeOf(tx, record, body)];
    if before == [] {
      assert before + [body] == [body];
    }
  }
}
