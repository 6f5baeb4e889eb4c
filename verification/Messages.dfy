/**
 From the server's messages to a subscriber's copy: what each message puts on the feed, read off its events, and what
 the events of whole transactions make of a copy of the table.
 */
module Messages {
  import opened Wrappers
  import opened Wire
  import opened FeedEvents
  import opened DecoderSpec
  import opened Framing
  import HubSpec
  import opened Replica
  import opened Feed
  import opened FeedTheorems

  // One message.

  /** A row message on relation `id`, by the kind of statement it is about. */
  predicate About(m: Msg, id: nat, action: Action) {
    match action
    case Insert => m.InsertMsg? && m.id == id
    case Update => m.UpdateMsg? && m.id == id
    case Delete => m.DeleteMsg? && m.id == id
    case Truncate => m == TruncateMsg([id])
  }

  /** A change of this transaction, at the record's own position. */
  predicate ChangeIn(ev: Event, tx: TxState, at: Lsn, table: string, action: Action) {
    && ev.Change? && ev.xid == tx.xid && ev.record == at && ev.commit == (if tx.commit.Some? then tx.commit.value else at)
    && ev.body.table == table && ev.body.action == action
  }

  /**
   A row message on a relation whose shape is known publishes exactly one change, of its table and its kind, behind the
   transaction's begin if it is the first of it; on any other it publishes nothing and is not counted.
   */
  lemma RowPublishesOne(d: DecoderState, m: Msg, at: Lsn, id: nat, action: Action)
    requires About(m, id, action)
    ensures id !in d.relations ==> Handle(d, m, at) == (d, [])
    ensures id in d.relations ==>
      var (e, evs) := Handle(d, m, at);
      var opens := d.tx.commit.Some? && !d.tx.begun;
      var rel := d.relations[id];
      && |evs| == (if opens then 2 else 1) && (opens ==> evs[0] == Begin(d.tx.xid, d.tx.commit.value))
      && ChangeIn(evs[|evs| - 1], d.tx, at, rel.schema + "." + rel.name, action)
      && e == d.(tx := d.tx.(changes := d.tx.changes + 1, begun := d.tx.begun || d.tx.commit.Some?))
  {
    if action == Truncate {
      assert [id][..0] == [] && TruncateBodies(d.relations, []) == [];
    }
  }

  /** Those of a truncate's relations whose shape is known, in its order. */
  function Known(relations: map<nat, Relation>, ids: seq<nat>): seq<nat> {
    if ids == [] then [] else (if ids[0] in relations then [ids[0]] else []) + Known(relations, ids[1..])
  }

  lemma {:induction false} KnownGrows(relations: map<nat, Relation>, ids: seq<nat>, id: nat)
    ensures Known(relations, ids + [id]) == Known(relations, ids) + if id in relations then [id] else []
  {
    if ids == [] {
      assert ids + [id] == [id] && [id][1..] == [] && Known(relations, []) == [];
    } else {
      assert (ids + [id])[0] == ids[0] && (ids + [id])[1..] == ids[1..] + [id];
      KnownGrows(relations, ids[1..], id);
    }
  }

  predicate TruncateOf(c: RowChange, rel: Relation) {
    c == RowChange(rel.schema + "." + rel.name, Truncate, map[], map[], map[], {}, {})
  }

  lemma {:induction false} TruncatesKnown(relations: map<nat, Relation>, ids: seq<nat>)
    ensures var known := Known(relations, ids);
      && |TruncateBodies(relations, ids)| == |known|
      && forall k :: 0 <= k < |known| ==> known[k] in relations && TruncateOf(TruncateBodies(relations, ids)[k], relations[known[k]])
  {
    if ids != [] {
      var front, id := ids[..|ids| - 1], ids[|ids| - 1];
      TruncatesKnown(relations, front);
      KnownGrows(relations, front, id);
      assert ids == front + [id];
      hide Known;
    }
  }

  /** A truncate publishes one change for each relation whose shape is known, in the order the message has them. */
  lemma TruncatePublishes(d: DecoderState, ids: seq<nat>, at: Lsn)
    ensures var bodies := BodiesOf(Handle(d, TruncateMsg(ids), at).1);
      var known := Known(d.relations, ids);
      && |bodies| == |known|
      && forall k :: 0 <= k < |known| ==> known[k] in d.relations && TruncateOf(bodies[k], d.relations[known[k]])
  {
    hide BodiesOf, Handle, TruncateBodies, Known, TruncateOf;
    MessageBodies(d, TruncateMsg(ids), at);
    TruncatesKnown(d.relations, ids);
  }

  /** A shape is announced exactly when it is not, but for the replica identity, the one known for that relation. */
  lemma ShapeAnnouncedIff(d: DecoderState, id: nat, rel: Relation, at: Lsn)
    ensures var (e, evs) := Handle(d, RelationMsg(id, rel), at);
      && e.tx == d.tx && e.acked == d.acked && e.relations == d.relations[id := rel]
      && (evs == [] || evs == [Schema(rel.schema + "." + rel.name, rel.columns)])
      && (evs == [] <==> id in d.relations && d.relations[id].(identity := rel.identity) == rel)
  {
  }

  /** Every relation the decoder knows has been described on the feed as it is. */
  predicate Described(relations: map<nat, Relation>, evs: seq<Event>) {
    forall id :: id in relations ==> Schema(relations[id].schema + "." + relations[id].name, relations[id].columns) in evs
  }

  lemma MessageDescribes(d: DecoderState, m: Msg, at: Lsn, evs: seq<Event>)
    requires Described(d.relations, evs)
    ensures Described(Handle(d, m, at).0.relations, evs + Handle(d, m, at).1)
  {
    if m.RelationMsg? {
      ShapeAnnouncedIff(d, m.id, m.rel, at);
      hide Handle;
    } else {
      hide Bodies;
    }
  }

  /** In every run of messages, before a change of a relation can be published its shape has been. */
  lemma {:induction false} ShapesAreDescribed(acked: Lsn, msgs: seq<(Msg, Lsn)>)
    ensures var (d, evs) := HandleAll(DecoderState(map[], NO_TX, acked), msgs); Described(d.relations, evs)
  {
    if msgs != [] {
      hide Handle, Described;
      var front := msgs[..|msgs| - 1];
      ShapesAreDescribed(acked, front);
      var (d, evs) := HandleAll(DecoderState(map[], NO_TX, acked), front);
      MessageDescribes(d, msgs[|msgs| - 1].0, msgs[|msgs| - 1].1, evs);
    } else {
      assert Described(map[], []);
    }
  }

  /** Whatever frames are published, the hub is inside a transaction exactly while one is open, and has counted its changes. */
  lemma {:induction false} HubCountsFrame(h: HubSpec.HubState, evs: seq<Event>)
    requires Scan(evs).Some? && !h.inTx && h.txChanges == 0
    ensures var r, at := HubSpec.PublishAll(h, evs), Scan(evs).value;
      (r.inTx <==> at.Inside?) && r.txChanges == if at.Inside? then at.changes else 0
  {
    hide HubSpec.OfferAll, HubSpec.AnyWaiting;
    if evs != [] {
      HubCountsFrame(h, evs[..|evs| - 1]);
    }
  }

  /** From event `i` on: a begin or a commit, and after it neither. */
  predicate LastBoundary(evs: seq<Event>, i: nat) {
    && i < |evs| && (evs[i].Begin? || evs[i].Commit?)
    && forall j :: i < j < |evs| ==> !evs[j].Begin? && !evs[j].Commit?
  }

  /** Frames or not, a decoder that died inside one included: what is counted is the changes since the last begin or commit. */
  lemma {:induction false} HubCountsFromBoundary(h: HubSpec.HubState, evs: seq<Event>, i: nat)
    requires LastBoundary(evs, i)
    ensures var r := HubSpec.PublishAll(h, evs);
      (r.inTx <==> evs[i].Begin?) && r.txChanges == |BodiesOf(evs[i..])|
  {
    hide HubSpec.OfferAll, HubSpec.AnyWaiting;
    var n := |evs| - 1;
    if i < n {
      HubCountsFromBoundary(h, evs[..n], i);
      assert evs[i..][..|evs[i..]| - 1] == evs[..n][i..];
    } else {
      NotBodies(evs[n]);
      assert evs[n..] == [evs[n]];
    }
  }

  // A statement, and a history of them.

  /** The message the server sends for a statement on relation `id`. */
  function MessageOf(rel: Relation, id: nat, t: Table, op: Op): Msg
    requires IsTable(rel, t) && Allowed(rel, t, op)
  {
    match op
    case Ins(row) => InsertMsg(id, TupleOf(rel, row, {}))
    case Upd(at, row, unsent, withOld) => UpdateMsg(id, if withOld then OldTuple(rel, t[at]) else [], TupleOf(rel, row, unsent))
    case Del(at) => DeleteMsg(id, OldTuple(rel, t[at]))
    case Trunc => TruncateMsg([id])
  }

  lemma BodiesOfStatement(relations: map<nat, Relation>, rel: Relation, id: nat, t: Table, op: Op)
    requires IsTable(rel, t) && Allowed(rel, t, op) && id in relations && relations[id] == rel
    ensures Bodies(relations, MessageOf(rel, id, t, op)) == [Sent(rel, t, op)]
  {
    hide BuildChange, TupleOf, OldTuple, KeyValues;
    if op.Trunc? {
      assert [id][..0] == [] && TruncateBodies(relations, []) == [];
    }
  }

  /** The message of a statement publishes one change, and that change makes of a copy what the statement makes of the table. */
  lemma StatementIsPublished(d: DecoderState, rel: Relation, id: nat, t: Table, op: Op, at: Lsn)
    requires WellFormed(rel) && IsTable(rel, t) && Allowed(rel, t, op) && Locatable(rel, op)
    requires id in d.relations && d.relations[id] == rel
    ensures var bodies := BodiesOf(Handle(d, MessageOf(rel, id, t, op), at).1);
      |bodies| == 1 && Apply(rel, t, bodies[0]) == Exec(rel, t, op)
  {
    hide Handle, BodiesOf, Bodies, Sent, Apply, Exec, MessageOf, Allowed, IsTable;
    MessageBodies(d, MessageOf(rel, id, t, op), at);
    BodiesOfStatement(d.relations, rel, id, t, op);
    StepMirrors(rel, t, op);
  }

  function ApplyAll(rel: Relation, copy: Table, cs: seq<RowChange>): Table
    decreases |cs|
  {
    if cs == [] then copy else ApplyAll(rel, Apply(rel, copy, cs[0]), cs[1..])
  }

  lemma {:induction false} ApplyAllConcat(rel: Relation, copy: Table, a: seq<RowChange>, b: seq<RowChange>)
    ensures ApplyAll(rel, copy, a + b) == ApplyAll(rel, ApplyAll(rel, copy, a), b)
    decreases |a|
  {
    hide Apply;
    if a == [] {
      assert a + b == b;
    } else {
      assert (a + b)[1..] == a[1..] + b;
      ApplyAllConcat(rel, Apply(rel, copy, a[0]), a[1..], b);
    }
  }

  lemma ApplyOne(rel: Relation, copy: Table, c: RowChange)
    ensures ApplyAll(rel, copy, [c]) == Apply(rel, copy, c)
  {
    hide Apply;
    assert [c][1..] == [];
    assert ApplyAll(rel, Apply(rel, copy, c), []) == Apply(rel, copy, c);
  }

  /** What a connection sends about one table: its statements, and between them begins, commits and its shape. */
  datatype Item = Statement(op: Op, at: Lsn) | Marker(m: Msg, at: Lsn)

  predicate GoodMarker(rel: Relation, id: nat, m: Msg) {
    m.BeginMsg? || m.CommitMsg? || (m.RelationMsg? && (m.id == id ==> m.rel == rel))
  }

  /** Every statement is one the table accepts where it stands, and can be located. */
  predicate GoodItems(rel: Relation, id: nat, t: Table, items: seq<Item>)
    requires WellFormed(rel) && IsTable(rel, t)
    decreases |items|, 0
  {
    items == [] ||
    var front, last := items[..|items| - 1], items[|items| - 1];
    && GoodItems(rel, id, t, front)
    && match last
       case Statement(op, _) => Allowed(rel, TableAfter(rel, id, t, front), op) && Locatable(rel, op)
       case Marker(m, _) => GoodMarker(rel, id, m)
  }

  function TableAfter(rel: Relation, id: nat, t: Table, items: seq<Item>): (r: Table)
    requires WellFormed(rel) && IsTable(rel, t) && GoodItems(rel, id, t, items)
    ensures IsTable(rel, r)
    decreases |items|, 1
  {
    if items == [] then t
    else
      var before := TableAfter(rel, id, t, items[..|items| - 1]);
      match items[|items| - 1]
      case Statement(op, _) => ExecKeepsTable(rel, before, op); Exec(rel, before, op)
      case Marker(_, _) => before
  }

  function MessagesOf(rel: Relation, id: nat, t: Table, items: seq<Item>): seq<(Msg, Lsn)>
    requires WellFormed(rel) && IsTable(rel, t) && GoodItems(rel, id, t, items)
  {
    if items == [] then []
    else
      var front := items[..|items| - 1];
      MessagesOf(rel, id, t, front) +
      match items[|items| - 1]
      case Statement(op, at) => [(MessageOf(rel, id, TableAfter(rel, id, t, front), op), at)]
      case Marker(m, at) => [(m, at)]
  }

  lemma MarkerPublishesNothing(d: DecoderState, rel: Relation, id: nat, m: Msg, at: Lsn)
    requires GoodMarker(rel, id, m) && id in d.relations && d.relations[id] == rel
    ensures BodiesOf(Handle(d, m, at).1) == []
    ensures id in Handle(d, m, at).0.relations && Handle(d, m, at).0.relations[id] == rel
  {
    hide Handle;
    MessageBodies(d, m, at);
    MarkerKeeps(d, rel, id, m, at);
  }

  lemma MarkerKeeps(d: DecoderState, rel: Relation, id: nat, m: Msg, at: Lsn)
    requires GoodMarker(rel, id, m) && id in d.relations && d.relations[id] == rel
    ensures Bodies(d.relations, m) == []
    ensures id in Handle(d, m, at).0.relations && Handle(d, m, at).0.relations[id] == rel
  {
  }

  lemma StatementKeeps(d: DecoderState, rel: Relation, id: nat, t: Table, op: Op, at: Lsn)
    requires IsTable(rel, t) && Allowed(rel, t, op)
    ensures Handle(d, MessageOf(rel, id, t, op), at).0.relations == d.relations
  {
    hide Bodies;
  }

  /** The decoder still knows the table's shape, and the changes published so far make the copy the table. */
  ghost predicate Followed(rel: Relation, id: nat, copy: Table, r: (DecoderState, seq<Event>), t: Table) {
    id in r.0.relations && r.0.relations[id] == rel && ApplyAll(rel, copy, BodiesOf(r.1)) == t
  }

  lemma FollowOn(d: DecoderState, evs: seq<Event>, rel: Relation, id: nat, copy: Table, t: Table, m: Msg, at: Lsn)
    requires Followed(rel, id, copy, (d, evs), t)
    ensures var (e, more) := Handle(d, m, at);
      id in e.relations && e.relations[id] == rel ==>
        Followed(rel, id, copy, (e, evs + more), ApplyAll(rel, t, BodiesOf(more)))
  {
    hide Handle, BodiesOf, ApplyAll;
    var more := Handle(d, m, at).1;
    BodiesOfConcat(evs, more);
    ApplyAllConcat(rel, copy, BodiesOf(evs), BodiesOf(more));
  }

  /**
   The feed from end to end, for one table: whatever transactions its statements come in, a decoder that knows the
   table's shape publishes, for the messages the server sends, changes that make a copy equal to the table.
   */
  lemma {:induction false} DecodedFeedMirrors(d: DecoderState, rel: Relation, id: nat, t: Table, items: seq<Item>)
    requires WellFormed(rel) && IsTable(rel, t) && GoodItems(rel, id, t, items)
    requires id in d.relations && d.relations[id] == rel
    ensures Followed(rel, id, t, HandleAll(d, MessagesOf(rel, id, t, items)), TableAfter(rel, id, t, items))
  {
    hide Handle, Bodies, BodiesOf, Apply, MessageOf, Exec, Allowed, Locatable, GoodMarker;
    if items == [] {
      assert BodiesOf([]) == [] by { NoBodies(); }
    } else {
      var front, last := items[..|items| - 1], items[|items| - 1];
      DecodedFeedMirrors(d, rel, id, t, front);
      var before := TableAfter(rel, id, t, front);
      var msgs := MessagesOf(rel, id, t, items);
      var (e, evs) := HandleAll(d, MessagesOf(rel, id, t, front));
      assert msgs[..|msgs| - 1] == MessagesOf(rel, id, t, front);
      var m, at := msgs[|msgs| - 1].0, msgs[|msgs| - 1].1;
      FollowOn(e, evs, rel, id, t, before, m, at);
      match last
      case Statement(op, _) =>
        StatementIsPublished(e, rel, id, before, op, at);
        StatementKeeps(e, rel, id, before, op, at);
        ApplyOne(rel, before, BodiesOf(Handle(e, m, at).1)[0]);
        assert BodiesOf(Handle(e, m, at).1) == [BodiesOf(Handle(e, m, at).1)[0]];
      case Marker(_, _) =>
        MarkerPublishesNothing(e, rel, id, m, at);
    }
  }

  lemma NoBodies()
    ensures BodiesOf([]) == []
  {
  }

  // A transaction of the log, delivered.

  /** The first `k` rows of a transaction are the server's messages for these statements on relation `id`. */
  predicate Encodes(x: Tx, k: nat, rel: Relation, id: nat, t: Table, items: seq<Item>)
    requires WellFormed(rel) && IsTable(rel, t) && k <= |x.rows| == |items|
  {
    k == 0 ||
    (&& Encodes(x, k - 1, rel, id, t, items) && items[k - 1].Statement? && GoodItems(rel, id, t, items[..k - 1])
     && var before := TableAfter(rel, id, t, items[..k - 1]);
        && Allowed(rel, before, items[k - 1].op) && Locatable(rel, items[k - 1].op)
        && x.rows[k - 1].msg == MessageOf(rel, id, before, items[k - 1].op)
        && id in x.rows[k - 1].shapes && x.rows[k - 1].shapes[id] == rel)
  }

  lemma {:induction false} RowsCarry(x: Tx, k: nat, rel: Relation, id: nat, t: Table, items: seq<Item>)
    requires WellFormed(rel) && IsTable(rel, t) && k <= |x.rows| == |items| && Encodes(x, k, rel, id, t, items)
    ensures GoodItems(rel, id, t, items[..k])
    ensures ApplyAll(rel, t, BodiesOf(RowEvents(x, k))) == TableAfter(rel, id, t, items[..k])
  {
    hide BodiesOf, Bodies, Sent, Apply, Exec, Allowed, MessageOf, Locatable, ChangesOf;
    if k == 0 {
      NoBodies();
    } else {
      RowsCarry(x, k - 1, rel, id, t, items);
      assert items[..k][..k - 1] == items[..k - 1];
      var before, op := TableAfter(rel, id, t, items[..k - 1]), items[k - 1].op;
      var row := x.rows[k - 1];
      var evs := ChangesOf(TxOf(x), row.at, Bodies(row.shapes, row.msg));
      BodiesOfStatement(row.shapes, rel, id, before, op);
      BodiesOfChanges(TxOf(x), row.at, Bodies(row.shapes, row.msg));
      BodiesOfConcat(RowEvents(x, k - 1), evs);
      ApplyAllConcat(rel, t, BodiesOf(RowEvents(x, k - 1)), BodiesOf(evs));
      ApplyOne(rel, before, Sent(rel, before, op));
      StepMirrors(rel, before, op);
    }
  }

  lemma FrameBodies(x: Tx)
    ensures BodiesOf(FrameOf(x)) == BodiesOf(RowEvents(x, |x.rows|))
  {
    var evs := RowEvents(x, |x.rows|);
    var begin, commit := Begin(x.xid, x.commit), Commit(x.xid, x.commit, |evs|);
    hide RowEvents;
    NotBodies(begin);
    NotBodies(commit);
    hide BodiesOf;
    if evs != [] {
      BodiesOfConcat([begin], evs);
      BodiesOfConcat([begin] + evs, [commit]);
    }
  }

  lemma NotBodies(ev: Event)
    requires !ev.Change?
    ensures BodiesOf([ev]) == []
  {
    assert [ev][..0] == [] && BodiesOf([]) == [];
  }

  lemma {:induction false} BodiesOfRows(evs: seq<Event>)
    ensures BodiesOf(Rows(evs)) == BodiesOf(evs)
  {
    if evs != [] {
      var front, last := evs[..|evs| - 1], evs[|evs| - 1];
      BodiesOfRows(front);
      if !last.Schema? {
        assert (Rows(front) + [last])[..|Rows(front)|] == Rows(front);
      }
    }
  }

  /** Some stretch of what the stream was given takes a copy of the table from one state to the other. */
  ghost predicate Mirrors(w: Watch, rel: Relation, t: Table, r: Table) {
    exists a, b :: 0 <= a <= b <= |w.got| && ApplyAll(rel, t, BodiesOf(w.got[a..b])) == r
  }

  /** What being given a transaction whole is worth: its changes make of a copy what the transaction made of the table. */
  lemma DeliveredMirrors(w: Watch, x: Tx, rel: Relation, id: nat, t: Table, items: seq<Item>)
    requires WellFormed(rel) && IsTable(rel, t) && |x.rows| == |items| && Encodes(x, |items|, rel, id, t, items)
    requires Delivered(w, x)
    ensures GoodItems(rel, id, t, items) && Mirrors(w, rel, t, TableAfter(rel, id, t, items))
  {
    hide BodiesOf, ApplyAll, FrameOf, Rows, TableAfter, GoodItems, Encodes;
    RowsCarry(x, |items|, rel, id, t, items);
    assert items[..|items|] == items;
    FrameBodies(x);
    var a, b :| 0 <= a <= b <= |w.got| && Rows(w.got[a..b]) == FrameOf(x);
    BodiesOfRows(w.got[a..b]);
    assert ApplyAll(rel, t, BodiesOf(w.got[a..b])) == TableAfter(rel, id, t, items);
  }

  /** In every run, then, for every transaction on the table that a stream is owed and was not the one it missed. */
  lemma OwedIsMirrored(f0: State, steps: seq<Step>, stream: nat, i: nat, rel: Relation, id: nat, t: Table, items: seq<Item>)
    requires Init(f0) && WellFormed(rel) && IsTable(rel, t)
    requires var f := Run(f0, steps);
      && stream in f.watches && f.watches[stream].admitted && Owed(f, f.watches[stream], i)
      && (f.watches[stream].lost.None? || i != f.watches[stream].hole)
      && |f.log[i].rows| == |items| && Encodes(f.log[i], |items|, rel, id, t, items)
    ensures GoodItems(rel, id, t, items)
    ensures Mirrors(Run(f0, steps).watches[stream], rel, t, TableAfter(rel, id, t, items))
  {
    hide Run, Init, Delivered, Encodes, Mirrors, TableAfter, GoodItems;
    NoSilentGap(f0, steps, stream, i);
    DeliveredMirrors(Run(f0, steps).watches[stream], Run(f0, steps).log[i], rel, id, t, items);
  }
}
