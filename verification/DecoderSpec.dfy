/**
 Decoding: one replication message in, events out.

 The messages are those of PostgreSQL's "Logical Replication Message Formats", protocol
 version 1: whole transactions in commit order, the commit position announced in the
 begin message. A begin is held back until the first visible change.
 */
module DecoderSpec {
  import opened Wrappers
  import opened Wire
  import opened FeedEvents

  datatype Msg =
    | BeginMsg(xid: nat, final: Lsn)
    | RelationMsg(id: nat, rel: Relation)
    | InsertMsg(id: nat, tuple: seq<ColumnValue>)
    | UpdateMsg(id: nat, oldTuple: seq<ColumnValue>, newTuple: seq<ColumnValue>)
    | DeleteMsg(id: nat, oldTuple: seq<ColumnValue>)
    | TruncateMsg(ids: seq<nat>)
    | CommitMsg(commit: Lsn)

  datatype TxState = TxState(xid: nat, commit: Option<Lsn>, changes: nat, begun: bool)
  datatype DecoderState = DecoderState(relations: map<nat, Relation>, tx: TxState, acked: Lsn)

  const NO_TX := TxState(0, None, 0, false)

  predicate SameShape(a: Relation, b: Relation) {
    a.schema == b.schema && a.name == b.name && a.columns == b.columns
  }

  predicate IsRowMsg(m: Msg) {
    m.InsertMsg? || m.UpdateMsg? || m.DeleteMsg? || m.TruncateMsg?
  }

  /** The relations a row message is about. */
  function Ids(m: Msg): set<nat> {
    match m
    case InsertMsg(id, _) => {id}
    case UpdateMsg(id, _, _) => {id}
    case DeleteMsg(id, _) => {id}
    case TruncateMsg(ids) => set i | 0 <= i < |ids| :: ids[i]
    case _ => {}
  }

  function TruncateBodies(relations: map<nat, Relation>, ids: seq<nat>): seq<RowChange> {
    if ids == [] then []
    else
      var rest := TruncateBodies(relations, ids[..|ids| - 1]);
      var id := ids[|ids| - 1];
      if id in relations then rest + [BuildChange(relations[id], Truncate, [], [])] else rest
  }

  /** The visible changes of a message: those on a relation whose shape is known. */
  function Bodies(relations: map<nat, Relation>, m: Msg): seq<RowChange> {
    match m
    case InsertMsg(id, tuple) =>
      if id in relations then [BuildChange(relations[id], Insert, [], tuple)] else []
    case UpdateMsg(id, o, n) =>
      if id in relations then [BuildChange(relations[id], Update, o, n)] else []
    case DeleteMsg(id, o) =>
      if id in relations then [BuildChange(relations[id], Delete, o, [])] else []
    case TruncateMsg(ids) => TruncateBodies(relations, ids)
    case _ => []
  }

  /** The boundary stamped on a change: the transaction's commit, or failing that the record's own. */
  function Stamp(tx: TxState, record: Lsn): Lsn {
    if tx.commit.Some? then tx.commit.value else record
  }

  function ChangeOf(tx: TxState, record: Lsn, body: RowChange): Event {
    Change(tx.xid, Stamp(tx, record), record, body)
  }

  /** Whether publishing a change has to open the frame first. */
  predicate MustOpen(tx: TxState) {
    tx.commit.Some? && !tx.begun
  }

  function AfterChanges(tx: TxState, n: nat): TxState {
    tx.(changes := tx.changes + n, begun := tx.begun || (n > 0 && tx.commit.Some?))
  }

  function ChangesOf(tx: TxState, record: Lsn, bodies: seq<RowChange>): seq<Event> {
    seq(|bodies|, i requires 0 <= i < |bodies| => ChangeOf(tx, record, bodies[i]))
  }

  /** What publishing these changes sends: the frame opened by the first of them if it is not open. */
  function Emitted(tx: TxState, record: Lsn, bodies: seq<RowChange>): seq<Event> {
    (if bodies != [] && MustOpen(tx) then [Begin(tx.xid, tx.commit.value)] else []) + ChangesOf(tx, record, bodies)
  }

  function Handle(d: DecoderState, m: Msg, record: Lsn): (DecoderState, seq<Event>) {
    match m
    case BeginMsg(xid, final) => (d.(tx := TxState(xid, Some(final), 0, false)), [])
    case RelationMsg(id, rel) =>
      (d.(relations := d.relations[id := rel]),
       if id in d.relations && SameShape(d.relations[id], rel) then [] else [Schema(Qualified(rel), rel.columns)])
    case CommitMsg(commit) =>
      (d.(tx := NO_TX, acked := commit),
       if d.tx.begun then [Commit(d.tx.xid, commit, d.tx.changes)] else [])
    case _ =>
      var bodies := Bodies(d.relations, m);
      (d.(tx := AfterChanges(d.tx, |bodies|)), Emitted(d.tx, record, bodies))
  }

  /** A run of messages, each with its record position. */
  function HandleAll(d: DecoderState, msgs: seq<(Msg, Lsn)>): (DecoderState, seq<Event>) {
    if msgs == [] then (d, [])
    else
      var (d1, evs) := HandleAll(d, msgs[..|msgs| - 1]);
      var (d2, more) := Handle(d1, msgs[|msgs| - 1].0, msgs[|msgs| - 1].1);
      (d2, evs + more)
  }
}

/**
 Framing: what a decoder publishes is a sequence of whole transactions.

 `Scan` is a recogniser that knows nothing of the decoder: it reads begin, one or more
 changes and a commit with the right count, all of one transaction, and refuses anything
 else.
 */
module Framing {
  import opened Wrappers
  import opened Wire
  import opened FeedEvents
  import opened DecoderSpec

  datatype Position = Between | Inside(xid: nat, commit: Lsn, changes: nat)

  function Scan(evs: seq<Event>): Option<Position> {
    if evs == [] then Some(Between)
    else
      match Scan(evs[..|evs| - 1])
      case None => None
      case Some(p) => Accept(p, evs[|evs| - 1])
  }

  function Accept(p: Position, ev: Event): Option<Position> {
    match ev
    case Schema(_, _) => Some(p)
    case Begin(xid, commit) => if p.Between? then Some(Inside(xid, commit, 0)) else None
    case Change(xid, commit, _, _) =>
      if p.Inside? && p.xid == xid && p.commit == commit then Some(p.(changes := p.changes + 1)) else None
    case Commit(xid, commit, n) =>
      if p.Inside? && p.xid == xid && p.commit == commit && p.changes == n && n >= 1 then Some(Between) else None
  }

  datatype Phase = Outside | InTx(xid: nat, final: Lsn)

  /** The order the protocol promises: begin, rows, commit of the announced position; relations anywhere. */
  function Follow(msgs: seq<(Msg, Lsn)>): Option<Phase> {
    if msgs == [] then Some(Outside)
    else
      match Follow(msgs[..|msgs| - 1])
      case None => None
      case Some(p) => NextPhase(p, msgs[|msgs| - 1].0)
  }

  function NextPhase(p: Phase, m: Msg): Option<Phase> {
    match m
    case RelationMsg(_, _) => Some(p)
    case BeginMsg(xid, final) => if p.Outside? then Some(InTx(xid, final)) else None
    case CommitMsg(commit) => if p.InTx? && p.final == commit then Some(Outside) else None
    case _ => if p.InTx? then Some(p) else None
  }

  /** Where the published events stand, given where the decoder stands. */
  predicate Agree(tx: TxState, phase: Phase, pos: Position) {
    match phase
    case Outside => pos.Between? && tx == NO_TX
    case InTx(xid, final) =>
      && tx.xid == xid && tx.commit == Some(final)
      && (tx.begun <==> tx.changes > 0)
      && pos == if tx.begun then Inside(xid, final, tx.changes) else Between
  }

  lemma ScanAppend(evs: seq<Event>, ev: Event)
    ensures Scan(evs + [ev]) == if Scan(evs).None? then None else Accept(Scan(evs).value, ev)
  {
    assert (evs + [ev])[..|evs|] == evs;
  }

  lemma {:induction false} ScanChanges(evs: seq<Event>, tx: TxState, record: Lsn, bodies: seq<RowChange>)
    requires tx.commit.Some? && Scan(evs).Some? && Scan(evs).value.Inside?
    requires Scan(evs).value.xid == tx.xid && Scan(evs).value.commit == tx.commit.value
    ensures Scan(evs + ChangesOf(tx, record, bodies)) ==
            Some(Inside(tx.xid, tx.commit.value, Scan(evs).value.changes + |bodies|))
  {
    hide Scan;
    if bodies == [] {
      assert evs + ChangesOf(tx, record, bodies) == evs;
    } else {
      var front := bodies[..|bodies| - 1];
      var last := ChangeOf(tx, record, bodies[|bodies| - 1]);
      ScanChanges(evs, tx, record, front);
      assert evs + ChangesOf(tx, record, bodies) == evs + ChangesOf(tx, record, front) + [last];
      ScanAppend(evs + ChangesOf(tx, record, front), last);
    }
  }

  lemma ScanEmitted(evs: seq<Event>, tx: TxState, record: Lsn, bodies: seq<RowChange>, phase: Phase)
    requires phase.InTx? && Scan(evs).Some? && Agree(tx, phase, Scan(evs).value)
    ensures Scan(evs + Emitted(tx, record, bodies)).Some?
    ensures Agree(AfterChanges(tx, |bodies|), phase, Scan(evs + Emitted(tx, record, bodies)).value)
  {
    hide Scan;
    var cs := ChangesOf(tx, record, bodies);
    if bodies == [] {
      assert evs + Emitted(tx, record, bodies) == evs;
    } else if tx.begun {
      assert Emitted(tx, record, bodies) == [] + cs == cs;
      ScanChanges(evs, tx, record, bodies);
    } else {
      var b := Begin(tx.xid, tx.commit.value);
      ScanAppend(evs, b);
      ScanChanges(evs + [b], tx, record, bodies);
      assert evs + Emitted(tx, record, bodies) == evs + [b] + cs;
    }
  }

  lemma MessageKeepsFraming(d: DecoderState, evs: seq<Event>, m: Msg, record: Lsn, phase: Phase)
    requires Scan(evs).Some? && Agree(d.tx, phase, Scan(evs).value) && NextPhase(phase, m).Some?
    ensures var (d', more) := Handle(d, m, record);
      Scan(evs + more).Some? && Agree(d'.tx, NextPhase(phase, m).value, Scan(evs + more).value)
  {
    hide Scan, Bodies;
    var more := Handle(d, m, record).1;
    if IsRowMsg(m) {
      ScanEmitted(evs, d.tx, record, Bodies(d.relations, m), phase);
    } else if more == [] {
      assert evs + more == evs;
    } else {
      assert more == [more[0]];
      ScanAppend(evs, more[0]);
    }
  }

  /** Every well-ordered run of messages publishes whole frames, and stands where the decoder stands. */
  lemma {:induction false} EventsAreFramed(relations: map<nat, Relation>, acked: Lsn, msgs: seq<(Msg, Lsn)>)
    requires Follow(msgs).Some?
    ensures var (d, evs) := HandleAll(DecoderState(relations, NO_TX, acked), msgs);
      Scan(evs).Some? && Agree(d.tx, Follow(msgs).value, Scan(evs).value)
  {
    if msgs != [] {
      hide Handle, Agree, NextPhase;
      var front, m, record := msgs[..|msgs| - 1], msgs[|msgs| - 1].0, msgs[|msgs| - 1].1;
      EventsAreFramed(relations, acked, front);
      var (d1, evs) := HandleAll(DecoderState(relations, NO_TX, acked), front);
      MessageKeepsFraming(d1, evs, m, record, Follow(front).value);
    }
  }

  /** When the last transaction is complete, so is the last frame. */
  lemma CompleteRunsAreFrames(relations: map<nat, Relation>, acked: Lsn, msgs: seq<(Msg, Lsn)>)
    requires Follow(msgs) == Some(Outside)
    ensures Scan(HandleAll(DecoderState(relations, NO_TX, acked), msgs).1) == Some(Between)
  {
    EventsAreFramed(relations, acked, msgs);
  }

  /** The visible changes of a run, in order, whatever the frames around them. */
  function VisibleBodies(relations: map<nat, Relation>, msgs: seq<(Msg, Lsn)>): seq<RowChange> {
    if msgs == [] then []
    else VisibleBodies(relations, msgs[..|msgs| - 1])
         + Bodies(HandleAll(DecoderState(relations, NO_TX, 0), msgs[..|msgs| - 1]).0.relations, msgs[|msgs| - 1].0)
  }

  function BodiesOf(evs: seq<Event>): seq<RowChange> {
    if evs == [] then []
    else if evs[|evs| - 1].Change? then BodiesOf(evs[..|evs| - 1]) + [evs[|evs| - 1].body]
    else BodiesOf(evs[..|evs| - 1])
  }

  lemma {:induction false} BodiesOfConcat(a: seq<Event>, b: seq<Event>)
    ensures BodiesOf(a + b) == BodiesOf(a) + BodiesOf(b)
  {
    if b == [] {
      assert a + b == a;
    } else {
      assert (a + b)[..|a + b| - 1] == a + b[..|b| - 1];
      BodiesOfConcat(a, b[..|b| - 1]);
    }
  }

  lemma {:induction false} BodiesOfChanges(tx: TxState, record: Lsn, bodies: seq<RowChange>)
    ensures BodiesOf(ChangesOf(tx, record, bodies)) == bodies
  {
    var cs := ChangesOf(tx, record, bodies);
    if bodies != [] {
      BodiesOfChanges(tx, record, bodies[..|bodies| - 1]);
      assert cs[..|cs| - 1] == ChangesOf(tx, record, bodies[..|bodies| - 1]);
    }
  }

  lemma MessageBodies(d: DecoderState, m: Msg, record: Lsn)
    ensures BodiesOf(Handle(d, m, record).1) == Bodies(d.relations, m)
  {
    if IsRowMsg(m) {
      var bodies := Bodies(d.relations, m);
      var opening := if bodies != [] && MustOpen(d.tx) then [Begin(d.tx.xid, d.tx.commit.value)] else [];
      assert BodiesOf(opening) == [];
      BodiesOfConcat(opening, ChangesOf(d.tx, record, bodies));
      BodiesOfChanges(d.tx, record, bodies);
    }
  }

  /** Nothing visible is left out of the frames and nothing is added to them. */
  lemma {:induction false} NothingLostInDecoding(relations: map<nat, Relation>, msgs: seq<(Msg, Lsn)>)
    ensures BodiesOf(HandleAll(DecoderState(relations, NO_TX, 0), msgs).1) == VisibleBodies(relations, msgs)
  {
    if msgs != [] {
      hide Handle, Bodies, BodiesOf;
      var front, m, record := msgs[..|msgs| - 1], msgs[|msgs| - 1].0, msgs[|msgs| - 1].1;
      NothingLostInDecoding(relations, front);
      var (d1, evs) := HandleAll(DecoderState(relations, NO_TX, 0), front);
      BodiesOfConcat(evs, Handle(d1, m, record).1);
      MessageBodies(d1, m, record);
    } else {
      assert BodiesOf([]) == [];
    }
  }
}
