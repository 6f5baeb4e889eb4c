/**
 The feed on one table and at most one stream, boiled down to what its steps depend on, for writing out particular
 runs. A sketch is followed step by step by any state it is drawn from.
 */
module FeedSketch {
  import opened Wrappers
  import opened Wire
  import opened FeedEvents
  import opened DecoderSpec
  import opened HubSpec
  import opened Feed

  const REL := Relation("s", "t", [], 'd')
  const KNOWN: map<nat, Relation> := map[1 := REL]
  const ROW := LogRow(TruncateMsg([1]), KNOWN, 0)
  const BODY := BuildChange(REL, Truncate, [], [])

  /** A transaction that truncates the table, and nothing else. */
  function One(xid: nat, commit: Lsn): Tx {
    Tx(xid, commit, [ROW])
  }

  predicate Simple(log: seq<Tx>) {
    forall i :: 0 <= i < |log| ==> log[i].rows == [ROW]
  }

  datatype Link = Cut | Linked(known: bool, tx: TxState, acked: Lsn, idx: nat, sent: Option<nat>, pc: Pc, reported: Lsn)

  datatype Listener = Listener(
    since: Lsn, held: nat, capacity: nat, done: bool, reason: Notice, pending: Notice,
    got: seq<Event>, lost: bool, hole: nat, pendedIn: nat)

  datatype Sketch = Sketch(
    log: seq<Tx>, confirmed: Lsn, resume: Lsn, untried: bool, epoch: nat, frames: nat, openTx: nat, openIn: nat,
    link: Link, queue: seq<Event>, inTx: bool, releasable: bool, listener: Option<Listener>)

  predicate LinkOf(c: Conn, l: Link) {
    match l
    case Cut => c.Down?
    case Linked(known, tx, acked, idx, sent, pc, reported) =>
      && c.Up? && c.dec == DecoderState(if known then KNOWN else map[], tx, acked)
      && c.announced == (if known then KNOWN else map[])
      && c.idx == idx && c.sent == sent && c.pc == pc && c.reported == reported
  }

  predicate ListenerOf(s: Stream, w: Watch, l: Listener) {
    && |s.buffer| == l.held && s.capacity == l.capacity && s.done == l.done && s.reason == l.reason && s.pending == l.pending
    && w.got == l.got && w.lost.Some? == l.lost && w.hole == l.hole && w.pendedIn == l.pendedIn
    && w.until.Some? == l.done && w.since == l.since
  }

  predicate HubOf(f: State, k: Sketch) {
    && f.hub.inTx == k.inTx && f.hub.releasable == k.releasable && !f.hub.closed
    && match k.listener
       case None => f.hub.streams == map[] && f.watches == map[] && f.hub.nextId == 0
       case Some(l) =>
         && f.hub.nextId == 1 && f.hub.streams.Keys == {1} && f.watches.Keys == {1}
         && ListenerOf(f.hub.streams[1], f.watches[1], l)
  }

  predicate Drawn(f: State, k: Sketch) {
    && f.log == k.log && f.confirmed == k.confirmed && f.resume == k.resume && f.untried == k.untried
    && f.epoch == k.epoch && |f.frames| == k.frames && f.openTx == k.openTx && f.openIn == k.openIn
    && f.shown <= |f.emitted| && f.emitted[f.shown..] == k.queue
    && LinkOf(f.conn, k.link) && HubOf(f, k)
  }

  // The steps.

  predicate CanTake(k: Sketch, s: Step) {
    match s
    case Connect => k.link.Cut?
    case SendRelation(id, rel, at) =>
      k.link.Linked? && k.link.pc == Receiving && k.queue == [] && id == 1 && rel == REL && !k.link.known
    case SendBegin => k.link.Linked? && k.link.pc == Receiving && k.queue == [] && k.link.sent.None? && k.link.idx < |k.log|
    case SendRow =>
      && k.link.Linked? && k.link.pc == Receiving && k.queue == [] && k.link.sent == Some(0) && k.link.idx < |k.log|
      && k.log[k.link.idx].rows == [ROW] && k.link.known && k.link.tx.commit.Some? && !k.link.tx.begun
    case SendCommit =>
      && k.link.Linked? && k.link.pc == Receiving && k.queue == [] && k.link.sent == Some(1) && k.link.idx < |k.log|
      && k.log[k.link.idx].rows == [ROW] && k.link.tx.begun
    case PublishNext => k.link.Linked? && k.queue != []
    case Carry => k.link.Linked? && k.link.pc == Checking && k.queue == [] && !k.releasable
    case Report => k.link.Linked? && k.link.pc == Checking && k.queue == [] && k.releasable
    case ReleaseStep => k.link.Linked? && k.link.pc == Reported && k.queue == []
    case Drop(heard) => !heard && k.link.Linked? && k.link.pc != Reported && k.queue == []
    case Join(_, _) => k.listener.None?
    case _ => false
  }

  function Dialled(k: Sketch): Sketch {
    var since := if k.untried then k.resume else 0;
    k.(link := Linked(false, NO_TX, since, StartIdx(k.log, Max(since, k.confirmed)), None, Receiving, 0),
       untried := false, epoch := k.epoch + 1)
  }

  function Offered(l: Listener, ev: Event, full: Notice, hole: nat, pendedIn: nat): Listener {
    if l.done then l
    else if l.held < l.capacity then l.(held := l.held + 1, got := l.got + [ev])
    else if !l.pending.NoNotice? then l
    else if full == Resync(TxTooLarge) then l.(pending := full, lost := true, hole := hole, pendedIn := pendedIn)
    else l.(done := true, reason := full, lost := true, hole := hole)
  }

  predicate Held(k: Option<Listener>) {
    k.Some? && !k.value.done && !k.value.pending.NoNotice?
  }

  function InTx(inTx: bool, ev: Event): bool {
    if ev.Begin? then true else if ev.Commit? then false else inTx
  }

  function Published(k: Sketch): Sketch
    requires k.link.Linked? && k.queue != []
  {
    var ev := k.queue[0];
    var full := OverflowNotice(InTx(k.inTx, ev));
    var hole := if ev.Commit? then Pred(k.link.idx) else k.openTx;
    var l := if k.listener.None? then None else Some(Offered(k.listener.value, ev, full, hole, k.openIn));
    k.(queue := k.queue[1..], inTx := InTx(k.inTx, ev), listener := l, releasable := if ev.Commit? then Held(l) else k.releasable)
  }

  function Released(l: Listener): Listener {
    if !l.done && !l.pending.NoNotice? then l.(done := true, reason := l.pending, pending := NoNotice) else l
  }

  function Take(k: Sketch, s: Step): Sketch
    requires CanTake(k, s)
  {
    match s
    case Connect => Dialled(k)
    case SendRelation(_, _, _) => k.(link := k.link.(known := true, pc := Checking), queue := [Schema("s.t", [])])
    case SendBegin =>
      var t := k.log[k.link.idx];
      k.(link := k.link.(tx := TxState(t.xid, Some(t.commit), 0, false), sent := Some(0), pc := Checking))
    case SendRow =>
      var t := k.link.tx;
      k.(link := k.link.(tx := t.(changes := t.changes + 1, begun := true), sent := Some(1), pc := Checking),
         queue := [Begin(t.xid, t.commit.value), Change(t.xid, t.commit.value, 0, BODY)],
         openTx := k.link.idx, openIn := k.epoch)
    case SendCommit =>
      var t, c := k.link.tx, k.log[k.link.idx].commit;
      k.(link := k.link.(tx := NO_TX, acked := c, sent := None, idx := k.link.idx + 1, pc := Checking),
         queue := [Commit(t.xid, c, t.changes)], frames := if k.link.idx == k.frames then k.frames + 1 else k.frames)
    case PublishNext => Published(k)
    case Carry => k.(link := k.link.(pc := Receiving))
    case Report =>
      k.(confirmed := Max(k.confirmed, k.link.acked), link := k.link.(reported := k.link.acked, pc := Reported))
    case ReleaseStep =>
      k.(link := k.link.(pc := Receiving), releasable := false,
         listener := if k.listener.None? then None else Some(Released(k.listener.value)))
    case Drop(_) => k.(link := Cut)
    case Join(since, capacity) =>
      k.(listener := Some(Listener(since, 0, capacity, false, NoNotice, NoNotice, [], false, 0, 0)))
  }

  // A state follows its sketch.

  lemma FollowConnect(f: State, k: Sketch)
    requires Drawn(f, k) && CanTake(k, Connect)
    ensures Enabled(f, Connect) && Drawn(Dial(f), Dialled(k))
  {
    hide StartIdx, HubOf;
    assert HubOf(Dial(f), Dialled(k)) by { SameHub(f, Dial(f), k, Dialled(k)); }
  }

  lemma SameHub(f: State, g: State, k: Sketch, m: Sketch)
    requires HubOf(f, k) && g.hub == f.hub && g.watches == f.watches
    requires m.inTx == k.inTx && m.releasable == k.releasable && m.listener == k.listener
    ensures HubOf(g, m)
  {
  }

  lemma Queue(f: State, g: State, k: Sketch, evs: seq<Event>)
    requires Drawn(f, k) && k.queue == [] && g.emitted == f.emitted + evs && g.shown == f.shown
    ensures g.shown <= |g.emitted| && g.emitted[g.shown..] == evs && f.shown == |f.emitted|
  {
    assert |f.emitted[f.shown..]| == 0;
  }

  lemma FollowRelation(f: State, k: Sketch, at: Lsn)
    requires Drawn(f, k) && CanTake(k, SendRelation(1, REL, at))
    ensures Enabled(f, SendRelation(1, REL, at))
    ensures Drawn(OnRelation(f, 1, REL, at), Take(k, SendRelation(1, REL, at)))
  {
    var g := OnRelation(f, 1, REL, at);
    var evs := [Schema("s.t", [])];
    assert Handle(f.conn.dec, RelationMsg(1, REL), at) ==
      (f.conn.dec.(relations := KNOWN), evs) by {
      assert f.conn.dec.relations[1 := REL] == KNOWN;
      assert Qualified(REL) == "s.t";
    }
    hide Handle, HubOf;
    Queue(f, g, k, evs);
    SameHub(f, g, k, Take(k, SendRelation(1, REL, at)));
  }

  lemma FollowBegin(f: State, k: Sketch)
    requires Drawn(f, k) && CanTake(k, SendBegin)
    ensures Enabled(f, SendBegin) && Drawn(OnBegin(f), Take(k, SendBegin))
  {
    hide HubOf;
    Queue(f, OnBegin(f), k, []);
    SameHub(f, OnBegin(f), k, Take(k, SendBegin));
  }

  lemma RowBodies()
    ensures Bodies(KNOWN, TruncateMsg([1])) == [BODY] && Ids(TruncateMsg([1])) == {1}
  {
    assert [1][..0] == [];
    assert TruncateBodies(KNOWN, []) == [];
  }

  lemma RowHandled(d: DecoderState)
    requires d.relations == KNOWN && d.tx.commit.Some? && !d.tx.begun
    ensures Handle(d, TruncateMsg([1]), 0) == (d.(tx := d.tx.(changes := d.tx.changes + 1, begun := true)),
      [Begin(d.tx.xid, d.tx.commit.value), Change(d.tx.xid, d.tx.commit.value, 0, BODY)])
  {
    RowBodies();
    hide Bodies;
    var c := Change(d.tx.xid, d.tx.commit.value, 0, BODY);
    assert ChangesOf(d.tx, 0, [BODY]) == [c];
    assert Emitted(d.tx, 0, [BODY]) == [Begin(d.tx.xid, d.tx.commit.value), c];
  }

  lemma FollowRow(f: State, k: Sketch)
    requires Drawn(f, k) && CanTake(k, SendRow)
    ensures Enabled(f, SendRow) && Drawn(OnRow(f), Take(k, SendRow))
  {
    hide HubOf, Bodies;
    RowBodies();
    var t := f.conn.dec.tx;
    var evs := [Begin(t.xid, t.commit.value), Change(t.xid, t.commit.value, 0, BODY)];
    RowHandled(f.conn.dec);
    hide Handle;
    Queue(f, OnRow(f), k, evs);
    SameHub(f, OnRow(f), k, Take(k, SendRow));
  }

  lemma FollowCommit(f: State, k: Sketch)
    requires Drawn(f, k) && CanTake(k, SendCommit)
    ensures Enabled(f, SendCommit) && Drawn(OnCommit(f), Take(k, SendCommit))
  {
    hide HubOf;
    var t, c := f.conn.dec.tx, f.log[f.conn.idx].commit;
    Queue(f, OnCommit(f), k, [Commit(t.xid, c, t.changes)]);
    SameHub(f, OnCommit(f), k, Take(k, SendCommit));
  }

  lemma OfferFollows(s: Stream, w: Watch, l: Listener, ev: Event, full: Notice, at: nat, hole: nat, pendedIn: nat)
    requires ListenerOf(s, w, l) && full != NoNotice
    ensures ListenerOf(if s.done then s else Offer(s, ev, full), WatchOffer(w, s, ev, full, at, hole, pendedIn),
                       Offered(l, ev, full, hole, pendedIn))
  {
  }

  lemma PublishHub(f: State, k: Sketch)
    requires f.conn.Up? && k.link.Linked? && f.conn.idx == k.link.idx && f.openTx == k.openTx && f.openIn == k.openIn
    requires f.shown < |f.emitted| && k.queue != [] && k.queue[0] == f.emitted[f.shown] && HubOf(f, k)
    ensures HubOf(OnPublish(f), Published(k))
  {
    var ev := f.emitted[f.shown];
    var full := OverflowNotice(InTx(k.inTx, ev));
    hide Offer, WatchOffer, Offered;
    if k.listener.Some? {
      PublishedOne(f, full);
      OfferFollows(f.hub.streams[1], f.watches[1], k.listener.value, ev, full, f.shown, HoleOf(f), f.openIn);
      hide OnPublish;
    } else {
      PublishedNone(f);
      hide OnPublish;
    }
  }

  lemma PublishedOne(f: State, full: Notice)
    requires f.conn.Up? && f.shown < |f.emitted| && f.hub.streams.Keys == {1} && f.watches.Keys == {1}
    requires full == OverflowNotice(InTx(f.hub.inTx, f.emitted[f.shown]))
    ensures var g, ev, s := OnPublish(f), f.emitted[f.shown], f.hub.streams[1];
      && g.hub.nextId == f.hub.nextId && g.hub.closed == f.hub.closed && g.hub.inTx == InTx(f.hub.inTx, ev)
      && g.hub.streams.Keys == {1} && g.watches.Keys == {1}
      && g.hub.streams[1] == (if s.done then s else Offer(s, ev, full))
      && g.watches[1] == WatchOffer(f.watches[1], s, ev, full, f.shown, HoleOf(f), f.openIn)
      && g.hub.releasable == if ev.Commit? then Waiting(g.hub.streams[1]) else f.hub.releasable
  {
    hide Offer, WatchOffer, Waiting;
    OnlyOne(OnPublish(f).hub.streams);
  }

  lemma OnlyOne(streams: map<nat, Stream>)
    ensures streams.Keys == {1} ==> (AnyWaiting(streams) <==> Waiting(streams[1]))
    ensures streams == map[] ==> !AnyWaiting(streams)
  {
  }

  lemma PublishedNone(f: State)
    requires f.conn.Up? && f.shown < |f.emitted| && f.hub.streams == map[] && f.watches == map[]
    ensures var g, ev := OnPublish(f), f.emitted[f.shown];
      && g.hub.nextId == f.hub.nextId && g.hub.closed == f.hub.closed && g.hub.inTx == InTx(f.hub.inTx, ev)
      && g.hub.streams == map[] && g.watches == map[]
      && g.hub.releasable == if ev.Commit? then false else f.hub.releasable
  {
    hide Offer, WatchOffer, Waiting;
    OnlyOne(OnPublish(f).hub.streams);
  }

  lemma FollowPublish(f: State, k: Sketch)
    requires Drawn(f, k) && CanTake(k, PublishNext)
    ensures Enabled(f, PublishNext) && Drawn(OnPublish(f), Published(k))
  {
    assert f.shown < |f.emitted| && k.queue[0] == f.emitted[f.shown];
    assert f.emitted[f.shown + 1..] == k.queue[1..];
    PublishHub(f, k);
    hide HubOf, Publish, Offered;
  }

  lemma FollowRelease(f: State, k: Sketch)
    requires Drawn(f, k) && CanTake(k, ReleaseStep)
    ensures Enabled(f, ReleaseStep) && Drawn(OnRelease(f), Take(k, ReleaseStep))
  {
    assert f.shown == |f.emitted| by { assert |f.emitted[f.shown..]| == 0; }
    ReleaseHub(f, k, Take(k, ReleaseStep));
    hide HubOf, ReleasePending, Released;
  }

  lemma ReleaseHub(f: State, k: Sketch, m: Sketch)
    requires f.conn.Up? && HubOf(f, k) && m.inTx == k.inTx && !m.releasable
    requires m.listener == if k.listener.None? then None else Some(Released(k.listener.value))
    ensures HubOf(OnRelease(f), m)
  {
    if k.listener.Some? {
      var g := OnRelease(f);
      assert g.hub.streams.Keys == {1} && g.watches.Keys == {1};
    } else {
      assert OnRelease(f).hub.streams == map[] && OnRelease(f).watches == map[];
    }
  }

  lemma FollowJoin(f: State, k: Sketch, since: Lsn, capacity: nat)
    requires Drawn(f, k) && CanTake(k, Join(since, capacity))
    ensures Drawn(OnJoin(f, since, capacity), Take(k, Join(since, capacity)))
  {
    var g := OnJoin(f, since, capacity);
    assert g.hub.streams == map[1 := Stream([], capacity, false, NoNotice, NoNotice)];
  }

  lemma FollowOther(f: State, k: Sketch, s: Step)
    requires Drawn(f, k) && CanTake(k, s) && (s.Carry? || s.Report? || s.Drop?)
    ensures Enabled(f, s) && Drawn(Next(f, s), Take(k, s))
  {
    hide HubOf;
    assert f.shown == |f.emitted| by { assert |f.emitted[f.shown..]| == 0; }
    assert f.hub.releasable == k.releasable by { HubFlags(f, k); }
    SameHub(f, Next(f, s), k, Take(k, s));
  }

  lemma HubFlags(f: State, k: Sketch)
    requires HubOf(f, k)
    ensures f.hub.releasable == k.releasable
  {
  }

  lemma Follow(f: State, k: Sketch, s: Step)
    requires Drawn(f, k) && CanTake(k, s)
    ensures Enabled(f, s) && Drawn(Next(f, s), Take(k, s))
  {
    hide Drawn;
    match s
    case Connect => FollowConnect(f, k);
    case SendRelation(_, _, at) => FollowRelation(f, k, at);
    case SendBegin => FollowBegin(f, k);
    case SendRow => FollowRow(f, k);
    case SendCommit => FollowCommit(f, k);
    case PublishNext => FollowPublish(f, k);
    case ReleaseStep => FollowRelease(f, k);
    case Join(since, capacity) => FollowJoin(f, k, since, capacity);
    case Carry => FollowOther(f, k, s);
    case Report => FollowOther(f, k, s);
    case Drop(_) => FollowOther(f, k, s);
  }

  /** A feed that starts, drawn. */
  function Fresh(log: seq<Tx>, confirmed: Lsn, resume: Lsn): Sketch {
    Sketch(log, confirmed, resume, true, 0, StartIdx(log, Max(resume, confirmed)), 0, 0, Cut, [], false, false, None)
  }

  function FreshFeed(log: seq<Tx>, confirmed: Lsn, resume: Lsn): State {
    var origin := Max(resume, confirmed);
    State(log, confirmed, StartedAt(NewHub(), origin), Down, [], 0, seq(StartIdx(log, origin), _ => (0, 0)),
          0, 0, 0, map[], origin, origin, resume, true)
  }

  lemma FreshIsInit(log: seq<Tx>, confirmed: Lsn, resume: Lsn)
    requires Increasing(log) && Simple(log)
    ensures Init(FreshFeed(log, confirmed, resume)) && Drawn(FreshFeed(log, confirmed, resume), Fresh(log, confirmed, resume))
  {
    hide StartIdx, Visible;
    RowBodies();
    assert GoodRow(ROW);
    forall i | 0 <= i < |log| ensures GoodTx(log[i]) {
    }
  }

  /** A feed told a floor below where the slot is. */
  function LateFeed(log: seq<Tx>, confirmed: Lsn, start: Lsn): State {
    FreshFeed(log, confirmed, 0).(hub := StartedAt(NewHub(), start), start := start)
  }

  lemma LateIsStarting(log: seq<Tx>, confirmed: Lsn, start: Lsn)
    requires Increasing(log) && Simple(log)
    ensures Starting(LateFeed(log, confirmed, start)) && Drawn(LateFeed(log, confirmed, start), Fresh(log, confirmed, 0))
  {
    FreshIsInit(log, confirmed, 0);
    hide StartIdx, Visible, GoodTx;
  }

  /** One more step of a run that is drawn. */
  lemma Draw(f0: State, steps: seq<Step>, k: Sketch, s: Step)
    requires Drawn(Run(f0, steps), k) && CanTake(k, s)
    ensures Drawn(Run(f0, steps + [s]), Take(k, s))
  {
    hide Drawn, CanTake, Enabled, Next;
    assert (steps + [s])[..|steps|] == steps;
    Follow(Run(f0, steps), k, s);
  }
}
