/**
 The whole feed as steps: the server's log and slot, one decoder connection at a time, the hub,
 and any number of subscribers joining, reading, falling behind and leaving.

 The server replays, in commit order, every transaction whose commit position is not below the
 position a connection starts from, so delivery is at least once. A connection can drop at any
 point where the decoder is not inside `handleMessage`; the next one starts from the slot's
 confirmed position. `emitted` is every event the decoder has built, `emitted[..shown]` those
 the hub has published.
 */
module Feed {
  import opened Wrappers
  import opened Wire
  import opened FeedEvents
  import opened DecoderSpec
  import opened HubSpec

  /** A row message of a transaction, with the shapes of its relations when it was written. */
  datatype LogRow = LogRow(msg: Msg, shapes: map<nat, Relation>, at: Lsn)
  datatype Tx = Tx(xid: nat, commit: Lsn, rows: seq<LogRow>)

  predicate GoodRow(r: LogRow) {
    IsRowMsg(r.msg) && Ids(r.msg) <= r.shapes.Keys
  }

  predicate GoodTx(t: Tx) {
    forall i :: 0 <= i < |t.rows| ==> GoodRow(t.rows[i])
  }

  // What a transaction owes a subscriber, read off the log alone.

  function TxOf(t: Tx): TxState {
    TxState(t.xid, Some(t.commit), 0, false)
  }

  function RowEvents(t: Tx, k: nat): seq<Event>
    requires k <= |t.rows|
  {
    if k == 0 then []
    else RowEvents(t, k - 1) + ChangesOf(TxOf(t), t.rows[k - 1].at, Bodies(t.rows[k - 1].shapes, t.rows[k - 1].msg))
  }

  predicate Visible(t: Tx) {
    RowEvents(t, |t.rows|) != []
  }

  /** The frame after `k` rows: nothing until the first visible change. */
  function Progress(t: Tx, k: nat): seq<Event>
    requires k <= |t.rows|
  {
    if RowEvents(t, k) == [] then [] else [Begin(t.xid, t.commit)] + RowEvents(t, k)
  }

  function FrameOf(t: Tx): seq<Event> {
    if Visible(t) then Progress(t, |t.rows|) + [Commit(t.xid, t.commit, |RowEvents(t, |t.rows|)|)] else []
  }

  // The state.

  datatype Pc = Receiving | Checking | Reported

  /** `sent` is how many rows of `log[idx]` this connection has sent, or none before its begin. */
  datatype Conn =
    | Down
    | Up(dec: DecoderState, announced: map<nat, Relation>, idx: nat, sent: Option<nat>, mark: nat, pc: Pc, reported: Lsn)

  /**
   What is remembered about a stream, for the statements below: where it attached, everything that
   was put in its buffer, the first event it missed, and where it ended. `hole` is the transaction
   open when it first missed one, `pendedIn` the connection that transaction was begun on.
   */
  datatype Watch = Watch(
    since: Lsn, admitted: bool, from: nat, got: seq<Event>,
    lost: Option<nat>, hole: nat, pendedIn: nat, until: Option<nat>)

  datatype State = State(
    log: seq<Tx>, confirmed: Lsn, hub: HubState, conn: Conn,
    emitted: seq<Event>, shown: nat,
    frames: seq<(nat, nat)>, openTx: nat, openIn: nat, epoch: nat,
    watches: map<nat, Watch>,
    start: Lsn, origin: Lsn, resume: Lsn, untried: bool)

  datatype Step =
    | CommitTx(tx: Tx)
    | FailAttempt
    | Connect
    | SendBegin
    | SendRelation(id: nat, rel: Relation, at: Lsn)
    | SendRow
    | SendCommit
    | PublishNext
    | Carry
    | Report
    | ReleaseStep
    | Standby
    | Drop(heard: bool)
    | Join(since: Lsn, capacity: nat)
    | ReadNext(id: nat)
    | Leave(id: nat)
    | GiveUp(code: Code)

  function Max(a: nat, b: nat): nat {
    if a < b then b else a
  }

  /** The first transaction whose commit position is not below `at`. */
  function StartIdx(log: seq<Tx>, at: Lsn): (r: nat)
    ensures r <= |log|
  {
    if log == [] then 0
    else if log[|log| - 1].commit < at then |log|
    else StartIdx(log[..|log| - 1], at)
  }

  predicate Increasing(log: seq<Tx>) {
    forall i, j :: 0 <= i < j < |log| ==> log[i].commit < log[j].commit
  }

  /**
   A feed as it starts. `start` is the floor the hub was told; `origin` is where the decoder's first connection
   really begins. A feed resumes from the floor it was told, or from nowhere.
   */
  predicate Starting(f: State) {
    && Increasing(f.log) && (forall i :: 0 <= i < |f.log| ==> GoodTx(f.log[i]))
    && f.origin == Max(f.resume, f.confirmed) && f.resume <= f.start
    && f.hub == StartedAt(NewHub(), f.start)
    && f.conn == Down && f.emitted == [] && f.shown == 0
    && |f.frames| == StartIdx(f.log, f.origin)
    && (forall i :: 0 <= i < |f.frames| ==> f.frames[i] == (0, 0))
    && f.watches == map[] && f.untried && f.epoch == 0 && f.openIn == 0
  }

  /** The feed is only as good as its floor: nothing visible lies above it and before the point the feed begins at. */
  predicate Whole(f: State) {
    forall i :: 0 <= i < |f.log| && Visible(f.log[i]) && f.log[i].commit > f.start ==> f.log[i].commit >= f.origin
  }

  predicate Init(f: State) {
    Starting(f) && Whole(f)
  }

  predicate Idle(f: State) {
    f.conn.Up? && f.conn.pc == Receiving && f.shown == |f.emitted|
  }

  predicate Announced(r: LogRow, announced: map<nat, Relation>) {
    forall id :: id in Ids(r.msg) ==> id in announced && id in r.shapes && announced[id] == r.shapes[id]
  }

  /** A transaction commits past the whole log; the start and the point the feed begins at are within the log. */
  predicate Enabled(f: State, s: Step) {
    match s
    case CommitTx(t) =>
      GoodTx(t) && t.commit >= f.start && t.commit >= f.origin && (f.log != [] ==> f.log[|f.log| - 1].commit < t.commit)
    case FailAttempt => f.conn.Down?
    case Connect => f.conn.Down?
    case SendBegin => Idle(f) && f.conn.sent.None? && f.conn.idx < |f.log|
    case SendRelation(_, _, _) => Idle(f)
    case SendRow =>
      && Idle(f) && f.conn.sent.Some? && f.conn.idx < |f.log|
      && f.conn.sent.value < |f.log[f.conn.idx].rows|
      && Announced(f.log[f.conn.idx].rows[f.conn.sent.value], f.conn.announced)
    case SendCommit =>
      Idle(f) && f.conn.sent.Some? && f.conn.idx < |f.log| && f.conn.sent.value == |f.log[f.conn.idx].rows|
    case PublishNext => f.conn.Up? && f.shown < |f.emitted|
    case Carry => f.conn.Up? && f.conn.pc == Checking && f.shown == |f.emitted| && !f.hub.releasable
    case Report => f.conn.Up? && f.conn.pc == Checking && f.shown == |f.emitted| && f.hub.releasable
    case ReleaseStep => f.conn.Up? && f.conn.pc == Reported && f.shown == |f.emitted|
    case Standby => Idle(f)
    case Drop(_) => f.conn.Up? && f.conn.pc != Reported && f.shown == |f.emitted|
    case Join(_, _) => true
    case ReadNext(id) => id in f.hub.streams && f.hub.streams[id].buffer != []
    case Leave(id) => id in f.hub.streams
    case GiveUp(code) => code == DecoderFailed || code == SlotLost || code == CursorExpired
  }

  /** One message from the server through the decoder: its events queue up to be published. */
  function Receive(f: State, m: Msg, at: Lsn): State
    requires f.conn.Up?
  {
    var (d, evs) := Handle(f.conn.dec, m, at);
    f.(conn := f.conn.(dec := d, pc := Checking), emitted := f.emitted + evs)
  }

  function Dial(f: State): State {
    var since := if f.untried then f.resume else 0;
    f.(conn := Up(DecoderState(map[], NO_TX, since), map[], StartIdx(f.log, Max(since, f.confirmed)), None,
                  |f.emitted|, Receiving, 0),
       untried := false, epoch := f.epoch + 1)
  }

  function OnBegin(f: State): State
    requires f.conn.Up? && f.conn.idx < |f.log|
  {
    var t := f.log[f.conn.idx];
    var g := Receive(f, BeginMsg(t.xid, t.commit), t.commit);
    g.(conn := g.conn.(sent := Some(0), mark := |f.emitted|))
  }

  function OnRelation(f: State, id: nat, rel: Relation, at: Lsn): State
    requires f.conn.Up?
  {
    var g := Receive(f, RelationMsg(id, rel), at);
    g.(conn := g.conn.(announced := g.conn.announced[id := rel]))
  }

  function OnRow(f: State): State
    requires f.conn.Up? && f.conn.idx < |f.log| && f.conn.sent.Some?
    requires f.conn.sent.value < |f.log[f.conn.idx].rows|
  {
    var row := f.log[f.conn.idx].rows[f.conn.sent.value];
    var g := Receive(f, row.msg, row.at);
    var opening := g.conn.dec.tx.begun && !f.conn.dec.tx.begun;
    g.(conn := g.conn.(sent := Some(f.conn.sent.value + 1)),
       openTx := if opening then f.conn.idx else f.openTx,
       openIn := if opening then f.epoch else f.openIn)
  }

  function OnCommit(f: State): State
    requires f.conn.Up? && f.conn.idx < |f.log|
  {
    var t := f.log[f.conn.idx];
    var g := Receive(f, CommitMsg(t.commit), t.commit);
    g.(conn := g.conn.(sent := None, idx := f.conn.idx + 1),
       frames := if f.conn.idx == |f.frames| then f.frames + [(f.conn.mark, |g.emitted|)] else f.frames)
  }

  function WatchOffer(w: Watch, s: Stream, ev: Event, full: Notice, at: nat, hole: nat, pendedIn: nat): Watch {
    if s.done then w
    else if |s.buffer| < s.capacity then w.(got := w.got + [ev])
    else if !s.pending.NoNotice? then w
    else if full == Resync(TxTooLarge) then w.(lost := Some(at), hole := hole, pendedIn := pendedIn)
    else w.(lost := Some(at), hole := hole, until := Some(at + 1))
  }

  /** The transaction an event about to be published belongs to. */
  function HoleOf(f: State): nat
    requires f.conn.Up? && f.shown < |f.emitted|
  {
    if f.emitted[f.shown].Commit? then Pred(f.conn.idx) else f.openTx
  }

  function Pred(n: nat): nat {
    if n == 0 then 0 else n - 1
  }

  function OnPublish(f: State): State
    requires f.conn.Up? && f.shown < |f.emitted|
  {
    var ev := f.emitted[f.shown];
    var full := OverflowNotice(Note(f.hub, ev).inTx);
    f.(hub := Publish(f.hub, ev), shown := f.shown + 1,
       watches := map id | id in f.watches && id in f.hub.streams ::
         WatchOffer(f.watches[id], f.hub.streams[id], ev, full, f.shown, HoleOf(f), f.openIn))
  }

  function Acknowledge(f: State): State
    requires f.conn.Up?
  {
    f.(confirmed := Max(f.confirmed, f.conn.dec.acked), conn := f.conn.(reported := f.conn.dec.acked))
  }

  /** Streams that end in this step stop being owed anything from here on. */
  function Settle(f: State, hub: HubState): State {
    f.(hub := hub,
       watches := map id | id in f.watches ::
         if f.watches[id].until.None? && id in hub.streams && hub.streams[id].done
         then f.watches[id].(until := Some(f.shown)) else f.watches[id])
  }

  function OnJoin(f: State, since: Lsn, capacity: nat): State {
    var hub := Subscribe(f.hub, capacity);
    f.(hub := hub,
       watches := f.watches[hub.nextId :=
         Watch(since, since >= f.hub.floor, f.shown, [], None, 0, 0, if f.hub.closed then Some(f.shown) else None)])
  }

  function OnRead(f: State, id: nat): State
    requires id in f.hub.streams && f.hub.streams[id].buffer != []
  {
    f.(hub := Read(f.hub, id))
  }

  function OnLeave(f: State, id: nat): State
    requires id in f.hub.streams
  {
    Settle(f, CloseStream(f.hub, id))
  }

  function OnGiveUp(f: State, n: Notice): State {
    Settle(f, Close(f.hub, n))
  }

  function OnRelease(f: State): State
    requires f.conn.Up?
  {
    var g := Settle(f, ReleasePending(f.hub));
    g.(conn := g.conn.(pc := Receiving))
  }

  function OnReport(f: State): State
    requires f.conn.Up?
  {
    var g := Acknowledge(f);
    g.(conn := g.conn.(pc := Reported))
  }

  function OnDrop(f: State, heard: bool): State
    requires f.conn.Up?
  {
    (if heard then Acknowledge(f) else f).(conn := Down)
  }

  function OnCarry(f: State): State
    requires f.conn.Up?
  {
    f.(conn := f.conn.(pc := Receiving))
  }

  function OnTx(f: State, t: Tx): State {
    f.(log := f.log + [t])
  }

  function OnFail(f: State): State {
    f.(untried := false)
  }

  function Next(f: State, s: Step): State
    requires Enabled(f, s)
  {
    match s
    case CommitTx(t) => OnTx(f, t)
    case FailAttempt => OnFail(f)
    case Connect => Dial(f)
    case SendBegin => OnBegin(f)
    case SendRelation(id, rel, at) => OnRelation(f, id, rel, at)
    case SendRow => OnRow(f)
    case SendCommit => OnCommit(f)
    case PublishNext => OnPublish(f)
    case Carry => OnCarry(f)
    case Report => OnReport(f)
    case ReleaseStep => OnRelease(f)
    case Standby => Acknowledge(f)
    case Drop(heard) => OnDrop(f, heard)
    case Join(since, capacity) => OnJoin(f, since, capacity)
    case ReadNext(id) => OnRead(f, id)
    case Leave(id) => OnLeave(f, id)
    case GiveUp(code) => OnGiveUp(f, if code == DecoderFailed then Error(code) else Resync(code))
  }

  /** A whole run; a step that is not enabled does nothing. */
  function Run(f: State, steps: seq<Step>): State {
    if steps == [] then f
    else
      var g := Run(f, steps[..|steps| - 1]);
      if Enabled(g, steps[|steps| - 1]) then Next(g, steps[|steps| - 1]) else g
  }

  lemma {:induction false} RunConcat(f: State, a: seq<Step>, b: seq<Step>)
    ensures Run(f, a + b) == Run(Run(f, a), b)
  {
    if b == [] {
      assert a + b == a;
    } else {
      assert (a + b)[..|a + b| - 1] == a + b[..|b| - 1];
      RunConcat(f, a, b[..|b| - 1]);
    }
  }

  lemma RunOne(f: State, s: Step)
    ensures Run(f, []) == f && Run(f, [s]) == if Enabled(f, s) then Next(f, s) else f
  {
    hide Enabled, Next;
    assert [s][..0] == [];
  }
}
