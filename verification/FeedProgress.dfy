/**
 What a feed can always still do. From every state of every run there are steps after which a stream that is attached
 and has missed nothing has been given what it is due: its reader reads, the connection publishes what it has, is
 dropped if it stands in the middle of something, and the next one sends the log from where the slot is. So a
 transaction that can no longer reach such a stream is a gap in earnest, and when there are none is settled by how
 the feed starts.
 */
module FeedProgress {
  import opened Wrappers
  import opened Wire
  import opened FeedEvents
  import opened DecoderSpec
  import opened HubSpec
  import opened Feed
  import opened FeedInvariant
  import opened FeedTheorems
  import opened FeedGaps

  /** An admitted stream, attached, with room for an event, that has missed nothing and so is not told anything. */
  predicate Healthy(f: State, id: nat) {
    && id in f.watches && id in f.hub.streams && f.watches[id].admitted && f.watches[id].lost.None?
    && !f.hub.streams[id].done && f.hub.streams[id].capacity > 0
  }

  /** A visible transaction that the stream's position does not cover, published or not. */
  predicate Due(f: State, id: nat, i: nat) {
    id in f.watches && i < |f.log| && Visible(f.log[i]) && f.log[i].commit > f.watches[id].since
  }

  /** Some way of going on gives the stream the whole transaction. */
  ghost predicate CanHave(f: State, id: nat, i: nat)
    requires i < |f.log|
  {
    exists more :: id in Run(f, more).watches && Delivered(Run(f, more).watches[id], f.log[i])
  }

  // Going on.

  ghost predicate Reaches(f: State, g: State) {
    exists more :: Run(f, more) == g
  }

  /** Steps that lead from one state to another, with the log and the stream as good as they were. */
  ghost predicate Leads(f: State, g: State, id: nat) {
    && Reaches(f, g) && Healthy(f, id) && Healthy(g, id)
    && g.log == f.log && g.watches[id].since == f.watches[id].since && Inv(g)
  }

  lemma LeadsNowhere(f: State, id: nat)
    requires Healthy(f, id) && Inv(f)
    ensures Leads(f, f, id)
  {
    hide Inv, Healthy;
    assert Run(f, []) == f;
  }

  lemma LeadsOn(f: State, g: State, h: State, id: nat)
    requires Leads(f, g, id) && Leads(g, h, id)
    ensures Leads(f, h, id)
  {
    hide Inv, Healthy, Run;
    var a :| Run(f, a) == g;
    var b :| Run(g, b) == h;
    RunConcat(f, a, b);
    assert Run(f, a + b) == h;
  }

  lemma OneStep(f: State, s: Step)
    requires Enabled(f, s)
    ensures Reaches(f, Next(f, s))
  {
    RunOne(f, s);
    hide Enabled, Next, Run;
    assert Run(f, [s]) == Next(f, s);
  }

  /** A step that does nothing to the hub or to what is remembered of its streams. */
  lemma LeadsQuietly(f: State, s: Step, id: nat)
    requires Enabled(f, s) && Healthy(f, id) && Inv(f)
    requires var g := Next(f, s); g.hub == f.hub && g.watches == f.watches && g.log == f.log
    ensures Leads(f, Next(f, s), id)
  {
    hide Inv, Enabled, Next, Run;
    StepInv(f, s);
    OneStep(f, s);
  }

  // What the invariant gives.

  lemma WaitsForNothing(f: State, id: nat)
    requires Healthy(f, id) && Inv(f)
    ensures f.hub.streams[id].pending.NoNotice? && f.watches[id].until.None?
  {
    KeptOf(f, id);
    hide Inv, Open, WholeBut, BeginsUpTo;
  }

  lemma AtRest(f: State)
    requires Inv(f)
    ensures f.shown <= |f.emitted| && |f.frames| <= |f.log|
    ensures f.conn.Down? || f.conn.pc != Checking ==> f.shown == |f.emitted|
    ensures f.conn.Up? ==> f.conn.idx <= |f.frames|
    ensures f.conn.Up? && f.conn.sent.Some? ==>
      f.conn.idx < |f.log| && f.conn.sent.value <= |f.log[f.conn.idx].rows| && GoodTx(f.log[f.conn.idx])
  {
    hide FramesOk, HubOk, OpenOk, StreamsOk, OutboxOk, Covered, Whole, GoodTx, Rows, RowEvents, Progress;
  }

  // Publishing, with the reader keeping up.

  lemma ReadOne(f: State, id: nat)
    requires Healthy(f, id) && f.hub.streams[id].buffer != [] && Inv(f)
    ensures var g := OnRead(f, id);
      && Leads(f, g, id) && g.conn == f.conn && g.frames == f.frames && g.shown == f.shown && g.emitted == f.emitted
      && |g.hub.streams[id].buffer| < |f.hub.streams[id].buffer|
  {
    hide Inv, Run;
    StepInv(f, ReadNext(id));
    OneStep(f, ReadNext(id));
  }

  lemma {:induction false} ReadAll(f: State, id: nat) returns (g: State)
    requires Healthy(f, id) && Inv(f)
    ensures Leads(f, g, id) && g.hub.streams[id].buffer == []
    ensures g.conn == f.conn && g.frames == f.frames && g.shown == f.shown && g.emitted == f.emitted
    decreases if id in f.hub.streams then |f.hub.streams[id].buffer| else 0
  {
    hide Inv, Run, Reaches;
    LeadsNowhere(f, id);
    g := f;
    if f.hub.streams[id].buffer != [] {
      ReadOne(f, id);
      var k := OnRead(f, id);
      g := ReadAll(k, id);
      LeadsOn(f, k, g, id);
    }
  }

  lemma PublishOne(f: State, id: nat)
    requires Healthy(f, id) && f.hub.streams[id].buffer == [] && f.conn.Up? && f.shown < |f.emitted| && Inv(f)
    ensures var g := OnPublish(f);
      Leads(f, g, id) && g.conn == f.conn && g.frames == f.frames && g.shown == f.shown + 1 && g.emitted == f.emitted
  {
    hide Inv, Run, AnyWaiting, Note;
    assert Enabled(f, PublishNext);
    StepInv(f, PublishNext);
    OneStep(f, PublishNext);
  }

  lemma {:induction false} CanPublish(f: State, id: nat) returns (g: State)
    requires Healthy(f, id) && f.conn.Up? && Inv(f)
    ensures Leads(f, g, id) && g.conn == f.conn && g.frames == f.frames && g.shown == |g.emitted|
    decreases |f.emitted| - f.shown
  {
    hide Inv, Run, Reaches, OnPublish, Healthy;
    AtRest(f);
    if f.shown == |f.emitted| {
      LeadsNowhere(f, id);
      g := f;
    } else {
      var k := ReadAll(f, id);
      PublishOne(k, id);
      LeadsOn(f, k, OnPublish(k), id);
      g := CanPublish(OnPublish(k), id);
      LeadsOn(f, OnPublish(k), g, id);
    }
  }

  lemma ReleaseSpares(f: State, id: nat)
    requires Healthy(f, id) && f.hub.streams[id].pending.NoNotice? && f.conn.Up?
    ensures var g := OnRelease(f);
      && Healthy(g, id) && g.watches[id].since == f.watches[id].since && g.log == f.log
      && g.conn == f.conn.(pc := Receiving) && g.frames == f.frames && g.shown == f.shown && g.emitted == f.emitted
  {
  }

  lemma ReleaseOne(f: State, id: nat)
    requires Healthy(f, id) && f.conn.Up? && f.conn.pc == Reported && f.shown == |f.emitted| && Inv(f)
    ensures var g := OnRelease(f);
      Leads(f, g, id) && g.conn == f.conn.(pc := Receiving) && g.frames == f.frames && g.shown == f.shown && g.emitted == f.emitted
  {
    hide Inv, Run, OnRelease, Healthy;
    WaitsForNothing(f, id);
    ReleaseSpares(f, id);
    StepInv(f, ReleaseStep);
    OneStep(f, ReleaseStep);
  }

  /** Between messages, as far along the log as before. */
  predicate Level(f: State, g: State) {
    && f.conn.Up? && g.conn.Up? && Idle(g) && g.frames == f.frames
    && g.conn == f.conn.(pc := Receiving, reported := g.conn.reported)
  }

  /** A message that has been received is published and settled. */
  lemma CanSettle(f: State, id: nat) returns (g: State)
    requires Healthy(f, id) && f.conn.Up? && f.conn.pc == Checking && Inv(f)
    ensures Leads(f, g, id) && Level(f, g)
  {
    hide Inv, Run, Reaches, Healthy, OnRelease;
    var k := CanPublish(f, id);
    if k.hub.releasable {
      LeadsQuietly(k, Report, id);
      var r := Next(k, Report);
      ReleaseOne(r, id);
      g := OnRelease(r);
      LeadsOn(f, k, r, id);
      LeadsOn(f, r, g, id);
    } else {
      LeadsQuietly(k, Carry, id);
      g := Next(k, Carry);
      LeadsOn(f, k, g, id);
    }
  }

  // A connection that starts from the slot.

  predicate Ready(f: State) {
    Idle(f) && f.conn.sent.None?
  }

  lemma CanCut(f: State, id: nat) returns (g: State)
    requires Healthy(f, id) && Inv(f)
    ensures Leads(f, g, id) && g.conn.Down?
  {
    hide Inv, Run, Reaches, Healthy, OnRelease;
    if f.conn.Down? {
      LeadsNowhere(f, id);
      g := f;
    } else {
      var k := CanPublish(f, id);
      if k.conn.pc == Reported {
        ReleaseOne(k, id);
        LeadsOn(f, k, OnRelease(k), id);
        k := OnRelease(k);
      }
      LeadsQuietly(k, Drop(false), id);
      g := Next(k, Drop(false));
      LeadsOn(f, k, g, id);
    }
  }

  lemma CanDial(f: State, id: nat) returns (g: State)
    requires Healthy(f, id) && Inv(f)
    ensures Leads(f, g, id) && Ready(g)
  {
    hide Inv, Run, Reaches, Healthy, StartIdx;
    var k := CanCut(f, id);
    AtRest(k);
    LeadsQuietly(k, Connect, id);
    g := Next(k, Connect);
    LeadsOn(f, k, g, id);
  }

  // Sending one transaction.

  /** The relations of a row that are not known, or not in their present shape. */
  function Unknown(r: LogRow, announced: map<nat, Relation>): set<nat> {
    set id | id in Ids(r.msg) && id in r.shapes && (id !in announced || announced[id] != r.shapes[id])
  }

  /** Inside transaction `idx`, `n` rows sent, nothing on its way. */
  predicate Inside(f: State, idx: nat, n: nat) {
    Idle(f) && f.conn.idx == idx && f.conn.sent == Some(n)
  }

  lemma CanTell(f: State, id: nat, rel: nat, shape: Relation) returns (g: State)
    requires Healthy(f, id) && Idle(f) && Inv(f)
    ensures Leads(f, g, id) && Idle(g) && g.conn.idx == f.conn.idx && g.conn.sent == f.conn.sent
    ensures g.conn.announced == f.conn.announced[rel := shape]
  {
    hide Inv, Run, Reaches, Healthy, Handle;
    var s := SendRelation(rel, shape, 0);
    LeadsQuietly(f, s, id);
    var k := Next(f, s);
    g := CanSettle(k, id);
    LeadsOn(f, k, g, id);
  }

  lemma {:induction false} CanAnnounce(f: State, id: nat, r: LogRow) returns (g: State)
    requires Healthy(f, id) && Idle(f) && GoodRow(r) && Inv(f)
    ensures Leads(f, g, id) && Idle(g) && g.conn.idx == f.conn.idx && g.conn.sent == f.conn.sent
    ensures Announced(r, g.conn.announced)
    decreases if f.conn.Up? then |Unknown(r, f.conn.announced)| else 0
  {
    hide Inv, Run, Reaches, Healthy, Ids;
    if rel :| rel in Unknown(r, f.conn.announced) {
      var k := CanTell(f, id, rel, r.shapes[rel]);
      assert Unknown(r, k.conn.announced) == Unknown(r, f.conn.announced) - {rel};
      g := CanAnnounce(k, id, r);
      LeadsOn(f, k, g, id);
    } else {
      LeadsNowhere(f, id);
      g := f;
      assert forall x :: x in Ids(r.msg) ==> x !in Unknown(r, f.conn.announced);
    }
  }

  lemma CanSendRow(f: State, id: nat, idx: nat, n: nat) returns (g: State)
    requires Healthy(f, id) && Inside(f, idx, n) && idx < |f.log| && n < |f.log[idx].rows| && Inv(f)
    ensures Leads(f, g, id) && Inside(g, idx, n + 1)
  {
    hide Inv, Run, Reaches, Healthy, Handle, Announced, GoodRow;
    AtRest(f);
    var r := f.log[idx].rows[n];
    assert GoodRow(r);
    var k := CanAnnounce(f, id, r);
    LeadsQuietly(k, SendRow, id);
    var h := Next(k, SendRow);
    LeadsOn(f, k, h, id);
    g := CanSettle(h, id);
    LeadsOn(f, h, g, id);
  }

  lemma {:induction false} CanSendRows(f: State, id: nat, idx: nat, n: nat) returns (g: State)
    requires Healthy(f, id) && Inside(f, idx, n) && idx < |f.log| && n <= |f.log[idx].rows| && Inv(f)
    ensures Leads(f, g, id) && Inside(g, idx, |f.log[idx].rows|)
    decreases if idx < |f.log| then |f.log[idx].rows| - n else 0
  {
    hide Inv, Run, Reaches, Healthy;
    if n == |f.log[idx].rows| {
      LeadsNowhere(f, id);
      g := f;
    } else {
      var k := CanSendRow(f, id, idx, n);
      g := CanSendRows(k, id, idx, n + 1);
      LeadsOn(f, k, g, id);
    }
  }

  lemma CanSendTx(f: State, id: nat) returns (g: State)
    requires Healthy(f, id) && Ready(f) && f.conn.idx < |f.log| && Inv(f)
    ensures Leads(f, g, id) && Ready(g) && g.conn.idx == f.conn.idx + 1
  {
    hide Inv, Run, Reaches, Healthy, Handle;
    LeadsQuietly(f, SendBegin, id);
    var b := Next(f, SendBegin);
    var k := CanSettle(b, id);
    LeadsOn(f, b, k, id);
    var r := CanSendRows(k, id, f.conn.idx, 0);
    LeadsOn(f, k, r, id);
    LeadsQuietly(r, SendCommit, id);
    var c := Next(r, SendCommit);
    LeadsOn(f, r, c, id);
    g := CanSettle(c, id);
    LeadsOn(f, c, g, id);
  }

  lemma {:induction false} CanHandle(f: State, id: nat, i: nat) returns (g: State)
    requires Healthy(f, id) && Ready(f) && i < |f.log| && Inv(f)
    ensures Leads(f, g, id) && i < |g.frames| && g.shown == |g.emitted|
    decreases if f.conn.Up? then i + 1 - f.conn.idx else 0
  {
    hide Inv, Run, Reaches, Healthy;
    AtRest(f);
    if f.conn.idx > i {
      LeadsNowhere(f, id);
      g := f;
    } else {
      var k := CanSendTx(f, id);
      g := CanHandle(k, id, i);
      LeadsOn(f, k, g, id);
    }
  }

  // The two halves.

  lemma HandledIsDelivered(f: State, id: nat, i: nat)
    requires Healthy(f, id) && Due(f, id, i) && i < |f.frames| && f.shown == |f.emitted| && Inv(f)
    ensures Delivered(f.watches[id], f.log[i])
  {
    WaitsForNothing(f, id);
    FrameOn(f, i);
    hide Inv, Delivered, Visible, FrameOf, Rows;
    FrameInGot(f, id, i);
  }

  /** From any state of a run, a healthy stream can still be given whatever it is due. */
  lemma HealthyCanHave(f: State, id: nat, i: nat)
    requires Healthy(f, id) && Due(f, id, i) && Inv(f)
    ensures CanHave(f, id, i)
  {
    hide Inv, Run, Healthy, Visible, Delivered;
    var k := CanDial(f, id);
    var g := CanHandle(k, id, i);
    LeadsOn(f, k, g, id);
    HealthyIsThere(g, id);
    HandledIsDelivered(g, id, i);
    var more :| Run(f, more) == g;
    assert Delivered(Run(f, more).watches[id], f.log[i]);
  }

  lemma HealthyIsThere(f: State, id: nat)
    requires Healthy(f, id)
    ensures id in f.watches
  {
  }

  // A stream keeps its position and its admission.

  predicate SamePosition(f: State, g: State, id: nat) {
    && IdsOk(g) && id in f.watches && id in g.watches && id in g.hub.streams
    && g.watches[id].admitted == f.watches[id].admitted && g.watches[id].since == f.watches[id].since
  }

  lemma SettleKeepsPosition(f: State, hub: HubState, id: nat)
    requires IdsOk(f) && id in f.watches && hub.streams.Keys == f.hub.streams.Keys && hub.nextId == f.hub.nextId
    ensures SamePosition(f, Settle(f, hub), id)
  {
  }

  lemma PublishKeepsPosition(f: State, id: nat)
    requires Enabled(f, PublishNext) && IdsOk(f) && id in f.watches
    ensures SamePosition(f, OnPublish(f), id)
  {
    hide Offer, AnyWaiting;
  }

  lemma StepKeepsPosition(f: State, s: Step, id: nat)
    requires Enabled(f, s) && IdsOk(f) && id in f.watches
    ensures SamePosition(f, Next(f, s), id)
  {
    hide Handle, StartIdx, Offer, Release, End, GoodTx, Settle;
    match s
    case PublishNext => PublishKeepsPosition(f, id);
    case Leave(other) => SettleKeepsPosition(f, CloseStream(f.hub, other), id);
    case GiveUp(code) => SettleKeepsPosition(f, Close(f.hub, if code == DecoderFailed then Error(code) else Resync(code)), id);
    case ReleaseStep => SettleKeepsPosition(f, ReleasePending(f.hub), id);
    case _ =>
  }

  lemma {:induction false} RunKeepsPosition(f: State, steps: seq<Step>, id: nat)
    requires IdsOk(f) && id in f.watches
    ensures SamePosition(f, Run(f, steps), id)
  {
    hide Enabled, Next;
    if steps != [] {
      RunKeepsPosition(f, steps[..|steps| - 1], id);
      var g, s := Run(f, steps[..|steps| - 1]), steps[|steps| - 1];
      if Enabled(g, s) {
        StepKeepsPosition(g, s, id);
      }
    }
  }

  /** In a run of this feed, whatever a healthy stream is due can still reach it. */
  ghost predicate NoGap(f0: State, steps: seq<Step>, id: nat, i: nat) {
    var f := Run(f0, steps);
    Healthy(f, id) && Due(f, id, i) ==> CanHave(f, id, i)
  }

  /**
   The exact condition. In every run of a feed, what a stream that has missed nothing is due can still be given to it,
   exactly when, as the feed starts, nothing visible lies above the floor it was told and below the point it really
   begins at. Otherwise a stream attached at the floor, as the feed starts, is never given such a transaction, in any
   run, and never told.
   */
  lemma NoGapIffWhole(f0: State)
    requires Starting(f0)
    ensures Whole(f0) <==> forall steps, id, i :: NoGap(f0, steps, id, i)
  {
    if Whole(f0) {
      forall steps, id, i ensures NoGap(f0, steps, id, i) {
        hide Healthy, Due, CanHave, Run;
        RunInv(f0, steps);
        hide Inv, Starting, Whole;
        var f := Run(f0, steps);
        if Healthy(f, id) && Due(f, id, i) {
          HealthyCanHave(f, id, i);
        }
      }
    } else {
      var i :| 0 <= i < |f0.log| && Visible(f0.log[i]) && f0.start < f0.log[i].commit < f0.origin;
      hide NoGap;
      LateStartGap(f0, i);
    }
  }

  lemma LateStartGap(f0: State, i: nat)
    requires Starting(f0) && i < |f0.log| && Visible(f0.log[i]) && f0.start < f0.log[i].commit < f0.origin
    ensures !NoGap(f0, [Join(f0.start, 1)], 1, i)
  {
    hide Visible, CanHave;
    var join := [Join(f0.start, 1)];
    assert join[..0] == [] && Run(f0, []) == f0;
    assert Healthy(Run(f0, join), 1) && Due(Run(f0, join), 1, i);
    hide Healthy, Due, Run;
    NeverHas(f0, join, 1, i);
  }

  lemma NeverHas(f0: State, steps: seq<Step>, id: nat, i: nat)
    requires Starting(f0) && i < |f0.log| && Visible(f0.log[i]) && f0.log[i].commit < f0.confirmed
    ensures i < |Run(f0, steps).log| && !CanHave(Run(f0, steps), id, i)
  {
    hide Visible, Starting, Delivered, Run;
    LogStays(f0, steps);
    assert Run(f0, steps).log[i] == f0.log[i];
    forall more | id in Run(Run(f0, steps), more).watches
      ensures !Delivered(Run(Run(f0, steps), more).watches[id], f0.log[i])
    {
      RunConcat(f0, steps, more);
      LateSlotSkips(f0, steps + more, id, i);
    }
  }

  lemma {:induction false} LogStays(f: State, steps: seq<Step>)
    ensures |f.log| <= |Run(f, steps).log| && Run(f, steps).log[..|f.log|] == f.log
  {
    hide Enabled, Next;
    if steps != [] {
      LogStays(f, steps[..|steps| - 1]);
      var g, s := Run(f, steps[..|steps| - 1]), steps[|steps| - 1];
      if Enabled(g, s) {
        StepKeeps(g, s);
      }
    }
  }
}
