/** Particular runs of the feed, from its start, each showing that a condition proved elsewhere is needed. */
module FeedRuns {
  import opened Wrappers
  import opened FeedEvents
  import opened DecoderSpec
  import opened HubSpec
  import opened Feed
  import opened FeedInvariant
  import opened FeedTheorems
  import opened FeedSketch
  import opened FeedGaps
  import opened FeedProgress

  const RELATION := SendRelation(1, REL, 0)
  const SHAPE := FeedEvents.Schema("s.t", [])
  const TOO_LARGE := Resync(TxTooLarge)

  const T10 := One(7, 10)
  const T20 := One(8, 20)

  function BeginOf(t: Tx): Event { Begin(t.xid, t.commit) }
  function ChangeOfTx(t: Tx): Event { Change(t.xid, t.commit, 0, BODY) }
  function CommitOf(t: Tx): Event { Commit(t.xid, t.commit, 1) }

  lemma StartsAt()
    ensures StartIdx([T10], 10) == 0 && StartIdx([T10, T20], 10) == 0 && StartIdx([T10, T20], 20) == 1
  {
    assert [T10][..0] == [] && [T10, T20][..1] == [T10];
  }

  /** A sketch of a connection between messages, with a listener. */
  function Between(log: seq<Tx>, confirmed: Lsn, resume: Lsn, epoch: nat, frames: nat, openTx: nat, openIn: nat,
                   link: Link, inTx: bool, l: Option<Listener>): Sketch {
    Sketch(log, confirmed, resume, false, epoch, frames, openTx, openIn, link, [], inTx, false, l)
  }

  /** The shape announced on a new connection. */
  lemma Announce(f0: State, before: seq<Step>, k: Sketch) returns (steps: seq<Step>, m: Sketch)
    requires Drawn(Run(f0, before), k) && k.link.Linked? && k.link.pc == Receiving && !k.link.known
    requires k.queue == [] && !k.releasable
    ensures Drawn(Run(f0, steps), m) && before <= steps
    ensures m == k.(link := k.link.(known := true),
      listener := if k.listener.None? then None
                  else Some(Offered(k.listener.value, SHAPE, OverflowNotice(k.inTx), k.openTx, k.openIn)))
  {
    hide Drawn, Run, Offered;
    steps, m := before, k;
    Draw(f0, steps, m, RELATION);
    steps, m := steps + [RELATION], Take(m, RELATION);
    Draw(f0, steps, m, PublishNext);
    steps, m := steps + [PublishNext], Take(m, PublishNext);
    Draw(f0, steps, m, Carry);
    steps, m := steps + [Carry], Take(m, Carry);
  }

  function OfferedTwo(l: Option<Listener>, a: Event, b: Event, hole: nat, pendedIn: nat): Option<Listener> {
    if l.None? then None
    else Some(Offered(Offered(l.value, a, TOO_LARGE, hole, pendedIn), b, TOO_LARGE, hole, pendedIn))
  }

  /** A transaction up to its commit: its begin and its change published. */
  lemma Half(f0: State, before: seq<Step>, k: Sketch, t: Tx) returns (steps: seq<Step>, m: Sketch)
    requires Drawn(Run(f0, before), k) && k.link.Linked? && k.link.pc == Receiving && k.link.known && k.link.sent.None?
    requires k.queue == [] && !k.releasable && k.link.idx < |k.log| && k.log[k.link.idx] == t && t.rows == [ROW]
    ensures Drawn(Run(f0, steps), m) && before <= steps
    ensures m == k.(link := k.link.(tx := TxState(t.xid, Some(t.commit), 1, true), sent := Some(1)), inTx := true,
      openTx := k.link.idx, openIn := k.epoch,
      listener := OfferedTwo(k.listener, BeginOf(t), ChangeOfTx(t), k.link.idx, k.epoch))
  {
    hide Drawn, Run, Offered;
    steps, m := before, k;
    Draw(f0, steps, m, SendBegin);
    steps, m := steps + [SendBegin], Take(m, SendBegin);
    Draw(f0, steps, m, Carry);
    steps, m := steps + [Carry], Take(m, Carry);
    Draw(f0, steps, m, SendRow);
    steps, m := steps + [SendRow], Take(m, SendRow);
    assert m.queue == [BeginOf(t), ChangeOfTx(t)];
    Draw(f0, steps, m, PublishNext);
    steps, m := steps + [PublishNext], Take(m, PublishNext);
    assert m.queue == [ChangeOfTx(t)];
    Draw(f0, steps, m, PublishNext);
    steps, m := steps + [PublishNext], Take(m, PublishNext);
    assert m.queue == [];
    Draw(f0, steps, m, Carry);
    steps, m := steps + [Carry], Take(m, Carry);
  }

  /** Its commit, published: whoever was held back can now be released. */
  lemma Finish(f0: State, before: seq<Step>, k: Sketch, t: Tx) returns (steps: seq<Step>, m: Sketch)
    requires Drawn(Run(f0, before), k) && k.link.Linked? && k.link.pc == Receiving && k.link.sent == Some(1)
    requires k.link.tx == TxState(t.xid, Some(t.commit), 1, true)
    requires k.queue == [] && k.link.idx < |k.log| && k.log[k.link.idx] == t && t.rows == [ROW]
    ensures Drawn(Run(f0, steps), m) && before <= steps
    ensures var l := if k.listener.None? then None
                     else Some(Offered(k.listener.value, CommitOf(t), Error(Overflow), k.link.idx, k.openIn));
      m == k.(link := k.link.(tx := NO_TX, acked := t.commit, sent := None, idx := k.link.idx + 1, pc := Checking),
        inTx := false, frames := if k.link.idx == k.frames then k.frames + 1 else k.frames, listener := l, releasable := Held(l))
  {
    hide Drawn, Run, Offered;
    steps, m := before, k;
    Draw(f0, steps, m, SendCommit);
    steps, m := steps + [SendCommit], Take(m, SendCommit);
    assert m.queue == [CommitOf(t)];
    Draw(f0, steps, m, PublishNext);
    steps, m := steps + [PublishNext], Take(m, PublishNext);
  }

  lemma Go(f0: State, before: seq<Step>, k: Sketch, s: Step) returns (steps: seq<Step>, m: Sketch)
    requires Drawn(Run(f0, before), k) && CanTake(k, s)
    ensures Drawn(Run(f0, steps), m) && m == Take(k, s) && steps == before + [s]
  {
    Draw(f0, before, k, s);
    steps, m := before + [s], Take(k, s);
  }

  lemma Start(log: seq<Tx>, confirmed: Lsn, resume: Lsn) returns (f0: State, k: Sketch)
    requires Increasing(log) && Simple(log)
    ensures Init(f0) && Drawn(Run(f0, []), k) && k == Fresh(log, confirmed, resume) && f0.start == Max(resume, confirmed)
  {
    f0, k := FreshFeed(log, confirmed, resume), Fresh(log, confirmed, resume);
    FreshIsInit(log, confirmed, resume);
    hide Init, Drawn, Fresh;
    assert Run(f0, []) == f0;
  }

  /** A feed with one stream attached, on its first connection, the shape announced. */
  lemma Listening(log: seq<Tx>, confirmed: Lsn, resume: Lsn, capacity: nat) returns (f0: State, steps: seq<Step>, k: Sketch)
    requires Increasing(log) && Simple(log) && capacity >= 1
    ensures Init(f0) && Drawn(Run(f0, steps), k)
    ensures var at := StartIdx(log, Max(resume, confirmed));
      k == Between(log, confirmed, resume, 1, at, 0, 0, Linked(true, NO_TX, resume, at, None, Receiving, 0), false,
                   Some(Listener(Max(resume, confirmed), 1, capacity, false, NoNotice, NoNotice, [SHAPE], false, 0, 0)))
  {
    f0, k := Start(log, confirmed, resume);
    steps := [];
    hide Init, Drawn, Run, StartIdx, Increasing, Simple;
    steps, k := Go(f0, steps, k, Join(f0.start, capacity));
    steps, k := Go(f0, steps, k, Connect);
    steps, k := Announce(f0, steps, k);
    assert [] + [SHAPE] == [SHAPE];
  }

  // A transaction a stream cannot hold.

  /** The stream with room for one event, held back by the one transaction there is, which has just committed. */
  function TooLarge(): Sketch {
    Sketch([T10], 10, 0, false, 1, 1, 0, 1, Linked(true, NO_TX, 10, 1, None, Checking, 0), [], false, true,
           Some(Listener(10, 1, 1, false, NoNotice, TOO_LARGE, [SHAPE], true, 0, 1)))
  }

  lemma RunToTooLarge() returns (f0: State, steps: seq<Step>)
    ensures Init(f0) && Drawn(Run(f0, steps), TooLarge())
  {
    var k;
    StartsAt();
    hide Init, Drawn, Run, StartIdx;
    f0, steps, k := Listening([T10], 10, 0, 1);
    steps, k := Half(f0, steps, k, T10);
    steps, k := Finish(f0, steps, k, T10);
  }

  /**
   The report fails. The stream that waits for it is carried to the next connection; the first message there finds the
   hub still releasable, reports that connection's own position, which is none at all, and is about to release.
   */
  lemma ReleasedAfterFailedReport() returns (f0: State, steps: seq<Step>)
    ensures Init(f0)
    ensures var f := Run(f0, steps);
      && Enabled(f, ReleaseStep) && IsWaiting(f, 1) && f.conn.Up? && f.watches[1].hole < |f.log|
      && f.conn.reported < f.log[f.watches[1].hole].commit
  {
    f0, steps := RunToTooLarge();
    var k := TooLarge();
    StartsAt();
    hide Init, Drawn, Run, StartIdx;
    steps, k := Go(f0, steps, k, Drop(false));
    steps, k := Go(f0, steps, k, Connect);
    steps, k := Go(f0, steps, k, SendBegin);
    steps, k := Go(f0, steps, k, Report);
    AboutToRelease(Run(f0, steps), k);
  }

  lemma AboutToRelease(f: State, k: Sketch)
    requires Drawn(f, k) && k.link.Linked? && k.link.pc == Reported && k.queue == [] && Held(k.listener) && k.listener.value.lost
    requires k.listener.value.hole < |k.log|
    ensures Enabled(f, ReleaseStep) && IsWaiting(f, 1) && f.conn.Up? && f.watches[1].hole == k.listener.value.hole
    ensures f.conn.reported == k.link.reported && f.log == k.log && f.epoch == k.epoch
  {
    assert |f.emitted[f.shown..]| == 0;
  }

  /**
   The report gets through, the stream is released and told to refetch, and the transaction is acknowledged; the next
   connection is sent it once more.
   */
  lemma AcknowledgedIsSentAgain() returns (f0: State, steps: seq<Step>)
    ensures Init(f0)
    ensures var f := Run(f0, steps);
      && 1 in f.hub.streams && f.hub.streams[1].done && f.hub.streams[1].reason == TOO_LARGE
      && f.log == [T10] && f.confirmed == 10 && f.epoch == 2 && f.conn.Up? && f.conn.idx == 0 && f.conn.sent == Some(0)
  {
    f0, steps := RunToTooLarge();
    var k := TooLarge();
    StartsAt();
    hide Init, Drawn, Run, StartIdx;
    steps, k := Go(f0, steps, k, Report);
    steps, k := Go(f0, steps, k, ReleaseStep);
    steps, k := Go(f0, steps, k, Drop(false));
    steps, k := Go(f0, steps, k, Connect);
    steps, k := Go(f0, steps, k, SendBegin);
    SentAgain(Run(f0, steps), k);
  }

  lemma SentAgain(f: State, k: Sketch)
    requires Drawn(f, k) && k.listener.Some? && k.link.Linked?
    ensures 1 in f.hub.streams && f.hub.streams[1].done == k.listener.value.done && f.hub.streams[1].reason == k.listener.value.reason
    ensures f.log == k.log && f.confirmed == k.confirmed && f.epoch == k.epoch
    ensures f.conn.Up? && f.conn.idx == k.link.idx && f.conn.sent == k.link.sent
  {
  }

  // A transaction left open by another connection.

  /**
   A stream that falls behind on the connection that releases it. The first connection resumed at the second transaction
   and was cut in the middle of it; the next starts from the slot, at the first, with the hub still inside the second.
   The first event there overflows the stream, which is held back for the second transaction, and released when the
   first has been acknowledged.
   */
  lemma ReleasedForAnEarlierCommit() returns (f0: State, before: seq<Step>, steps: seq<Step>)
    ensures Init(f0)
    ensures var f := Run(f0, before); f.epoch == 2 && f.conn.Up? && !IsWaiting(f, 1)
    ensures var f := Run(f0, steps);
      && f.epoch == 2 && Enabled(f, ReleaseStep) && IsWaiting(f, 1) && f.conn.Up? && f.watches[1].hole < |f.log|
      && f.conn.reported < f.log[f.watches[1].hole].commit
  {
    var k;
    hide Init, Drawn, Run, CanTake, Take, Offered;
    f0, before := CutInsideSecond();
    k := InsideSecond(None);
    NotWaiting(Run(f0, before), k);
    steps, k := Announce(f0, before, k);
    assert k == HeldBack() by { HeldBackIs(); }
    steps := FirstCommits(f0, steps);
    AboutToRelease(Run(f0, steps), FirstCommitted());
  }

  const GOT := [SHAPE, BeginOf(T20), ChangeOfTx(T20)]

  /** The second connection at the first transaction, the hub still inside the second, and what the stream waits for. */
  function InsideSecond(pending: Option<Notice>): Sketch {
    Between([T10, T20], 10, 20, 2, 1, 1, 1, Linked(false, NO_TX, 0, 0, None, Receiving, 0), true,
            Some(Listener(20, 3, 3, false, NoNotice, if pending.None? then NoNotice else pending.value, GOT, pending.Some?,
                          if pending.None? then 0 else 1, if pending.None? then 0 else 1)))
  }

  function HeldBack(): Sketch {
    var k := InsideSecond(Some(TOO_LARGE));
    k.(link := k.link.(known := true))
  }

  lemma HeldBackIs()
    ensures var k := InsideSecond(None);
      HeldBack() == k.(link := k.link.(known := true),
        listener := Some(Offered(k.listener.value, SHAPE, OverflowNotice(k.inTx), k.openTx, k.openIn)))
  {
  }

  lemma CutInsideSecond() returns (f0: State, steps: seq<Step>)
    ensures Init(f0) && Drawn(Run(f0, steps), InsideSecond(None))
  {
    var k;
    StartsAt();
    hide Init, Drawn, Run, StartIdx;
    f0, steps, k := Listening([T10, T20], 10, 20, 3);
    steps, k := Half(f0, steps, k, T20);
    assert [SHAPE] + [BeginOf(T20)] + [ChangeOfTx(T20)] == GOT;
    assert k.listener == Some(Listener(20, 3, 3, false, NoNotice, NoNotice, GOT, false, 0, 0));
    steps, k := Go(f0, steps, k, Drop(false));
    steps, k := Go(f0, steps, k, Connect);
  }

  function FirstCommitted(): Sketch {
    HeldBack().(link := Linked(true, NO_TX, 10, 1, None, Reported, 10), inTx := false, releasable := true, openTx := 0, openIn := 2)
  }

  lemma FirstCommits(f0: State, before: seq<Step>) returns (steps: seq<Step>)
    requires Drawn(Run(f0, before), HeldBack())
    ensures Drawn(Run(f0, steps), FirstCommitted())
  {
    hide Drawn, Run;
    var k := HeldBack();
    steps, k := Half(f0, before, k, T10);
    assert k.listener == HeldBack().listener;
    steps, k := Finish(f0, steps, k, T10);
    assert k.listener == HeldBack().listener;
    steps, k := Go(f0, steps, k, Report);
  }

  lemma NotWaiting(f: State, k: Sketch)
    requires Drawn(f, k) && k.link.Linked? && k.listener.Some? && !k.listener.value.lost
    ensures f.epoch == k.epoch && f.conn.Up? && !IsWaiting(f, 1)
  {
  }

  // A stream that attaches too late.

  lemma OneFrame(t: Tx)
    requires t.rows == [ROW]
    ensures Visible(t) && FrameOf(t) == [BeginOf(t), ChangeOfTx(t), CommitOf(t)]
  {
    RowBodies();
    hide Bodies;
    assert ChangesOf(TxOf(t), 0, [BODY]) == [ChangeOfTx(t)];
    assert RowEvents(t, 0) == [] && RowEvents(t, 1) == [ChangeOfTx(t)];
  }

  lemma RowsOfFrame(t: Tx)
    ensures Rows([BeginOf(t), ChangeOfTx(t), CommitOf(t)]) == [BeginOf(t), ChangeOfTx(t), CommitOf(t)]
  {
    assert Rows([]) == [];
    RowsOne([], BeginOf(t));
    RowsOne([BeginOf(t)], ChangeOfTx(t));
    RowsOne([BeginOf(t), ChangeOfTx(t)], CommitOf(t));
    assert [] + [BeginOf(t)] == [BeginOf(t)];
    assert [BeginOf(t)] + [ChangeOfTx(t)] == [BeginOf(t), ChangeOfTx(t)];
    assert [BeginOf(t), ChangeOfTx(t)] + [CommitOf(t)] == [BeginOf(t), ChangeOfTx(t), CommitOf(t)];
  }

  lemma RowsOne(evs: seq<Event>, e: Event)
    requires !e.Schema?
    ensures Rows(evs + [e]) == Rows(evs) + [e]
  {
    assert (evs + [e])[..|evs|] == evs;
  }

  /** The first transaction published and acknowledged by nobody, no stream attached. */
  function AfterFirst(): Sketch {
    Between([T10, T20], 10, 0, 1, 1, 0, 1, Linked(true, NO_TX, 10, 1, None, Receiving, 0), false, None)
  }

  lemma FirstPublished() returns (f0: State, steps: seq<Step>)
    ensures Init(f0) && Drawn(Run(f0, steps), AfterFirst())
  {
    var k;
    StartsAt();
    f0, k := Start([T10, T20], 10, 0);
    steps := [];
    hide Init, Drawn, Run, StartIdx;
    steps, k := Go(f0, steps, k, Connect);
    steps, k := Announce(f0, steps, k);
    steps, k := Half(f0, steps, k, T10);
    steps, k := Finish(f0, steps, k, T10);
    steps, k := Go(f0, steps, k, Carry);
  }

  /** The stream that joined then, once the second transaction has been published. */
  function SecondOnly(): Sketch {
    Sketch([T10, T20], 10, 0, false, 1, 2, 1, 1, Linked(true, NO_TX, 20, 2, None, Checking, 0), [], false, false,
           Some(Listener(5, 3, 9, false, NoNotice, NoNotice, [BeginOf(T20), ChangeOfTx(T20), CommitOf(T20)], false, 0, 0)))
  }

  lemma JoinedForSecond(f0: State, before: seq<Step>) returns (steps: seq<Step>)
    requires Drawn(Run(f0, before), AfterFirst())
    ensures Drawn(Run(f0, steps), SecondOnly())
  {
    hide Drawn, Run;
    var k := AfterFirst();
    steps, k := Go(f0, before, k, Join(5, 9));
    steps, k := Half(f0, steps, k, T20);
    assert [] + [BeginOf(T20)] + [ChangeOfTx(T20)] == [BeginOf(T20), ChangeOfTx(T20)];
    assert k.listener == Some(Listener(5, 2, 9, false, NoNotice, NoNotice, [BeginOf(T20), ChangeOfTx(T20)], false, 0, 0));
    steps, k := Finish(f0, steps, k, T20);
    assert [BeginOf(T20), ChangeOfTx(T20)] + [CommitOf(T20)] == [BeginOf(T20), ChangeOfTx(T20), CommitOf(T20)];
  }

  /**
   A stream opened below a transaction already published: it is given the next one whole, is healthy and is told
   nothing, and the first is not there.
   */
  lemma LateJoinerHasAHole() returns (f0: State, steps: seq<Step>)
    ensures Init(f0)
    ensures var f := Run(f0, steps);
      && f.log == [T10, T20] && Visible(f.log[0]) && |f.frames| == 2
      && 1 in f.watches && 1 in f.hub.streams && f.watches[1].since < f.log[0].commit && f.watches[1].lost.None?
      && !f.hub.streams[1].done && f.hub.streams[1].pending.NoNotice?
      && Delivered(f.watches[1], f.log[1]) && !Delivered(f.watches[1], f.log[0])
  {
    f0, steps := FirstPublished();
    steps := JoinedForSecond(f0, steps);
    hide Init, Run;
    var f := Run(f0, steps);
    SecondOnlyHas(f);
  }

  lemma SecondOnlyHas(f: State)
    requires Drawn(f, SecondOnly())
    ensures 1 in f.watches && |f.log| == 2 && Delivered(f.watches[1], f.log[1]) && !Delivered(f.watches[1], f.log[0]) && Visible(f.log[0])
  {
    OneFrame(T10);
    OneFrame(T20);
    var got := f.watches[1].got;
    RowsOfFrame(T20);
    hide Rows, FrameOf, Visible;
    assert got[0..3] == got;
    assert Rows(got[0..3]) == FrameOf(T20);
    forall a, b | 0 <= a <= b <= |got| ensures Rows(got[a..b]) != FrameOf(T10) {
      if Rows(got[a..b]) == FrameOf(T10) {
        RowsMembers(got[a..b], BeginOf(T10));
      }
    }
  }

  // A feed that begins too late.

  const LATE: seq<Event> := [SHAPE, BeginOf(T20), ChangeOfTx(T20), CommitOf(T20)]

  /** The stream that joined at the floor, once the one transaction the slot still has is published. */
  function LateSlot(): Sketch {
    Sketch([T10, T20], 20, 0, false, 1, 2, 1, 1, Linked(true, NO_TX, 20, 2, None, Checking, 0), [], false, false,
           Some(Listener(5, 4, 9, false, NoNotice, NoNotice, LATE, false, 0, 0)))
  }

  /** Its first connection, the shape announced. */
  function LateStart(): Sketch {
    Between([T10, T20], 20, 0, 1, 1, 0, 0, Linked(true, NO_TX, 0, 1, None, Receiving, 0), false,
            Some(Listener(5, 1, 9, false, NoNotice, NoNotice, [SHAPE], false, 0, 0)))
  }

  lemma RunToLateStart() returns (steps: seq<Step>)
    ensures Starting(LateFeed([T10, T20], 20, 5)) && Drawn(Run(LateFeed([T10, T20], 20, 5), steps), LateStart())
    ensures [Join(5, 9)] <= steps
  {
    var f0, k := LateFeed([T10, T20], 20, 5), FeedSketch.Fresh([T10, T20], 20, 0);
    LateIsStarting([T10, T20], 20, 5);
    StartsAt();
    assert Run(f0, []) == f0;
    hide Starting, Drawn, Run, StartIdx, LateFeed;
    steps, k := Go(f0, [], k, Join(5, 9));
    assert steps == [Join(5, 9)];
    steps, k := Go(f0, steps, k, Connect);
    steps, k := Announce(f0, steps, k);
    assert [] + [SHAPE] == [SHAPE];
  }

  lemma RunToLateSlot(f0: State, before: seq<Step>) returns (steps: seq<Step>)
    requires Drawn(Run(f0, before), LateStart())
    ensures Drawn(Run(f0, steps), LateSlot()) && before <= steps
  {
    hide Drawn, Run;
    var k := LateStart();
    steps, k := Half(f0, before, k, T20);
    assert [SHAPE] + [BeginOf(T20)] + [ChangeOfTx(T20)] == GOT;
    assert k.listener == Some(Listener(5, 3, 9, false, NoNotice, NoNotice, GOT, false, 0, 0));
    steps, k := Finish(f0, steps, k, T20);
    assert GOT + [CommitOf(T20)] == LATE;
  }

  lemma LateSlotGives(f: State)
    requires Drawn(f, LateSlot())
    ensures 1 in f.watches && 1 in f.hub.streams && f.log == [T10, T20] && Delivered(f.watches[1], T20)
    ensures f.watches[1].lost.None? && !f.hub.streams[1].done && f.hub.streams[1].pending.NoNotice? && f.hub.streams[1].capacity == 9
  {
    OneFrame(T20);
    RowsOfFrame(T20);
    hide Rows, FrameOf, Visible;
    var got := f.watches[1].got;
    assert got[1..4] == [BeginOf(T20), ChangeOfTx(T20), CommitOf(T20)];
  }

  lemma JoinsAtFloor(steps: seq<Step>)
    requires [Join(5, 9)] <= steps
    ensures var f := Run(LateFeed([T10, T20], 20, 5), steps);
      1 in f.watches && f.watches[1].admitted && f.watches[1].since == 5
  {
    var f0, join := LateFeed([T10, T20], 20, 5), [Join(5, 9)];
    assert steps == join + steps[1..];
    RunConcat(f0, join, steps[1..]);
    assert join[..0] == [] && Run(f0, []) == f0;
    var g := Run(f0, join);
    assert IdsOk(g) && g.watches[1].admitted && g.watches[1].since == 5;
    hide Run, LateFeed, IdsOk;
    RunKeepsPosition(g, steps[1..], 1);
  }

  /**
   A feed told a floor that the slot is past. The stream attached at that floor is admitted, is given the next
   transaction whole, is healthy and is told nothing; and the one between the floor and the slot can never reach it.
   */
  lemma LateSlotHasAHole() returns (f0: State, steps: seq<Step>)
    ensures Starting(f0) && !Whole(f0)
    ensures var f := Run(f0, steps);
      && f.log == [T10, T20] && Healthy(f, 1) && f.hub.streams[1].pending.NoNotice?
      && Delivered(f.watches[1], f.log[1]) && Due(f, 1, 0) && !CanHave(f, 1, 0)
  {
    f0 := LateFeed([T10, T20], 20, 5);
    steps := RunToLateStart();
    steps := RunToLateSlot(f0, steps);
    OneFrame(T10);
    assert f0.log[0] == T10 && f0.start == 5 && f0.origin == 20;
    hide Starting, Run, Drawn, Visible, Delivered, CanHave;
    assert !Whole(f0);
    LateSlotGives(Run(f0, steps));
    JoinsAtFloor(steps);
    NeverHas(f0, steps, 1, 0);
  }
}
