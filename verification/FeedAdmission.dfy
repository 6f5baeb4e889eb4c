/**
 Who may be attached where. The floor is exactly the position below which a running feed has already
 given something away, and the route's judgement of `?since=` follows it; and what goes wrong when
 the floor that is judged is not the floor at the moment of attaching.
 */
module FeedAdmission {
  import opened Wrappers
  import opened FeedEvents
  import opened DecoderSpec
  import opened HubSpec
  import opened Feed
  import opened FeedInvariant
  import opened FeedTheorems
  import opened Resume
  import SessionSpec

  /** A begin above `p` has already been published. */
  predicate BegunAbove(f: State, p: Lsn) {
    exists j :: 0 <= j < f.shown <= |f.emitted| && f.emitted[j].Begin? && f.emitted[j].commit > p
  }

  /** The floor is where the feed began or the highest begin published. */
  predicate FloorTight(f: State) {
    f.hub.floor == f.start ||
    exists j :: 0 <= j < f.shown <= |f.emitted| && f.emitted[j].Begin? && f.emitted[j].commit == f.hub.floor
  }

  predicate Extends(f: State, g: State) {
    && f.shown <= g.shown && |f.emitted| <= |g.emitted| && g.emitted[..|f.emitted|] == f.emitted && g.start == f.start
    && (g.hub.floor == f.hub.floor ||
        (g.shown == f.shown + 1 <= |g.emitted| && g.emitted[f.shown].Begin? && g.emitted[f.shown].commit == g.hub.floor))
  }

  lemma StepExtends(f: State, s: Step)
    requires Enabled(f, s)
    ensures Extends(f, Next(f, s))
  {
    hide Handle, StartIdx, OfferAll, AnyWaiting;
  }

  lemma TightCarries(f: State, g: State)
    requires Extends(f, g) && FloorTight(f) && g.shown <= |g.emitted| && f.shown <= |f.emitted|
    ensures FloorTight(g)
  {
    if g.hub.floor == f.hub.floor && f.hub.floor != f.start {
      var j :| 0 <= j < f.shown <= |f.emitted| && f.emitted[j].Begin? && f.emitted[j].commit == f.hub.floor;
      assert g.emitted[j] == g.emitted[..|f.emitted|][j];
    }
  }

  lemma {:induction false} RunTight(f: State, steps: seq<Step>)
    requires Init(f)
    ensures FloorTight(Run(f, steps))
  {
    if steps != [] {
      var front := steps[..|steps| - 1];
      RunTight(f, front);
      RunInv(f, front);
      RunInv(f, steps);
      var g := Run(f, front);
      if Enabled(g, steps[|steps| - 1]) {
        StepExtends(g, steps[|steps| - 1]);
        hide Inv, FloorTight, Next, Enabled, Extends;
        ShownBound(g);
        ShownBound(Next(g, steps[|steps| - 1]));
        TightCarries(g, Next(g, steps[|steps| - 1]));
      }
    }
  }

  lemma ShownBound(f: State)
    requires Inv(f)
    ensures f.shown <= |f.emitted|
  {
    hide LogOk, ConnOk, FramesOk, HubOk, OpenOk, StreamsOk;
  }

  /** In every run the floor is exactly the lowest position, from the start on, that no published begin is above. */
  lemma FloorIsExact(f0: State, steps: seq<Step>, since: Lsn)
    requires Init(f0)
    ensures var f := Run(f0, steps);
      since >= f.hub.floor <==> since >= f.start && !BegunAbove(f, since)
  {
    var f := Run(f0, steps);
    RunInv(f0, steps);
    RunTight(f0, steps);
    hide LogOk, ConnOk, FramesOk, OpenOk, StreamsOk, Run, Init, Open, ChangesInside;
  }

  /** Everything visible that has been published whole lies at or below the floor. */
  lemma PublishedIsBelowFloor(f: State, i: nat)
    requires Inv(f) && PublishedBy(f, i, f.shown) && Visible(f.log[i])
    ensures f.log[i].commit <= f.hub.floor
  {
    FrameOn(f, i);
    FrameStartsWithBegin(f.log[i]);
    if f.log[i].commit >= f.origin {
      var (a, b) := f.frames[i];
      RowsMembers(f.emitted[a..b], FrameOf(f.log[i])[0]);
      hide LogOk, ConnOk, FramesOk, OpenOk, StreamsOk, Open, FrameOf, Rows, Visible;
    } else {
      hide ConnOk, FramesOk, OpenOk, StreamsOk, Open, FrameOf, Rows, Visible, Covered, GoodTx;
    }
  }

  // The judgement.

  /** The window the route reads of a feed that is running. */
  function LiveWindow(f: State, walEnd: Lsn): Window {
    Window(f.confirmed, true, walEnd, true, f.hub.floor)
  }

  /**
   Judging a position against a running feed, at the moment of attaching: it is let in exactly when the
   stream it opens is admitted, the hub knows its floor, and the position is not past the log. And then
   nothing published so far is above it. One past the log is refused as ahead, any other as expired.
   */
  lemma LiveJudgement(f0: State, steps: seq<Step>, since: Lsn, walEnd: Lsn, capacity: nat)
    requires Init(f0) && since != 0
    ensures var f := Run(f0, steps);
      var g := OnJoin(f, since, capacity);
      var verdict := JudgeResume(since, LiveWindow(f, walEnd));
      var past, attachable := walEnd != 0 && since > walEnd, g.watches[g.hub.nextId].admitted && f.hub.floor != 0;
      && (verdict == ResumeLive <==> attachable && !past)
      && (verdict == ResumeAhead <==> past)
      && (verdict == ResumeExpired <==> !past && !attachable)
      && (verdict == ResumeLive ==> !BegunAbove(f, since))
  {
    FloorIsExact(f0, steps, since);
    hide Run, Init, BegunAbove;
  }

  /** A feed about to start from `since`, with that position for its floor, on a slot confirmed so far. */
  function NewFeed(log: seq<Tx>, confirmed: Lsn, since: Lsn): State {
    var origin := Max(since, confirmed);
    State(log, confirmed, StartedAt(NewHub(), since), Down, [], 0, seq(StartIdx(log, origin), _ => (0, 0)),
          0, 0, 0, map[], since, origin, since, true)
  }

  /**
   Judging a position with nothing running: it is resumed from exactly when it is within the log, there is a slot,
   and the feed then started begins no later than it; and such a feed is whole, whatever the log holds. One past the
   log is refused as ahead, any other as expired.
   */
  lemma StartJudgement(since: Lsn, w: Window, log: seq<Tx>)
    requires since != 0 && !w.live && Increasing(log) && forall i :: 0 <= i < |log| ==> GoodTx(log[i])
    ensures var f := NewFeed(log, w.confirmed, since);
      var past := w.walEnd != 0 && since > w.walEnd;
      && (JudgeResume(since, w) == ResumeFrom <==> w.haveSlot && !past && f.origin <= f.start)
      && (JudgeResume(since, w) == ResumeAhead <==> past)
      && (JudgeResume(since, w) == ResumeExpired <==> !past && !(w.haveSlot && f.origin <= f.start))
      && (JudgeResume(since, w) == ResumeFrom ==> Init(f))
  {
    hide StartIdx, GoodTx, Visible;
  }

  /**
   The route and the decoder refuse the same: with the log ending at one place for both, a position is judged to be
   ahead exactly when the attempt to start from it would fail for that. With no position there is nothing to judge.
   */
  lemma AheadAlike(h: HubState, a: SessionSpec.Attempt, since: Lsn, w: Window)
    requires a.setup.None? && w.walEnd != 0 && a.walEnd == Some(w.walEnd)
    ensures JudgeResume(since, w) == ResumeAhead <==> SessionSpec.Outcome(h, a, since) == SessionSpec.Ahead
    ensures since == 0 ==> JudgeResume(since, w) == ResumeLive
  {
    hide SessionSpec.TakeTurns;
  }
}
