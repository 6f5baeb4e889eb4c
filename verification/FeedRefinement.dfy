/**
 The feed's steps are the receive loop's: a connection's session, turn by turn as the decoder's loop takes it, does
 to decoder, hub, reports and slot exactly what the steps of the feed do when nothing comes between.
 */
module FeedRefinement {
  import opened Wrappers
  import opened FeedEvents
  import opened DecoderSpec
  import opened HubSpec
  import opened Feed
  import SessionSpec

  /** The messages the server sends in a step, with the position they are sent at. */
  predicate Sends(f: State, s: Step, m: Msg, at: Lsn) {
    Enabled(f, s) && f.conn.Up? &&
    match s
    case SendBegin => m == BeginMsg(f.log[f.conn.idx].xid, f.log[f.conn.idx].commit) && at == f.log[f.conn.idx].commit
    case SendRelation(id, rel, p) => m == RelationMsg(id, rel) && at == p
    case SendRow => var r := f.log[f.conn.idx].rows[f.conn.sent.value]; m == r.msg && at == r.at
    case SendCommit => m == CommitMsg(f.log[f.conn.idx].commit) && at == f.log[f.conn.idx].commit
    case _ => false
  }

  /** The queue of events emptied, one publish at a time. */
  function Flush(f: State): seq<Step> {
    seq(if f.shown < |f.emitted| then |f.emitted| - f.shown else 0, _ => PublishNext)
  }

  predicate FlushedTo(f: State, g: State, k: nat) {
    && f.shown + k <= |f.emitted| && f.conn.Up?
    && g.hub == PublishAll(f.hub, f.emitted[f.shown..f.shown + k])
    && g.conn == f.conn && g.emitted == f.emitted && g.shown == f.shown + k && g.confirmed == f.confirmed
  }

  lemma FlushOne(f: State, g: State, k: nat)
    requires FlushedTo(f, g, k) && f.shown + k < |f.emitted|
    ensures Enabled(g, PublishNext) && FlushedTo(f, Next(g, PublishNext), k + 1)
  {
    hide Publish;
    var evs := f.emitted[f.shown..f.shown + k + 1];
    assert evs[..k] == f.emitted[f.shown..f.shown + k] && evs[k] == f.emitted[f.shown + k];
  }

  lemma {:induction false} FlushPublishes(f: State, k: nat)
    requires f.conn.Up? && f.shown + k <= |f.emitted|
    ensures FlushedTo(f, Run(f, seq(k, _ => PublishNext)), k)
  {
    var steps := seq(k, _ => PublishNext);
    if k == 0 {
      assert f.emitted[f.shown..f.shown] == [];
    } else {
      FlushPublishes(f, k - 1);
      assert steps[..k - 1] == seq(k - 1, _ => PublishNext);
      hide FlushedTo, Enabled, Next;
      FlushOne(f, Run(f, steps[..k - 1]), k - 1);
    }
  }

  lemma Flushed(g: State, n: nat, evs: seq<Event>)
    requires g.conn.Up? && g.shown == n && |g.emitted| == n + |evs| && g.emitted[n..] == evs
    ensures var k := Run(g, Flush(g));
      && k.conn == g.conn && k.hub == PublishAll(g.hub, evs) && k.confirmed == g.confirmed
      && k.shown == |k.emitted|
  {
    FlushPublishes(g, |evs|);
    assert g.emitted[g.shown..g.shown + |evs|] == evs;
    assert Flush(g) == seq(|evs|, _ => PublishNext);
    hide Run, PublishAll;
  }

  // A connection of the feed and a session of the loop.

  function LastReport(reports: seq<Lsn>): Lsn {
    if reports == [] then 0 else reports[|reports| - 1]
  }

  /** Where a slot confirmed to `c` is once these reports have been heard. */
  function Heard(c: Lsn, reports: seq<Lsn>): Lsn {
    if reports == [] then c else Max(Heard(c, reports[..|reports| - 1]), reports[|reports| - 1])
  }

  /** The same decoder, hub and last report, and a slot that has heard every report. */
  predicate Alike(f: State, c: Lsn, r: SessionSpec.Session) {
    && f.conn.Up? && f.conn.dec == r.dec && f.hub == r.hub
    && f.conn.reported == LastReport(r.reports) && f.confirmed == Heard(c, r.reports)
  }

  /** Between turns: alike and idle, or, once the loop has returned, down with the hub as it left it. */
  predicate Tracks(f: State, c: Lsn, r: SessionSpec.Session) {
    if r.broken.Some? then f.conn.Down? && f.hub == r.hub else Alike(f, c, r) && Idle(f)
  }

  /** A connection just dialled is a session just opened, from the position it asked for. */
  lemma DialTracks(f: State)
    requires f.conn.Down? && f.shown == |f.emitted|
    ensures Tracks(Dial(f), f.confirmed, SessionSpec.Opening(f.hub, if f.untried then f.resume else 0))
  {
    hide StartIdx;
  }

  lemma AckAlike(f: State, c: Lsn, r: SessionSpec.Session)
    requires Alike(f, c, r)
    ensures Alike(Acknowledge(f), c, SessionSpec.Report(r, true))
  {
    assert (r.reports + [r.dec.acked])[..|r.reports|] == r.reports;
  }

  lemma DropTracks(f: State, c: Lsn, r: SessionSpec.Session, q: SessionSpec.Session, cut: bool)
    requires Alike(f, c, r) && q.broken.Some? && q.hub == r.hub && Enabled(f, Drop(cut))
    ensures Tracks(Run(f, [Drop(cut)]), c, q)
  {
    RunOne(f, Drop(cut));
    hide Run;
  }

  // The standby update.

  predicate UpdateDue(r: SessionSpec.Session, t: SessionSpec.Turn) {
    t.late || r.asked
  }

  function Updated(r: SessionSpec.Session, t: SessionSpec.Turn): SessionSpec.Session {
    if UpdateDue(r, t) then SessionSpec.Report(r, t.heard) else r
  }

  function UpdateSteps(r: SessionSpec.Session, t: SessionSpec.Turn, cut: bool): seq<Step> {
    if !UpdateDue(r, t) then [] else if t.heard then [Standby] else [Drop(cut)]
  }

  lemma UpdateTracks(f: State, c: Lsn, r: SessionSpec.Session, t: SessionSpec.Turn, cut: bool)
    requires Tracks(f, c, r) && r.broken.None?
    ensures Tracks(Run(f, UpdateSteps(r, t, cut)), c, Updated(r, t))
  {
    RunOne(f, Standby);
    hide Run;
    if UpdateDue(r, t) {
      if t.heard {
        AckAlike(f, c, r);
      } else {
        DropTracks(f, c, r, Updated(r, t), cut);
      }
    }
  }

  lemma UpdateStillSends(f: State, r: SessionSpec.Session, t: SessionSpec.Turn, cut: bool, s: Step, m: Msg, at: Lsn)
    requires Sends(f, s, m, at) && Updated(r, t).broken.None?
    ensures Sends(Run(f, UpdateSteps(r, t, cut)), s, m, at)
  {
    RunOne(f, Standby);
    hide Run;
  }

  // A message.

  /** A message received and all it publishes published. */
  function MessageSteps(f: State, s: Step): seq<Step> {
    if Enabled(f, s) then [s] + Flush(Next(f, s)) else []
  }

  lemma SendReceives(f: State, s: Step, m: Msg, at: Lsn)
    requires Sends(f, s, m, at)
    ensures var g := Next(f, s); var (d, evs) := Handle(f.conn.dec, m, at);
      && g.conn.Up? && g.conn.dec == d && g.emitted == f.emitted + evs && g.shown == f.shown == |f.emitted|
      && g.hub == f.hub && g.conn.pc == Checking && g.confirmed == f.confirmed && g.conn.reported == f.conn.reported
  {
    hide Handle;
  }

  lemma MessageTaken(f: State, c: Lsn, r: SessionSpec.Session, s: Step, m: Msg, at: Lsn)
    requires Alike(f, c, r) && Sends(f, s, m, at)
    ensures var k := Run(f, MessageSteps(f, s));
      Alike(k, c, SessionSpec.Take(r, m, at)) && k.shown == |k.emitted| && k.conn.pc == Checking
  {
    hide Next, Enabled, Handle, PublishAll, Run, Flush;
    SendReceives(f, s, m, at);
    RunConcat(f, [s], Flush(Next(f, s)));
    RunOne(f, s);
    hide Sends;
    Flushed(Next(f, s), |f.emitted|, Handle(f.conn.dec, m, at).1);
  }

  function SettleSteps(k: State, heard: bool, cut: bool): seq<Step> {
    if !k.hub.releasable then [Carry] else if heard then [Feed.Report, ReleaseStep] else [Drop(cut)]
  }

  lemma ReportAndRelease(k: State)
    requires Enabled(k, Feed.Report)
    ensures Run(k, [Feed.Report, ReleaseStep]) == OnRelease(OnReport(k))
  {
    assert [Feed.Report, ReleaseStep] == [Feed.Report] + [ReleaseStep];
    RunConcat(k, [Feed.Report], [ReleaseStep]);
    RunOne(k, Feed.Report);
    RunOne(OnReport(k), ReleaseStep);
    assert Enabled(OnReport(k), ReleaseStep);
    hide Run, OnRelease, OnReport;
  }

  lemma ReleaseTracks(k: State, c: Lsn, r: SessionSpec.Session)
    requires Alike(k, c, r) && r.broken.None? && k.shown == |k.emitted|
    ensures Tracks(OnRelease(OnReport(k)), c, SessionSpec.Report(r, true).(hub := ReleasePending(r.hub)))
  {
    AckAlike(k, c, r);
    hide ReleasePending, Heard, LastReport;
  }

  /** How a published message is settled: released after a report, carried on, or cut by a failed report. */
  lemma SettleTracks(k: State, c: Lsn, r: SessionSpec.Session, heard: bool, cut: bool)
    requires Alike(k, c, r) && r.broken.None? && k.shown == |k.emitted| && k.conn.pc == Checking
    ensures Tracks(Run(k, SettleSteps(k, heard, cut)), c, SessionSpec.Settle(r, heard))
  {
    hide ReleasePending, Run, OnRelease, OnReport, Heard;
    if !k.hub.releasable {
      RunOne(k, Carry);
    } else if heard {
      ReportAndRelease(k);
      ReleaseTracks(k, c, r);
    } else {
      DropTracks(k, c, r, SessionSpec.Settle(r, heard), cut);
    }
  }

  // A turn, and a whole session.

  /** The steps of what the connection yields in a turn; `s` is the one the server takes if it sends a message. */
  function InputSteps(f: State, t: SessionSpec.Turn, s: Step, cut: bool): seq<Step> {
    match t.input
    case Data(m, at) =>
      var steps := MessageSteps(f, s);
      steps + SettleSteps(Run(f, steps), t.heardAgain, cut)
    case Lost(_) => [Drop(cut)]
    case Garbled => [Drop(cut)]
    case _ => []
  }

  lemma InputTracks(f: State, c: Lsn, r: SessionSpec.Session, t: SessionSpec.Turn, s: Step, cut: bool)
    requires Tracks(f, c, r) && r.broken.None? && (t.input.Data? ==> Sends(f, s, t.input.m, t.input.at))
    ensures Tracks(Run(f, InputSteps(f, t, s, cut)), c, SessionSpec.OnInput(r, t))
  {
    hide Run, MessageSteps, SettleSteps, SessionSpec.Settle, Heard, Handle, PublishAll;
    match t.input
    case Data(m, at) =>
      var steps := MessageSteps(f, s);
      MessageTaken(f, c, r, s, m, at);
      SettleTracks(Run(f, steps), c, SessionSpec.Take(r, m, at), t.heardAgain, cut);
      RunConcat(f, steps, SettleSteps(Run(f, steps), t.heardAgain, cut));
    case Lost(_) => DropTracks(f, c, r, SessionSpec.OnInput(r, t), cut);
    case Garbled => DropTracks(f, c, r, SessionSpec.OnInput(r, t), cut);
    case _ => RunOne(f, Standby);
  }

  function TurnSteps(f: State, r: SessionSpec.Session, t: SessionSpec.Turn, s: Step, cut: bool): seq<Step> {
    if r.broken.Some? then []
    else
      var first := UpdateSteps(r, t, cut);
      if Updated(r, t).broken.Some? then first else first + InputSteps(Run(f, first), t, s, cut)
  }

  /** If the turn brings a message, it is the one the server sends in step `s`. */
  predicate TurnServed(f: State, r: SessionSpec.Session, t: SessionSpec.Turn, s: Step) {
    r.broken.None? && Updated(r, t).broken.None? && t.input.Data? ==> Sends(f, s, t.input.m, t.input.at)
  }

  /**
   A turn of the loop is steps of the feed: a standby update if one is due or was asked for, and then whatever came: a
   message with all it publishes, followed by a report and a release, or neither; the loss of the connection; or
   nothing. Both lead to the same decoder, hub, last report and slot. A report that does not get through, before the
   message or after it, ends the connection with nobody released, whether or not (`cut`) the server heard it.
   */
  lemma TurnIsSteps(f: State, c: Lsn, r: SessionSpec.Session, t: SessionSpec.Turn, s: Step, cut: bool)
    requires Tracks(f, c, r) && TurnServed(f, r, t, s)
    ensures Tracks(Run(f, TurnSteps(f, r, t, s, cut)), c, SessionSpec.TakeTurn(r, t))
  {
    hide Run, Tracks, Sends, UpdateSteps, InputSteps, SessionSpec.OnInput, SessionSpec.Report;
    RunOne(f, Standby);
    if r.broken.None? {
      var first := UpdateSteps(r, t, cut);
      UpdateTracks(f, c, r, t, cut);
      if Updated(r, t).broken.None? {
        if t.input.Data? {
          UpdateStillSends(f, r, t, cut, s, t.input.m, t.input.at);
        }
        InputTracks(Run(f, first), c, Updated(r, t), t, s, cut);
        RunConcat(f, first, InputSteps(Run(f, first), t, s, cut));
      }
    }
  }

  function SessionSteps(f: State, r: SessionSpec.Session, turns: seq<SessionSpec.Turn>, sends: seq<Step>, cut: bool): seq<Step>
    requires |sends| == |turns|
  {
    if turns == [] then []
    else
      var n := |turns| - 1;
      var before := SessionSteps(f, r, turns[..n], sends[..n], cut);
      before + TurnSteps(Run(f, before), SessionSpec.TakeTurns(r, turns[..n]), turns[n], sends[n], cut)
  }

  /** Every message of the session is the one the server sends at that point. */
  predicate Served(f: State, r: SessionSpec.Session, turns: seq<SessionSpec.Turn>, sends: seq<Step>, cut: bool)
    requires |sends| == |turns|
  {
    turns == [] ||
    var n := |turns| - 1;
    && Served(f, r, turns[..n], sends[..n], cut)
    && TurnServed(Run(f, SessionSteps(f, r, turns[..n], sends[..n], cut)), SessionSpec.TakeTurns(r, turns[..n]), turns[n], sends[n])
  }

  /** A whole session, turn by turn, is a run of the feed's steps; and it ends where that run ends. */
  lemma {:induction false} SessionIsRun(f: State, c: Lsn, r: SessionSpec.Session, turns: seq<SessionSpec.Turn>, sends: seq<Step>, cut: bool)
    requires |sends| == |turns| && Tracks(f, c, r) && Served(f, r, turns, sends, cut)
    ensures Tracks(Run(f, SessionSteps(f, r, turns, sends, cut)), c, SessionSpec.TakeTurns(r, turns))
  {
    hide Run, Tracks, TurnSteps, TurnServed, SessionSpec.TakeTurn;
    if turns == [] {
      RunOne(f, Standby);
    } else {
      var n := |turns| - 1;
      SessionIsRun(f, c, r, turns[..n], sends[..n], cut);
      var before := SessionSteps(f, r, turns[..n], sends[..n], cut);
      var g, q := Run(f, before), SessionSpec.TakeTurns(r, turns[..n]);
      TurnIsSteps(g, c, q, turns[n], sends[n], cut);
      RunConcat(f, before, TurnSteps(g, q, turns[n], sends[n], cut));
    }
  }

  /** From a feed that is down: dialling and then a whole session of the decoder's, as the supervisor starts it. */
  lemma ConnectionIsRun(f: State, turns: seq<SessionSpec.Turn>, sends: seq<Step>, cut: bool)
    requires f.conn.Down? && f.shown == |f.emitted| && |sends| == |turns|
    requires Served(Dial(f), SessionSpec.Opening(f.hub, if f.untried then f.resume else 0), turns, sends, cut)
    ensures var r := SessionSpec.Opening(f.hub, if f.untried then f.resume else 0);
      Tracks(Run(f, [Connect] + SessionSteps(Dial(f), r, turns, sends, cut)), f.confirmed, SessionSpec.TakeTurns(r, turns))
  {
    var r := SessionSpec.Opening(f.hub, if f.untried then f.resume else 0);
    DialTracks(f);
    RunOne(f, Connect);
    assert Enabled(f, Connect) && Next(f, Connect) == Dial(f);
    hide Run, Tracks, Served, SessionSteps, Enabled, Next, Dial;
    SessionIsRun(Dial(f), f.confirmed, r, turns, sends, cut);
    RunConcat(f, [Connect], SessionSteps(Dial(f), r, turns, sends, cut));
  }
}
