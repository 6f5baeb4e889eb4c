/**
 One connection's receive loop, and the supervisor that keeps starting it.

 What comes from outside is data: each turn of the loop says whether its standby update was due,
 what the connection then yielded, and whether a report got through.
 */
module SessionSpec {
  import opened Wrappers
  import opened FeedEvents
  import opened DecoderSpec
  import HubSpec

  datatype Trouble = SlotInvalidated | OtherTrouble
  datatype Failure = Ahead | Failed(trouble: Trouble)

  datatype Input =
    | Silence
    | Chatter
    | Lost(trouble: Trouble)
    | Garbled
    | Keepalive(reply: bool)
    | Data(m: Msg, at: Lsn)

  datatype Turn = Turn(late: bool, heard: bool, input: Input, heardAgain: bool)

  /** `reports` is every position told to the server, in order; `asked` is a keepalive to be answered. */
  datatype Session = Session(
    dec: DecoderState, hub: HubSpec.HubState, asked: bool, reports: seq<Lsn>, broken: Option<Trouble>)

  function Opening(h: HubSpec.HubState, since: Lsn): Session {
    Session(DecoderState(map[], NO_TX, since), h, false, [], None)
  }

  function Break(s: Session, t: Trouble): Session {
    s.(broken := Some(t))
  }

  function Report(s: Session, heard: bool): Session {
    if heard then s.(reports := s.reports + [s.dec.acked], asked := false) else Break(s, OtherTrouble)
  }

  /** After every message: a stream held back is released, and only after the position has been reported. */
  function Settle(s: Session, heard: bool): Session {
    if !s.hub.releasable then s
    else
      var r := Report(s, heard);
      if r.broken.Some? then r else r.(hub := HubSpec.ReleasePending(r.hub))
  }

  function Take(s: Session, m: Msg, at: Lsn): Session {
    var (d, evs) := Handle(s.dec, m, at);
    s.(dec := d, hub := HubSpec.PublishAll(s.hub, evs))
  }

  function OnInput(s: Session, t: Turn): Session {
    match t.input
    case Silence => s
    case Chatter => s
    case Lost(trouble) => Break(s, trouble)
    case Garbled => Break(s, OtherTrouble)
    case Keepalive(reply) => s.(asked := s.asked || reply)
    case Data(m, at) => Settle(Take(s, m, at), t.heardAgain)
  }

  function TakeTurn(s: Session, t: Turn): Session {
    if s.broken.Some? then s
    else
      var r := if t.late || s.asked then Report(s, t.heard) else s;
      if r.broken.Some? then r else OnInput(r, t)
  }

  function TakeTurns(s: Session, turns: seq<Turn>): Session {
    if turns == [] then s else TakeTurn(TakeTurns(s, turns[..|turns| - 1]), turns[|turns| - 1])
  }

  lemma {:induction false} BrokenStays(s: Session, turns: seq<Turn>, n: nat)
    requires n <= |turns| && TakeTurns(s, turns[..n]).broken.Some?
    ensures TakeTurns(s, turns) == TakeTurns(s, turns[..n])
  {
    if n == |turns| {
      assert turns[..n] == turns;
    } else {
      assert turns[..|turns| - 1][..n] == turns[..n];
      BrokenStays(s, turns[..|turns| - 1], n);
    }
  }

  /** The connection was told of this commit. */
  predicate Committed(turns: seq<Turn>, p: Lsn) {
    exists i :: 0 <= i < |turns| && turns[i].input.Data? && turns[i].input.m == CommitMsg(p)
  }

  predicate Earned(since: Lsn, turns: seq<Turn>, p: Lsn) {
    p == since || Committed(turns, p)
  }

  lemma EarnedGrows(since: Lsn, turns: seq<Turn>, p: Lsn)
    requires turns != [] && Earned(since, turns[..|turns| - 1], p)
    ensures Earned(since, turns, p)
  {
    if p != since {
      var i :| 0 <= i < |turns| - 1 && turns[i].input.Data? && turns[i].input.m == CommitMsg(p);
      assert turns[..|turns| - 1][i] == turns[i];
    }
  }

  lemma AckedMoves(d: DecoderState, m: Msg, at: Lsn)
    ensures Handle(d, m, at).0.acked == if m.CommitMsg? then m.commit else d.acked
  {
  }

  lemma TurnReports(s: Session, t: Turn)
    ensures var r := TakeTurn(s, t);
      && |s.reports| <= |r.reports| && r.reports[..|s.reports|] == s.reports
      && (r.dec.acked == s.dec.acked || (t.input.Data? && t.input.m == CommitMsg(r.dec.acked)))
      && (forall i :: |s.reports| <= i < |r.reports| ==> r.reports[i] == s.dec.acked || r.reports[i] == r.dec.acked)
  {
    hide Handle, HubSpec.PublishAll, HubSpec.ReleasePending;
    if t.input.Data? {
      AckedMoves(s.dec, t.input.m, t.input.at);
    }
  }

  /** Nothing is ever reported but the position resumed from and commits this connection has handled. */
  lemma {:induction false} OnlyHandledIsReported(h: HubSpec.HubState, since: Lsn, turns: seq<Turn>)
    ensures var s := TakeTurns(Opening(h, since), turns);
      && Earned(since, turns, s.dec.acked)
      && forall i :: 0 <= i < |s.reports| ==> Earned(since, turns, s.reports[i])
  {
    if turns != [] {
      var front, t := turns[..|turns| - 1], turns[|turns| - 1];
      OnlyHandledIsReported(h, since, front);
      var s := TakeTurns(Opening(h, since), front);
      var r := TakeTurn(s, t);
      TurnReports(s, t);
      EarnedGrows(since, turns, s.dec.acked);
      assert Earned(since, turns, r.dec.acked);
      hide Earned, Committed, TakeTurn;
      forall i | 0 <= i < |r.reports| ensures Earned(since, turns, r.reports[i]) {
        if i < |s.reports| {
          assert r.reports[i] == s.reports[i];
          EarnedGrows(since, turns, s.reports[i]);
        }
      }
    }
  }

  /**
   A stream still held back once a message has been published is let go in that turn only after the position has been
   reported, and then that position is the turn's last report; a report that does not get through lets nobody go.
   */
  lemma ReleasedOnlyAfterReport(s: Session, t: Turn, id: nat)
    requires s.broken.None? && t.input.Data? && (t.late || s.asked ==> t.heard)
    requires var h := Take(s, t.input.m, t.input.at).hub;
      id in h.streams && HubSpec.Waiting(h.streams[id]) && h.releasable
    ensures var h, r := Take(s, t.input.m, t.input.at).hub, TakeTurn(s, t);
      && (r.hub.streams == h.streams <==> !t.heardAgain)
      && (t.heardAgain ==> r.reports != [] && r.reports[|r.reports| - 1] == r.dec.acked && r.broken.None?
                           && id in r.hub.streams && r.hub.streams[id].done)
      && (!t.heardAgain ==> r.broken.Some?)
  {
    hide Handle, HubSpec.PublishAll;
  }

  /** A keepalive that asks is answered in the next turn, before anything else, and once: only another asks again. */
  lemma KeepaliveIsAnswered(s: Session, t: Turn, u: Turn)
    requires s.broken.None? && TakeTurn(s, t).broken.None?
    ensures TakeTurn(s, t).asked <==> t.input == Keepalive(true)
    ensures t.input == Keepalive(true) ==>
      var r, next := TakeTurn(s, t), TakeTurn(TakeTurn(s, t), u);
      if u.heard then |next.reports| > |r.reports| && next.reports[|r.reports|] == r.dec.acked
      else next == r.(broken := Some(OtherTrouble))
  {
    hide Handle, HubSpec.PublishAll, HubSpec.ReleasePending;
  }

  // The supervisor.

  /** One attempt: what kept it from starting, if anything did, and otherwise the turns of its loop. */
  datatype Attempt = Attempt(
    setup: Option<Trouble>, walEnd: Option<Lsn>, start: Option<Trouble>, turns: seq<Turn>, cancelled: bool)

  predicate Starts(a: Attempt, since: Lsn) {
    a.setup.None? && (since > 0 ==> a.walEnd.Some? && since <= a.walEnd.value) && a.start.None?
  }

  function HubOnce(h: HubSpec.HubState, a: Attempt, since: Lsn): HubSpec.HubState {
    if Starts(a, since) then TakeTurns(Opening(h, since), a.turns).hub else h
  }

  /** How an attempt ended. It always ends in a failure: the loop returns in no other way. */
  function Outcome(h: HubSpec.HubState, a: Attempt, since: Lsn): Failure {
    if a.setup.Some? then Failed(a.setup.value)
    else if since > 0 && a.walEnd.None? then Failed(OtherTrouble)
    else if since > 0 && since > a.walEnd.value then Ahead
    else if a.start.Some? then Failed(a.start.value)
    else
      var s := TakeTurns(Opening(h, since), a.turns);
      Failed(if s.broken.Some? then s.broken.value else OtherTrouble)
  }

  function SinceAt(since: Lsn, i: nat): Lsn {
    if i == 0 then since else 0
  }

  /** The hub after the first `n` attempts. */
  function HubAfter(h: HubSpec.HubState, since: Lsn, attempts: seq<Attempt>, n: nat): HubSpec.HubState
    requires n <= |attempts|
  {
    if n == 0 then h else HubOnce(HubAfter(h, since, attempts, n - 1), attempts[n - 1], SinceAt(since, n - 1))
  }

  function OutcomeAt(h: HubSpec.HubState, since: Lsn, attempts: seq<Attempt>, i: nat): Failure
    requires i < |attempts|
  {
    Outcome(HubAfter(h, since, attempts, i), attempts[i], SinceAt(since, i))
  }

  const MAX_FAILURES: nat := 10

  /** Whether attempt `i` is the last, were it reached. */
  predicate Final(h: HubSpec.HubState, since: Lsn, attempts: seq<Attempt>, i: nat)
    requires i < |attempts|
  {
    || attempts[i].cancelled
    || OutcomeAt(h, since, attempts, i) == Ahead
    || OutcomeAt(h, since, attempts, i) == Failed(SlotInvalidated)
    || i + 1 >= MAX_FAILURES
  }

  /** What the hub is closed with after a final attempt, if it is closed. */
  function LastWord(h: HubSpec.HubState, since: Lsn, attempts: seq<Attempt>, i: nat): Notice
    requires i < |attempts|
  {
    if attempts[i].cancelled then NoNotice
    else match OutcomeAt(h, since, attempts, i)
      case Ahead => Resync(CursorExpired)
      case Failed(SlotInvalidated) => Resync(SlotLost)
      case Failed(OtherTrouble) => if i + 1 >= MAX_FAILURES then Error(DecoderFailed) else NoNotice
  }

  /** Only the first attempt can be ahead of the log: every later one asks for no position. */
  lemma AheadOnlyFirst(h: HubSpec.HubState, since: Lsn, attempts: seq<Attempt>, i: nat)
    requires i < |attempts| && OutcomeAt(h, since, attempts, i) == Ahead
    ensures i == 0 && since > 0 && attempts[0].walEnd.Some? && attempts[0].walEnd.value < since
  {
    hide HubAfter, TakeTurns;
  }

  // What a final attempt's own data say it is final for.

  /** Everything was set up, and the position asked for is past the branch's log. */
  predicate PastTheLog(a: Attempt, since: Lsn) {
    a.setup.None? && a.walEnd.Some? && since > a.walEnd.value
  }

  /** Turn `n` is reached and is told that the server has dropped the slot. */
  predicate SlotLostAt(h: HubSpec.HubState, since: Lsn, turns: seq<Turn>, n: nat) {
    && n < |turns| && turns[n].input == Lost(SlotInvalidated)
    && var s := TakeTurns(Opening(h, since), turns[..n]);
       s.broken.None? && (turns[n].late || s.asked ==> turns[n].heard)
  }

  /** The server has dropped the slot: found while setting up, at the start, or while receiving. */
  ghost predicate SlotGone(h: HubSpec.HubState, a: Attempt, since: Lsn) {
    || a.setup == Some(SlotInvalidated)
    || (a.setup.None? && (since > 0 ==> a.walEnd.Some? && since <= a.walEnd.value)
        && if a.start.Some? then a.start.value == SlotInvalidated else exists n :: SlotLostAt(h, since, a.turns, n))
  }

  lemma TurnBreaks(s: Session, t: Turn)
    requires s.broken.None?
    ensures TakeTurn(s, t).broken == Some(SlotInvalidated) <==> t.input == Lost(SlotInvalidated) && (t.late || s.asked ==> t.heard)
  {
    hide Handle, HubSpec.PublishAll, HubSpec.ReleasePending;
  }

  /** A connection ends on a lost slot exactly when some turn it reaches is told so. */
  lemma {:induction false} BrokenBySlotIff(h: HubSpec.HubState, since: Lsn, turns: seq<Turn>)
    ensures TakeTurns(Opening(h, since), turns).broken == Some(SlotInvalidated) <==> exists n :: SlotLostAt(h, since, turns, n)
  {
    hide TakeTurn;
    if turns != [] {
      var front, t := turns[..|turns| - 1], turns[|turns| - 1];
      var s := TakeTurns(Opening(h, since), front);
      BrokenBySlotIff(h, since, front);
      if s.broken.None? { TurnBreaks(s, t); } else { BrokenOnce(s, t); }
      forall n: nat | n < |front| ensures SlotLostAt(h, since, turns, n) <==> SlotLostAt(h, since, front, n) {
        assert turns[..n] == front[..n] && turns[n] == front[n];
      }
      if n :| SlotLostAt(h, since, front, n) {
        assert SlotLostAt(h, since, turns, n);
      } else if s.broken.None? {
        assert SlotLostAt(h, since, turns, |front|) <==> t.input == Lost(SlotInvalidated) && (t.late || s.asked ==> t.heard);
      }
    }
  }

  lemma BrokenOnce(s: Session, t: Turn)
    requires s.broken.Some?
    ensures TakeTurn(s, t) == s
  {
  }

  lemma OutcomeIff(h: HubSpec.HubState, a: Attempt, since: Lsn)
    ensures Outcome(h, a, since) == Ahead <==> PastTheLog(a, since)
    ensures Outcome(h, a, since) == Failed(SlotInvalidated) <==> SlotGone(h, a, since)
  {
    BrokenBySlotIff(h, since, a.turns);
    hide TakeTurns, SlotLostAt;
  }

  /**
   What an attempt leaves the subscribers with, from what it ran into: a position past the log is told as an expired
   cursor, a slot the server has dropped as a lost slot, the tenth failure as a failed decoder; an attempt that was
   cancelled, or is to be followed by another, says nothing.
   */
  ghost predicate EndsWith(h: HubSpec.HubState, since: Lsn, attempts: seq<Attempt>, i: nat, word: Notice)
    requires i < |attempts|
  {
    var a := attempts[i];
    var past := i == 0 && PastTheLog(a, since);
    var gone := SlotGone(HubAfter(h, since, attempts, i), a, if i == 0 then since else 0);
    && (word == Resync(CursorExpired) <==> !a.cancelled && past)
    && (word == Resync(SlotLost) <==> !a.cancelled && gone)
    && (word == Error(DecoderFailed) <==> !a.cancelled && !past && !gone && i >= 9)
    && (word == NoNotice <==> a.cancelled || (!past && !gone && i < 9))
    && (Final(h, since, attempts, i) <==> a.cancelled || past || gone || i >= 9)
  }

  lemma LastWordIff(h: HubSpec.HubState, since: Lsn, attempts: seq<Attempt>, i: nat)
    requires i < |attempts|
    ensures EndsWith(h, since, attempts, i, LastWord(h, since, attempts, i))
  {
    OutcomeIff(HubAfter(h, since, attempts, i), attempts[i], SinceAt(since, i));
    hide HubAfter, SlotGone, Outcome;
  }

  /** An attempt that is refused, or does not get to start, does nothing to the hub; any other does what its turns do. */
  lemma AttemptTouches(h: HubSpec.HubState, a: Attempt, since: Lsn)
    ensures HubOnce(h, a, since) ==
      if a.setup.Some? || a.start.Some? || PastTheLog(a, since) || (since > 0 && a.walEnd.None?) then h
      else TakeTurns(Opening(h, since), a.turns).hub
  {
    hide TakeTurns;
  }

  // What closing the hub tells.

  /** Every stream that had not ended carries the notice, and so does every stream opened later. */
  ghost predicate ToldAll(h: HubSpec.HubState, r: HubSpec.HubState, n: Notice) {
    && (forall id :: id in h.streams ==> id in r.streams && r.streams[id].done && (!h.streams[id].done ==> r.streams[id].reason == n))
    && forall capacity :: var q := HubSpec.Subscribe(r, capacity);
         q.nextId in q.streams && q.streams[q.nextId].done && q.streams[q.nextId].reason == n
  }

  lemma CloseTellsAll(h: HubSpec.HubState, n: Notice)
    requires n != NoNotice
    ensures ToldAll(h, HubSpec.Close(h, n), n)
  {
  }

  lemma TurnKeepsOpen(s: Session, t: Turn)
    ensures TakeTurn(s, t).hub.closed == s.hub.closed
  {
    hide Handle;
    if t.input.Data? {
      PublishKeepsOpen(s.hub, Handle(s.dec, t.input.m, t.input.at).1);
    }
  }

  lemma {:induction false} PublishKeepsOpen(h: HubSpec.HubState, evs: seq<Event>)
    ensures HubSpec.PublishAll(h, evs).closed == h.closed
  {
    hide HubSpec.OfferAll;
    if evs != [] {
      PublishKeepsOpen(h, evs[..|evs| - 1]);
    }
  }

  lemma {:induction false} TurnsKeepOpen(s: Session, turns: seq<Turn>)
    ensures TakeTurns(s, turns).hub.closed == s.hub.closed
  {
    hide TakeTurn;
    if turns != [] {
      TurnsKeepOpen(s, turns[..|turns| - 1]);
      TurnKeepsOpen(TakeTurns(s, turns[..|turns| - 1]), turns[|turns| - 1]);
    }
  }

  /** No attempt closes the hub by itself. */
  lemma {:induction false} AttemptsKeepOpen(h: HubSpec.HubState, since: Lsn, attempts: seq<Attempt>, n: nat)
    requires n <= |attempts|
    ensures HubAfter(h, since, attempts, n).closed == h.closed
  {
    hide TakeTurns;
    if n > 0 {
      AttemptsKeepOpen(h, since, attempts, n - 1);
      TurnsKeepOpen(Opening(HubAfter(h, since, attempts, n - 1), SinceAt(since, n - 1)), attempts[n - 1].turns);
    }
  }
}
