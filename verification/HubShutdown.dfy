/**
 The hub's shutdown at the granularity of its locks. Subscribing, taking the list of subscribers to
 publish to or to close, and each of the three parts of ending one stream are separate steps, and
 steps of different callers interleave in every way.

 A stream is ended through a once: the first caller runs the body (record the reason, leave the hub's
 table, close `done`), every other caller waits until that body is over.
 */
module HubShutdown {
  import opened FeedEvents

  datatype Stage = Recording | Detaching | Closing
  datatype Once = Idle | Busy(n: Notice, stage: Stage) | Spent(n: Notice)

  /** `closes` counts how often `done` was closed; `late` marks a stream handed out by a closed hub. */
  datatype Life = Life(once: Once, reason: Notice, closes: nat, late: bool)

  /** A caller of Publish or ReleasePending, with the subscribers it has yet to deal with. */
  type Batch = set<nat>

  /** A caller of Hub.Close: `ended` are the streams whose once it was the first to enter. */
  datatype Closer = Closer(n: Notice, todo: set<nat>, snapshot: set<nat>, ended: set<nat>, mark: nat, returned: bool)

  datatype State = State(
    attached: set<nat>, nextId: nat, closed: bool, why: Notice,
    streams: map<nat, Life>, batches: map<nat, Batch>, closers: map<nat, Closer>)

  datatype Step =
    | Subscribe
    | TakeBatch(b: nat)
    | EndFrom(b: nat, id: nat, n: Notice)
    | SkipFrom(b: nat, id: nat)
    | Leave(id: nat)
    | Advance(id: nat)
    | StartClose(c: nat, n: Notice)
    | CloserEnters(c: nat, id: nat)
    | CloserMovesOn(c: nat, id: nat)
    | CloserReturns(c: nat)

  const START := State({}, 0, false, NoNotice, map[], map[], map[])

  predicate CanEnter(s: State, id: nat) {
    id in s.streams && s.streams[id].once.Idle?
  }

  predicate Enabled(s: State, t: Step) {
    match t
    case Subscribe => true
    case TakeBatch(b) => b !in s.batches
    case EndFrom(b, id, n) => b in s.batches && id in s.batches[b] && CanEnter(s, id) && !n.NoNotice?
    case SkipFrom(b, id) => b in s.batches && id in s.batches[b]
    case Leave(id) => CanEnter(s, id)
    case Advance(id) => id in s.streams && s.streams[id].once.Busy?
    case StartClose(c, n) => c !in s.closers && !n.NoNotice?
    case CloserEnters(c, id) => c in s.closers && id in s.closers[c].todo && CanEnter(s, id)
    case CloserMovesOn(c, id) =>
      c in s.closers && id in s.closers[c].todo && id in s.streams && s.streams[id].once.Spent?
    case CloserReturns(c) => c in s.closers && s.closers[c].todo == {}
  }

  function Enter(s: State, id: nat, n: Notice): State
    requires CanEnter(s, id)
  {
    s.(streams := s.streams[id := s.streams[id].(once := Busy(n, Recording))])
  }

  /** The next part of the body of a stream's once. */
  function Advanced(s: State, id: nat): State
    requires id in s.streams && s.streams[id].once.Busy?
  {
    var l := s.streams[id];
    var n := l.once.n;
    match l.once.stage
    case Recording =>
      s.(streams := s.streams[id := l.(once := Busy(n, Detaching), reason := if n.NoNotice? then l.reason else n)])
    case Detaching =>
      s.(streams := s.streams[id := l.(once := Busy(n, Closing))], attached := s.attached - {id})
    case Closing =>
      s.(streams := s.streams[id := l.(once := Spent(n), closes := l.closes + 1)])
  }

  function Subscribed(s: State): State {
    var id := s.nextId + 1;
    if s.closed
    then s.(nextId := id, streams := s.streams[id := Life(Idle, s.why, 1, true)])
    else s.(nextId := id, streams := s.streams[id := Life(Idle, NoNotice, 0, false)], attached := s.attached + {id})
  }

  function Next(s: State, t: Step): State
    requires Enabled(s, t)
  {
    match t
    case Subscribe => Subscribed(s)
    case TakeBatch(b) => s.(batches := s.batches[b := s.attached])
    case EndFrom(b, id, n) => Enter(s, id, n)
    case SkipFrom(b, id) => s.(batches := s.batches[b := s.batches[b] - {id}])
    case Leave(id) => Enter(s, id, NoNotice)
    case Advance(id) => Advanced(s, id)
    case StartClose(c, n) =>
      s.(closed := true, why := n, closers := s.closers[c := Closer(n, s.attached, s.attached, {}, s.nextId, false)])
    case CloserEnters(c, id) =>
      Enter(s, id, s.closers[c].n).(closers := s.closers[c := s.closers[c].(ended := s.closers[c].ended + {id})])
    case CloserMovesOn(c, id) =>
      s.(closers := s.closers[c := s.closers[c].(todo := s.closers[c].todo - {id})])
    case CloserReturns(c) => s.(closers := s.closers[c := s.closers[c].(returned := true)])
  }

  function Run(s: State, steps: seq<Step>): State {
    if steps == [] then s
    else
      var r := Run(s, steps[..|steps| - 1]);
      if Enabled(r, steps[|steps| - 1]) then Next(r, steps[|steps| - 1]) else r
  }

  // What every step keeps.

  predicate LifeOk(l: Life) {
    match l.once
    case Idle => l.closes == (if l.late then 1 else 0) && (!l.late ==> l.reason.NoNotice?)
    case Busy(n, stage) =>
      && l.closes == (if l.late then 1 else 0)
      && (l.late ==> n.NoNotice?)
      && (!l.late ==> l.reason == if stage == Recording then NoNotice else n)
    case Spent(n) =>
      l.closes == (if l.late then 2 else 1) && (l.late ==> n.NoNotice?) && (!l.late ==> l.reason == n)
  }

  /** In the table until its once has taken it out. */
  predicate Present(attached: set<nat>, id: nat, l: Life) {
    id in attached <==> !l.late && (l.once.Idle? || (l.once.Busy? && l.once.stage != Closing))
  }

  predicate StreamOk(s: State, id: nat)
    requires id in s.streams
  {
    LifeOk(s.streams[id]) && Present(s.attached, id, s.streams[id]) && 0 < id <= s.nextId && (s.streams[id].late ==> s.closed)
  }

  /** What a closer has dealt with is over; what it entered first carries its notice; what came later is late. */
  predicate CloserAt(k: Closer, attached: set<nat>, nextId: nat, streams: map<nat, Life>) {
    && attached <= k.todo <= k.snapshot && k.mark <= nextId && !k.n.NoNotice? && (k.returned ==> k.todo == {})
    && (forall id :: id in k.snapshot ==> id in streams && !streams[id].late)
    && (forall id :: id in k.snapshot && id !in k.todo ==> id in streams && streams[id].once.Spent?)
    && (forall id :: id in k.ended ==> id in streams && !streams[id].late && !streams[id].once.Idle? && streams[id].once.n == k.n)
    && (forall id :: id in streams && id > k.mark ==> streams[id].late)
  }

  /** While there has been one Close only, every stream it left to be opened later carries its notice. */
  predicate OnlyCloser(k: Closer, why: Notice, streams: map<nat, Life>) {
    why == k.n && forall id :: id in streams && id > k.mark ==> streams[id].reason == k.n
  }

  predicate CloserOk(s: State, c: nat)
    requires c in s.closers
  {
    && s.closed && CloserAt(s.closers[c], s.attached, s.nextId, s.streams)
    && (s.closers.Keys == {c} ==> OnlyCloser(s.closers[c], s.why, s.streams))
  }

  predicate Bookkept(s: State) {
    && s.attached <= s.streams.Keys
    && (s.closed <==> s.closers != map[])
    && (forall b, id :: b in s.batches && id in s.batches[b] ==> id in s.streams && !s.streams[id].late)
  }

  predicate StreamsOk(s: State) {
    forall id :: id in s.streams ==> StreamOk(s, id)
  }

  predicate ClosersOk(s: State) {
    forall c :: c in s.closers ==> CloserOk(s, c)
  }

  predicate Inv(s: State) {
    Bookkept(s) && StreamsOk(s) && ClosersOk(s)
  }

  // One stream moves: its once goes forward and nothing else of it or of the hub does.

  predicate Moves(l: Life, m: Life) {
    && LifeOk(m) && m.late == l.late && !m.once.Idle?
    && (l.once.Spent? ==> m.once.Spent?)
    && (!l.once.Idle? ==> m.once.n == l.once.n)
    && (l.late ==> m.reason == l.reason)
  }

  predicate OneMoved(s: State, r: State, id: nat) {
    && id in s.streams && id in r.streams && r.streams == s.streams[id := r.streams[id]]
    && Moves(s.streams[id], r.streams[id])
    && r.nextId == s.nextId && r.closed == s.closed && r.why == s.why && r.batches == s.batches && r.closers == s.closers
    && r.attached <= s.attached && s.attached - {id} <= r.attached && Present(r.attached, id, r.streams[id])
  }

  lemma CloserCarries(s: State, r: State, id: nat, c: nat)
    requires OneMoved(s, r, id) && c in s.closers && CloserOk(s, c)
    ensures CloserOk(r, c)
  {
    hide LifeOk, Present;
    var k := s.closers[c];
    assert CloserAt(k, r.attached, r.nextId, r.streams) by {
      hide OnlyCloser;
      forall x | x in r.streams && x > k.mark ensures r.streams[x].late {
        assert s.streams[x].late;
      }
    }
  }

  lemma MovedInv(s: State, r: State, id: nat)
    requires Inv(s) && OneMoved(s, r, id)
    ensures Inv(r)
  {
    hide CloserOk;
    forall x | x in r.streams ensures StreamOk(r, x) {
      assert StreamOk(s, x);
      if x != id {
        assert r.streams[x] == s.streams[x];
      }
    }
    hide StreamOk, Present;
    forall c | c in r.closers ensures CloserOk(r, c) {
      CloserCarries(s, r, id, c);
    }
    assert Bookkept(r);
  }

  lemma EnterMoves(s: State, id: nat, n: Notice)
    requires StreamsOk(s) && CanEnter(s, id) && (s.streams[id].late ==> n.NoNotice?)
    ensures OneMoved(s, Enter(s, id, n), id)
  {
    assert StreamOk(s, id);
  }

  lemma AdvanceMoves(s: State, id: nat)
    requires StreamsOk(s) && Enabled(s, Advance(id))
    ensures OneMoved(s, Advanced(s, id), id)
  {
    assert StreamOk(s, id);
  }

  // Subscribing.

  lemma FreshId(s: State)
    requires StreamsOk(s)
    ensures s.nextId + 1 !in s.streams
  {
    hide LifeOk, Present;
    forall x | x in s.streams ensures x <= s.nextId {
      assert StreamOk(s, x);
    }
  }

  lemma SubscribeCloser(s: State, c: nat)
    requires c in s.closers && CloserOk(s, c) && s.nextId + 1 !in s.streams
    ensures CloserOk(Subscribed(s), c)
  {
    var r := Subscribed(s);
    forall x | x in r.streams && x > s.closers[c].mark ensures r.streams[x].late {
      assert x != s.nextId + 1 ==> s.streams[x].late;
    }
  }

  lemma SubscribeInv(s: State)
    requires Inv(s)
    ensures Inv(Subscribed(s))
  {
    hide CloserOk;
    var r := Subscribed(s);
    FreshId(s);
    forall x | x in r.streams ensures StreamOk(r, x) {
      assert x != s.nextId + 1 ==> StreamOk(s, x);
    }
    hide StreamOk;
    forall c | c in r.closers ensures CloserOk(r, c) {
      SubscribeCloser(s, c);
    }
    assert Bookkept(r);
  }

  // The callers.

  lemma StreamsCarry(s: State, r: State)
    requires StreamsOk(s) && r.streams == s.streams && r.attached == s.attached && r.nextId == s.nextId && (s.closed ==> r.closed)
    ensures StreamsOk(r)
  {
    hide LifeOk, Present;
    forall x | x in r.streams ensures StreamOk(r, x) {
      assert StreamOk(s, x);
    }
  }

  lemma NewCloser(s: State, r: State, c: nat)
    requires StreamsOk(s) && Bookkept(s) && c !in s.closers && r.closed && !r.why.NoNotice?
    requires r == s.(closed := true, why := r.why,
                     closers := s.closers[c := Closer(r.why, s.attached, s.attached, {}, s.nextId, false)])
    ensures CloserOk(r, c)
  {
    forall x | x in s.streams ensures x <= s.nextId && (x in s.attached ==> !s.streams[x].late) {
      assert StreamOk(s, x);
    }
  }

  lemma StartCloseInv(s: State, c: nat, n: Notice)
    requires Inv(s) && Enabled(s, StartClose(c, n))
    ensures Inv(Next(s, StartClose(c, n)))
  {
    hide StreamsOk;
    var r := Next(s, StartClose(c, n));
    StreamsCarry(s, r);
    NewCloser(s, r, c);
    hide CloserAt, OnlyCloser;
    forall k | k in r.closers ensures CloserOk(r, k) {
      assert c in r.closers.Keys;
      if k != c {
        assert CloserOk(s, k);
      }
    }
    hide CloserOk;
    assert Bookkept(r);
  }

  /** A step of one closer that leaves the streams alone. */
  lemma CloserStep(s: State, r: State, c: nat)
    requires Inv(s) && c in s.closers && c in r.closers && r == s.(closers := s.closers[c := r.closers[c]])
    requires CloserAt(r.closers[c], s.attached, s.nextId, s.streams)
    requires r.closers[c].n == s.closers[c].n && r.closers[c].mark == s.closers[c].mark
    ensures Inv(r)
  {
    hide StreamsOk, CloserAt;
    StreamsCarry(s, r);
    assert r.closers.Keys == s.closers.Keys;
    forall k | k in r.closers ensures CloserOk(r, k) {
      assert CloserOk(s, k);
    }
    hide CloserOk;
    assert Bookkept(r);
  }

  lemma CloserEntersInv(s: State, c: nat, id: nat)
    requires Inv(s) && Enabled(s, CloserEnters(c, id))
    ensures Inv(Next(s, CloserEnters(c, id)))
  {
    hide StreamsOk, Bookkept, OnlyCloser;
    assert CloserOk(s, c);
    var m := Enter(s, id, s.closers[c].n);
    EnterMoves(s, id, s.closers[c].n);
    MovedInv(s, m, id);
    assert CloserOk(m, c);
    var k := m.closers[c].(ended := m.closers[c].ended + {id});
    assert CloserAt(k, m.attached, m.nextId, m.streams);
    hide CloserOk, CloserAt;
    CloserStep(m, m.(closers := m.closers[c := k]), c);
  }

  lemma CloserMovesOnInv(s: State, c: nat, id: nat)
    requires Inv(s) && Enabled(s, CloserMovesOn(c, id))
    ensures Inv(Next(s, CloserMovesOn(c, id)))
  {
    assert StreamOk(s, id);
    hide StreamsOk, Bookkept, OnlyCloser;
    assert CloserOk(s, c);
    var r := Next(s, CloserMovesOn(c, id));
    assert CloserAt(r.closers[c], s.attached, s.nextId, s.streams);
    hide CloserOk, CloserAt;
    CloserStep(s, r, c);
  }

  lemma CloserReturnsInv(s: State, c: nat)
    requires Inv(s) && Enabled(s, CloserReturns(c))
    ensures Inv(Next(s, CloserReturns(c)))
  {
    hide StreamsOk, Bookkept, OnlyCloser;
    assert CloserOk(s, c);
    var r := Next(s, CloserReturns(c));
    assert CloserAt(r.closers[c], s.attached, s.nextId, s.streams);
    hide CloserOk, CloserAt;
    CloserStep(s, r, c);
  }

  lemma BatchInv(s: State, r: State, b: nat, ids: set<nat>)
    requires Inv(s) && r == s.(batches := s.batches[b := ids])
    requires ids <= s.attached || (b in s.batches && ids <= s.batches[b])
    ensures Inv(r)
  {
    hide CloserAt, OnlyCloser;
    forall x | x in r.streams ensures StreamOk(r, x) && (x in s.attached ==> !s.streams[x].late) {
      assert StreamOk(s, x);
    }
    hide StreamOk;
    forall k | k in r.closers ensures CloserOk(r, k) {
      assert CloserOk(s, k);
    }
    hide CloserOk;
    assert Bookkept(r);
  }

  lemma EndFromInv(s: State, b: nat, id: nat, n: Notice)
    requires Inv(s) && Enabled(s, EndFrom(b, id, n))
    ensures Inv(Enter(s, id, n))
  {
    hide StreamsOk, ClosersOk, OneMoved;
    EnterMoves(s, id, n);
    MovedInv(s, Enter(s, id, n), id);
  }

  lemma StepInv(s: State, t: Step)
    requires Inv(s) && Enabled(s, t)
    ensures Inv(Next(s, t))
  {
    hide StreamsOk, ClosersOk, OneMoved, Bookkept;
    match t
    case Subscribe =>
      SubscribeInv(s);
    case TakeBatch(b) =>
      BatchInv(s, Next(s, t), b, s.attached);
    case EndFrom(b, id, n) =>
      EndFromInv(s, b, id, n);
    case SkipFrom(b, id) =>
      BatchInv(s, Next(s, t), b, s.batches[b] - {id});
    case Leave(id) =>
      EnterMoves(s, id, NoNotice);
      MovedInv(s, Next(s, t), id);
    case Advance(id) =>
      AdvanceMoves(s, id);
      MovedInv(s, Next(s, t), id);
    case StartClose(c, n) =>
      StartCloseInv(s, c, n);
    case CloserEnters(c, id) =>
      CloserEntersInv(s, c, id);
    case CloserMovesOn(c, id) =>
      CloserMovesOnInv(s, c, id);
    case CloserReturns(c) =>
      CloserReturnsInv(s, c);
  }

  lemma {:induction false} RunInv(steps: seq<Step>)
    ensures Inv(Run(START, steps))
  {
    if steps != [] {
      RunInv(steps[..|steps| - 1]);
      var r := Run(START, steps[..|steps| - 1]);
      hide Inv;
      if Enabled(r, steps[|steps| - 1]) {
        StepInv(r, steps[|steps| - 1]);
      }
    }
  }

  // What holds in every run.

  lemma StreamFacts(s: State, id: nat)
    requires Inv(s) && id in s.streams
    ensures StreamOk(s, id)
  {
    hide StreamOk, ClosersOk;
  }

  lemma CloserFacts(s: State, c: nat)
    requires Inv(s) && c in s.closers
    ensures CloserOk(s, c)
  {
    hide CloserOk, StreamsOk;
  }

  /**
   In every interleaving, `done` of a stream is closed more than once exactly when the stream was handed out by
   a hub already closed, finished from birth, and its owner then closed it to the end. A stream that ended once
   carries the notice of the first caller to end it.
   */
  lemma EndsAtMostOnce(steps: seq<Step>, id: nat)
    requires id in Run(START, steps).streams
    ensures var l := Run(START, steps).streams[id];
      && (l.closes > 1 <==> l.late && l.once.Spent?)
      && (l.once.Spent? && !l.late ==> l.closes == 1 && l.reason == l.once.n)
  {
    hide Run, Inv;
    RunInv(steps);
    StreamFacts(Run(START, steps), id);
  }

  /** Such a stream, closed as every caller must close it. */
  lemma LateStreamEndsTwice(n: Notice)
    requires !n.NoNotice?
    ensures var s := Run(START, [StartClose(0, n), Subscribe, Leave(1), Advance(1), Advance(1), Advance(1)]);
      1 in s.streams && s.streams[1].closes == 2
  {
    var all := [StartClose(0, n), Subscribe, Leave(1), Advance(1), Advance(1), Advance(1)];
    assert all[..5] == [StartClose(0, n), Subscribe, Leave(1), Advance(1), Advance(1)];
    assert all[..5][..4] == [StartClose(0, n), Subscribe, Leave(1), Advance(1)];
    assert all[..5][..4][..3] == [StartClose(0, n), Subscribe, Leave(1)];
    assert all[..5][..4][..3][..2] == [StartClose(0, n), Subscribe];
    assert all[..5][..4][..3][..2][..1] == [StartClose(0, n)];
    assert all[..5][..4][..3][..2][..1][..0] == [];
    assert Run(START, all[..5][..4][..3][..2][..1][..0]) == START;
    var s1 := Run(START, all[..5][..4][..3][..2][..1]);
    assert s1.closed && s1.streams == map[] && s1.nextId == 0 && s1.why == n;
    var s2 := Run(START, all[..5][..4][..3][..2]);
    assert s2.streams == map[1 := Life(Idle, n, 1, true)];
    var s3 := Run(START, all[..5][..4][..3]);
    assert s3.streams[1] == Life(Busy(NoNotice, Recording), n, 1, true);
    var s4 := Run(START, all[..5][..4]);
    assert s4.streams[1] == Life(Busy(NoNotice, Detaching), n, 1, true);
    var s5 := Run(START, all[..5]);
    assert s5.streams[1] == Life(Busy(NoNotice, Closing), n, 1, true);
  }

  lemma ReturnedStays(s: State, t: Step, c: nat)
    requires Enabled(s, t) && c in s.closers && s.closers[c].returned
    ensures c in Next(s, t).closers && Next(s, t).closers[c].returned
  {
  }

  lemma {:induction false} ReturnedForGood(steps: seq<Step>, more: seq<Step>, c: nat)
    requires c in Run(START, steps).closers && Run(START, steps).closers[c].returned
    ensures c in Run(START, steps + more).closers && Run(START, steps + more).closers[c].returned
  {
    if more == [] {
      assert steps + more == steps;
    } else {
      var front, t := more[..|more| - 1], more[|more| - 1];
      assert (steps + more)[..|steps + more| - 1] == steps + front && (steps + more)[|steps + more| - 1] == t;
      ReturnedForGood(steps, front, c);
      var s := Run(START, steps + front);
      hide Enabled, Next;
      if Enabled(s, t) {
        ReturnedStays(s, t, c);
      }
    }
  }

  /**
   Once a call of Hub.Close has returned, then and after anything more: nothing is attached; every stream there
   ever was has ended, or has been taken out by another caller that is about to close its `done`; those this call was
   the first to end carry its notice; and, when it is the only such call, so does every stream opened since.
   */
  lemma ClosedForGood(steps: seq<Step>, more: seq<Step>, c: nat, id: nat)
    requires c in Run(START, steps).closers && Run(START, steps).closers[c].returned
    ensures var s := Run(START, steps + more);
      && c in s.closers && s.attached == {}
      && (id in s.streams ==> s.streams[id].closes >= 1 || (s.streams[id].once.Busy? && s.streams[id].once.stage == Closing))
      && (id in s.closers[c].ended ==> id in s.streams && s.streams[id].reason == s.closers[c].n)
      && (id in s.streams && s.closers.Keys == {c} && id > s.closers[c].mark ==> s.streams[id].reason == s.closers[c].n)
  {
    hide Run, Inv;
    ReturnedForGood(steps, more, c);
    RunInv(steps + more);
    var s := Run(START, steps + more);
    CloserFacts(s, c);
    assert s.attached == {};
    if id in s.streams {
      StreamFacts(s, id);
    }
  }
}
