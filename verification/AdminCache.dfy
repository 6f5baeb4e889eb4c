/**
 The remembered admin answers. Times are milliseconds. Grants and revokes are recorded in the security log, whose
 last such entry's number is the epoch; an answer is good for thirty seconds unless the epoch is seen to change.

 The lock is held for two short parts of a call, looking and storing; everything else of one call, and other calls,
 may come in between.
 */
module AdminCache {
  import opened Wrappers

  const TTL: nat := 30000
  const EPOCH_EVERY: nat := 1000

  /**
   `at` is when it was stored. Remembered for the statements below: `asOf`, when the question was put; `seen`, how
   much of the log the program had read when it was stored; `clean`, whether nothing was forgotten between look and store.
   */
  datatype Entry = Entry(admin: bool, at: nat, asOf: nat, clean: bool, seen: nat)

  datatype Phase = Looked(found: Option<Entry>) | Missed | Asked(admin: bool, asOf: nat)

  /** A call in progress: when it looked, and how often the answers had been forgotten by then. */
  datatype Call = Call(email: string, asked: nat, forgets: nat, phase: Phase)

  datatype Answer = Answer(email: string, asked: nat, given: nat, entry: Entry, remembered: bool)

  datatype State = State(
    now: nat, records: seq<nat>, epoch: nat, epochAt: Option<nat>, admins: map<string, Entry>, forgets: nat,
    calls: map<nat, Call>, answers: seq<Answer>)

  datatype Step =
    | Tick(ms: nat)
    | Grant
    | Look(thread: nat, email: string, readable: bool)
    | Decide(thread: nat)
    | Ask(thread: nat, admin: bool)
    | Store(thread: nat)

  const START := State(0, [], 0, None, map[], 0, map[], [])

  // The program's parts.

  predicate Due(epochAt: Option<nat>, now: nat) {
    epochAt.None? || now >= epochAt.value + EPOCH_EVERY
  }

  /** Empties the answers when the log has grown since it was last asked; a log that cannot be read changes nothing. */
  function Forget(s: State, readable: bool): State {
    if !Due(s.epochAt, s.now) then s
    else if !readable || |s.records| == s.epoch then s.(epochAt := Some(s.now))
    else s.(epochAt := Some(s.now), epoch := |s.records|, admins := map[], forgets := s.forgets + 1)
  }

  predicate Enabled(s: State, t: Step) {
    match t
    case Tick(_) => true
    case Grant => true
    case Look(thread, email, _) => thread !in s.calls && email != ""
    case Decide(thread) => thread in s.calls && s.calls[thread].phase.Looked?
    case Ask(thread, _) => thread in s.calls && s.calls[thread].phase.Missed?
    case Store(thread) => thread in s.calls && s.calls[thread].phase.Asked?
  }

  predicate Usable(found: Option<Entry>, now: nat) {
    found.Some? && now < found.value.at + TTL
  }

  function Next(s: State, t: Step): State
    requires Enabled(s, t)
  {
    match t
    case Tick(ms) => s.(now := s.now + ms)
    case Grant => s.(records := s.records + [s.now])
    case Look(thread, email, readable) =>
      var r := Forget(s, readable);
      var found := if email in r.admins then Some(r.admins[email]) else None;
      r.(calls := r.calls[thread := Call(email, r.now, r.forgets, Looked(found))])
    case Decide(thread) =>
      var c := s.calls[thread];
      if Usable(c.phase.found, s.now)
      then s.(calls := s.calls - {thread}, answers := s.answers + [Answer(c.email, c.asked, s.now, c.phase.found.value, true)])
      else s.(calls := s.calls[thread := c.(phase := Missed)])
    case Ask(thread, admin) => s.(calls := s.calls[thread := s.calls[thread].(phase := Asked(admin, s.now))])
    case Store(thread) =>
      var c := s.calls[thread];
      var e := Entry(c.phase.admin, s.now, c.phase.asOf, c.forgets == s.forgets, s.epoch);
      s.(calls := s.calls - {thread}, admins := s.admins[c.email := e],
         answers := s.answers + [Answer(c.email, c.asked, s.now, e, false)])
  }

  function Run(s: State, steps: seq<Step>): State {
    if steps == [] then s
    else
      var r := Run(s, steps[..|steps| - 1]);
      if Enabled(r, steps[|steps| - 1]) then Next(r, steps[|steps| - 1]) else r
  }

  predicate Readable(steps: seq<Step>) {
    forall i :: 0 <= i < |steps| && steps[i].Look? ==> steps[i].readable
  }

  // What every step keeps.

  predicate Timely(s: State) {
    && (forall i :: 0 <= i < |s.records| ==> s.records[i] <= s.now)
    && s.epoch <= |s.records|
    && (s.epochAt.None? ==> s.epoch == 0 && s.admins == map[] && s.calls == map[])
    && (s.epochAt.Some? ==>
          && s.epochAt.value <= s.now
          && (forall i :: s.epoch <= i < |s.records| ==> s.records[i] >= s.epochAt.value))
  }

  /** Everything the last reading of the log saw had been recorded by `time`. */
  predicate SeenBy(s: State, time: nat) {
    forall i :: 0 <= i < s.epoch && i < |s.records| ==> s.records[i] <= time
  }

  /** What is known of an entry whatever happens after it is stored. */
  predicate Fixed(records: seq<nat>, e: Entry) {
    e.seen <= |records| && (e.clean ==> forall i :: 0 <= i < e.seen ==> records[i] <= e.asOf)
  }

  /** An entry that is there was stored with the log read as far as it has been now. */
  predicate EntryOk(s: State, e: Entry) {
    e.at <= s.now && e.seen == s.epoch && Fixed(s.records, e)
  }

  /** Whatever was recorded a second or more before the call looked is in the answer. */
  predicate FreshFor(records: seq<nat>, asked: nat, e: Entry) {
    forall i :: 0 <= i < |records| && records[i] + 1000 <= asked ==> records[i] <= e.asOf
  }

  /** What had not been read when the entry was stored was less than a second old when the call looked. */
  predicate Unripe(records: seq<nat>, asked: nat, e: Entry) {
    forall i :: e.seen <= i < |records| ==> records[i] + EPOCH_EVERY > asked
  }

  predicate FoundOk(records: seq<nat>, asked: nat, e: Entry) {
    Fixed(records, e) && Unripe(records, asked, e)
  }

  predicate CallOk(s: State, c: Call) {
    && c.asked <= s.now && c.forgets <= s.forgets
    && (c.forgets == s.forgets ==> SeenBy(s, c.asked))
    && (c.phase.Asked? ==> c.asked <= c.phase.asOf <= s.now)
    && (c.phase.Looked? && c.phase.found.Some? ==> FoundOk(s.records, c.asked, c.phase.found.value))
  }

  predicate AnswerOk(s: State, a: Answer) {
    && a.asked <= a.given <= s.now
    && if a.remembered
       then a.given < a.entry.at + TTL && FoundOk(s.records, a.asked, a.entry)
       else a.entry.asOf >= a.asked
  }

  predicate Inv(s: State) {
    && Timely(s)
    && (forall email :: email in s.admins ==> EntryOk(s, s.admins[email]))
    && (forall t :: t in s.calls ==> CallOk(s, s.calls[t]))
    && (forall i :: 0 <= i < |s.answers| ==> AnswerOk(s, s.answers[i]))
  }

  /** Time passing and grants coming in do not spoil what was known. */
  predicate Later(s: State, r: State) {
    && r.epoch == s.epoch && r.epochAt == s.epochAt && r.admins == s.admins && r.forgets == s.forgets
    && r.calls == s.calls && r.answers == s.answers && s.now <= r.now
    && |s.records| <= |r.records| && r.records[..|s.records|] == s.records
    && (forall i :: |s.records| <= i < |r.records| ==> r.records[i] == s.now == r.now)
  }

  lemma FoundLater(records: seq<nat>, more: seq<nat>, asked: nat, e: Entry)
    requires FoundOk(records, asked, e) && |records| <= |more| && more[..|records|] == records
    requires forall i :: |records| <= i < |more| ==> more[i] >= asked
    ensures FoundOk(more, asked, e)
  {
    assert forall i :: 0 <= i < |records| ==> more[i] == records[i];
  }

  lemma LaterInv(s: State, r: State)
    requires Inv(s) && Later(s, r)
    ensures Inv(r)
  {
    assert forall i :: 0 <= i < |s.records| ==> r.records[i] == s.records[i];
    forall email | email in r.admins ensures EntryOk(r, r.admins[email]) {
      assert EntryOk(s, s.admins[email]);
    }
    forall t | t in r.calls ensures CallOk(r, r.calls[t]) {
      var c := s.calls[t];
      assert CallOk(s, c);
      if c.phase.Looked? && c.phase.found.Some? {
        FoundLater(s.records, r.records, c.asked, c.phase.found.value);
      }
    }
    forall i | 0 <= i < |r.answers| ensures AnswerOk(r, r.answers[i]) {
      var a := s.answers[i];
      assert AnswerOk(s, a);
      if a.remembered {
        FoundLater(s.records, r.records, a.asked, a.entry);
      }
    }
  }

  lemma ForgetInv(s: State)
    requires Inv(s)
    ensures Inv(Forget(s, true)) && Forget(s, true).epochAt.Some? && !Due(Some(Forget(s, true).epochAt.value), s.now)
    ensures SeenBy(Forget(s, true), s.now)
  {
    var r := Forget(s, true);
    forall t | t in r.calls ensures CallOk(r, r.calls[t]) {
      assert CallOk(s, s.calls[t]);
    }
    forall i | 0 <= i < |r.answers| ensures AnswerOk(r, r.answers[i]) {
      assert AnswerOk(s, s.answers[i]);
    }
    forall email | email in r.admins ensures EntryOk(r, r.admins[email]) {
      assert EntryOk(s, s.admins[email]);
    }
  }

  lemma LookInv(s: State, thread: nat, email: string)
    requires Inv(s) && Enabled(s, Look(thread, email, true))
    ensures Inv(Next(s, Look(thread, email, true)))
  {
    var r := Forget(s, true);
    ForgetInv(s);
    var g := Next(s, Look(thread, email, true));
    hide Forget;
    assert CallOk(g, g.calls[thread]) by {
      if email in r.admins {
        assert EntryOk(r, r.admins[email]);
        FoundIsRipe(r, r.admins[email]);
      }
    }
    Carries(r, g);
  }

  /** The log was looked at less than a second ago, so what has not been read is younger than that. */
  lemma FoundIsRipe(s: State, e: Entry)
    requires Timely(s) && s.epochAt.Some? && !Due(s.epochAt, s.now) && EntryOk(s, e)
    ensures FoundOk(s.records, s.now, e)
  {
  }

  /** What does not look at the log: entries, calls and answers are carried, but for the one that changed. */
  lemma Carries(s: State, r: State)
    requires Inv(s) && Timely(r)
    requires r.now == s.now && r.records == s.records && r.epoch == s.epoch && r.forgets == s.forgets
    requires forall email :: email in r.admins ==> (email in s.admins && r.admins[email] == s.admins[email]) || EntryOk(r, r.admins[email])
    requires forall t :: t in r.calls ==> (t in s.calls && r.calls[t] == s.calls[t]) || CallOk(r, r.calls[t])
    requires |s.answers| <= |r.answers| <= |s.answers| + 1 && r.answers[..|s.answers|] == s.answers
    requires |r.answers| > |s.answers| ==> AnswerOk(r, r.answers[|s.answers|])
    ensures Inv(r)
  {
    forall email | email in r.admins ensures EntryOk(r, r.admins[email]) {
      assert email in s.admins ==> EntryOk(s, s.admins[email]);
    }
    forall t | t in r.calls ensures CallOk(r, r.calls[t]) {
      assert t in s.calls ==> CallOk(s, s.calls[t]);
    }
    forall i | 0 <= i < |r.answers| ensures AnswerOk(r, r.answers[i]) {
      if i < |s.answers| {
        assert r.answers[i] == s.answers[i] && AnswerOk(s, s.answers[i]);
      }
    }
  }

  lemma DecideInv(s: State, thread: nat)
    requires Inv(s) && Enabled(s, Decide(thread))
    ensures Inv(Next(s, Decide(thread)))
  {
    assert CallOk(s, s.calls[thread]);
    Carries(s, Next(s, Decide(thread)));
  }

  lemma AskInv(s: State, thread: nat, admin: bool)
    requires Inv(s) && Enabled(s, Ask(thread, admin))
    ensures Inv(Next(s, Ask(thread, admin)))
  {
    assert CallOk(s, s.calls[thread]);
    Carries(s, Next(s, Ask(thread, admin)));
  }

  lemma StoreInv(s: State, thread: nat)
    requires Inv(s) && Enabled(s, Store(thread))
    ensures Inv(Next(s, Store(thread)))
  {
    assert CallOk(s, s.calls[thread]);
    var r := Next(s, Store(thread));
    var c := s.calls[thread];
    assert EntryOk(r, r.admins[c.email]);
    assert AnswerOk(r, r.answers[|s.answers|]);
    Carries(s, r);
  }

  lemma StepInv(s: State, t: Step)
    requires Inv(s) && Enabled(s, t) && (t.Look? ==> t.readable)
    ensures Inv(Next(s, t))
  {
    match t
    case Tick(ms) => LaterInv(s, Next(s, t));
    case Grant => LaterInv(s, Next(s, t));
    case Look(thread, email, _) => LookInv(s, thread, email);
    case Decide(thread) => DecideInv(s, thread);
    case Ask(thread, admin) => AskInv(s, thread, admin);
    case Store(thread) => StoreInv(s, thread);
  }

  lemma {:induction false} RunInv(steps: seq<Step>)
    requires Readable(steps)
    ensures Inv(Run(START, steps))
  {
    if steps != [] {
      RunInv(steps[..|steps| - 1]);
      var r := Run(START, steps[..|steps| - 1]);
      hide Inv;
      if Enabled(r, steps[|steps| - 1]) {
        StepInv(r, steps[|steps| - 1]);
      }
    }
  }

  /** A grant recorded after the question was put had been read before the answer was stored, and is a second old. */
  predicate StoredTooLate(records: seq<nat>, asked: nat, e: Entry) {
    exists i :: 0 <= i < e.seen && i < |records| && e.asOf < records[i] && records[i] + 1000 <= asked
  }

  /**
   In every interleaving with a readable log, exactly when an answer is stale: an answer just worked out never misses a
   grant or revoke recorded a second or more before the call looked, and a remembered one misses one exactly when a
   grant recorded after its question was put had been read, and everything forgotten for it, before it was stored.
   */
  lemma StaleIffStoredTooLate(steps: seq<Step>, k: nat)
    requires Readable(steps) && k < |Run(START, steps).answers|
    ensures var s := Run(START, steps);
      var a := s.answers[k];
      !FreshFor(s.records, a.asked, a.entry) <==> a.remembered && StoredTooLate(s.records, a.asked, a.entry)
  {
    RunInv(steps);
    var s := Run(START, steps);
    hide Run;
    assert AnswerOk(s, s.answers[k]);
  }

  /**
   In every interleaving with a readable log: a remembered answer is used only within thirty seconds of being stored;
   and every answer, unless it was stored across a forgetting, was worked out after every grant or revoke recorded a
   second or more before the call looked.
   */
  lemma AnswersAreFresh(steps: seq<Step>, k: nat, i: nat)
    requires Readable(steps) && k < |Run(START, steps).answers| && i < |Run(START, steps).records|
    ensures var s := Run(START, steps);
      var a := s.answers[k];
      && (a.remembered ==> a.given < a.entry.at + 30000)
      && (!a.remembered || a.entry.clean ==> s.records[i] + EPOCH_EVERY <= a.asked ==> s.records[i] <= a.entry.asOf)
  {
    StaleIffStoredTooLate(steps, k);
    RunInv(steps);
    var s := Run(START, steps);
    hide Run;
    assert AnswerOk(s, s.answers[k]);
  }

  /** The thirty seconds hold even with a log that cannot be read. */
  lemma {:induction false} RememberedBriefly(steps: seq<Step>, k: nat)
    requires k < |Run(START, steps).answers|
    ensures var a := Run(START, steps).answers[k]; a.remembered ==> a.given < a.entry.at + 30000
  {
    if steps != [] {
      var r := Run(START, steps[..|steps| - 1]);
      if k < |r.answers| {
        RememberedBriefly(steps[..|steps| - 1], k);
      }
      hide Run;
      hide Forget;
      assert forall readable :: Forget(r, readable).answers == r.answers by { ForgetAnswers(r); }
    }
  }

  lemma ForgetAnswers(s: State)
    ensures forall readable :: Forget(s, readable).answers == s.answers
  {
  }

  // Calls one at a time.

  /** No call looks while another is in progress. */
  ghost predicate OneAtATime(steps: seq<Step>) {
    forall i :: 0 <= i < |steps| && steps[i].Look? ==> Run(START, steps[..i]).calls == map[]
  }

  predicate AllClean(s: State) {
    && (forall email :: email in s.admins ==> s.admins[email].clean)
    && (forall t :: t in s.calls ==> CleanCall(s, s.calls[t]))
    && (forall i :: 0 <= i < |s.answers| ==> s.answers[i].entry.clean)
  }

  predicate CleanCall(s: State, c: Call) {
    c.forgets == s.forgets && (c.phase.Looked? && c.phase.found.Some? ==> c.phase.found.value.clean)
  }

  lemma StepClean(s: State, t: Step)
    requires AllClean(s) && Enabled(s, t) && (t.Look? ==> s.calls == map[])
    ensures AllClean(Next(s, t))
  {
    var r := Next(s, t);
    forall x | x in r.calls ensures CleanCall(r, r.calls[x]) {
      assert x in s.calls ==> CleanCall(s, s.calls[x]);
    }
  }

  lemma {:induction false} RunClean(steps: seq<Step>)
    requires OneAtATime(steps)
    ensures AllClean(Run(START, steps))
  {
    if steps != [] {
      var front := steps[..|steps| - 1];
      forall i | 0 <= i < |front| && front[i].Look? ensures Run(START, front[..i]).calls == map[] {
        assert front[..i] == steps[..i];
      }
      RunClean(front);
      var r := Run(START, front);
      hide AllClean, Next;
      if Enabled(r, steps[|steps| - 1]) {
        StepClean(r, steps[|steps| - 1]);
      }
    }
  }

  /**
   With a readable log and calls one at a time, every answer was worked out after every grant or revoke recorded a
   second or more before the call looked.
   */
  lemma SerialAnswersAreFresh(steps: seq<Step>, k: nat, i: nat)
    requires Readable(steps) && OneAtATime(steps)
    requires k < |Run(START, steps).answers| && i < |Run(START, steps).records|
    ensures var s := Run(START, steps);
      s.records[i] + EPOCH_EVERY <= s.answers[k].asked ==> s.records[i] <= s.answers[k].entry.asOf
  {
    AnswersAreFresh(steps, k, i);
    RunClean(steps);
  }

  // What an answer says.

  /** Every question put in the run is answered with what is so of that account at that moment. */
  ghost predicate Truthful(truth: (string, nat) -> bool, steps: seq<Step>) {
    forall n :: 0 <= n < |steps| && steps[n].Ask? && Enabled(Run(START, steps[..n]), steps[n]) ==>
      var s := Run(START, steps[..n]);
      steps[n].admin == truth(s.calls[steps[n].thread].email, s.now)
  }

  predicate SaysOf(truth: (string, nat) -> bool, email: string, e: Entry) {
    e.admin == truth(email, e.asOf)
  }

  predicate CallTrue(truth: (string, nat) -> bool, c: Call) {
    match c.phase
    case Looked(found) => found.Some? ==> SaysOf(truth, c.email, found.value)
    case Missed => true
    case Asked(admin, asOf) => admin == truth(c.email, asOf)
  }

  predicate AllTrue(truth: (string, nat) -> bool, s: State) {
    && (forall email :: email in s.admins ==> SaysOf(truth, email, s.admins[email]))
    && (forall t :: t in s.calls ==> CallTrue(truth, s.calls[t]))
    && (forall k :: 0 <= k < |s.answers| ==> SaysOf(truth, s.answers[k].email, s.answers[k].entry))
  }

  lemma StepTrue(truth: (string, nat) -> bool, s: State, t: Step)
    requires AllTrue(truth, s) && Enabled(s, t) && (t.Ask? ==> t.admin == truth(s.calls[t.thread].email, s.now))
    ensures AllTrue(truth, Next(s, t))
  {
    hide SaysOf;
    if t.Store? {
      assert SaysOf(truth, s.calls[t.thread].email,
        Entry(s.calls[t.thread].phase.admin, s.now, s.calls[t.thread].phase.asOf, s.calls[t.thread].forgets == s.forgets, s.epoch)) by {
        SaysIs(truth, s.calls[t.thread], s);
      }
    }
  }

  lemma SaysIs(truth: (string, nat) -> bool, c: Call, s: State)
    requires c.phase.Asked? && CallTrue(truth, c)
    ensures SaysOf(truth, c.email, Entry(c.phase.admin, s.now, c.phase.asOf, c.forgets == s.forgets, s.epoch))
  {
  }

  /**
   In every interleaving: an answer, remembered or not, is what was so of the account it is about at the moment its
   question was put.
   */
  lemma {:induction false} AnswersAreTrue(truth: (string, nat) -> bool, steps: seq<Step>)
    requires Truthful(truth, steps)
    ensures AllTrue(truth, Run(START, steps))
  {
    hide Next, Enabled, AllTrue;
    if steps == [] {
      assert AllTrue(truth, START) by { StartTrue(truth); }
    } else {
      var front, t := steps[..|steps| - 1], steps[|steps| - 1];
      assert forall n :: 0 <= n < |front| ==> front[..n] == steps[..n];
      AnswersAreTrue(truth, front);
      var s := Run(START, front);
      if Enabled(s, t) { StepTrue(truth, s, t); }
    }
  }

  lemma StartTrue(truth: (string, nat) -> bool)
    ensures AllTrue(truth, START)
  {
  }

  // How often.

  /** The log is read again only once a second has passed since it was last read. */
  lemma LogIsReadSparingly(s: State, t: Step)
    requires Enabled(s, t) && s.epochAt.Some? && Next(s, t).epochAt != s.epochAt
    ensures t.Look? && Next(s, t).epochAt == Some(s.now) && s.now >= s.epochAt.value + 1000
  {
  }

  /** How many calls have been made. */
  function Made(steps: seq<Step>): nat {
    if steps == [] then 0
    else
      var front, t := steps[..|steps| - 1], steps[|steps| - 1];
      Made(front) + if t.Look? && Enabled(Run(START, front), t) then 1 else 0
  }

  lemma StepCounts(s: State, t: Step)
    requires Enabled(s, t)
    ensures var r := Next(s, t); |r.answers| + |r.calls| == |s.answers| + |s.calls| + if t.Look? then 1 else 0
  {
    hide Usable, Due;
    match t
    case Look(thread, email, readable) =>
      var r := Forget(s, readable);
      assert r.calls == s.calls && r.answers == s.answers;
      hide Forget;
      PutCounts(s.calls, thread, Next(s, t).calls[thread]);
    case Decide(thread) =>
      PutCounts(s.calls, thread, s.calls[thread].(phase := Missed));
      DropCounts(s.calls, thread);
    case Ask(thread, admin) => PutCounts(s.calls, thread, s.calls[thread].(phase := Asked(admin, s.now)));
    case Store(thread) => DropCounts(s.calls, thread);
    case _ =>
  }

  lemma PutCounts(m: map<nat, Call>, k: nat, c: Call)
    ensures |m[k := c]| == |m| + if k in m then 0 else 1
  {
    assert m[k := c].Keys == m.Keys + {k};
    assert k in m ==> m.Keys + {k} == m.Keys;
    SameSize(m);
    SameSize(m[k := c]);
  }

  lemma DropCounts(m: map<nat, Call>, k: nat)
    requires k in m
    ensures |m - {k}| == |m| - 1
  {
    assert (m - {k}).Keys == m.Keys - {k};
    SameSize(m);
    SameSize(m - {k});
  }

  lemma SameSize(m: map<nat, Call>)
    ensures |m| == |m.Keys|
  {
  }

  /** Every call is in progress or has been answered, once. */
  lemma {:induction false} EveryCallOnce(steps: seq<Step>)
    ensures |Run(START, steps).answers| + |Run(START, steps).calls| == Made(steps)
  {
    if steps != [] {
      var front, t := steps[..|steps| - 1], steps[|steps| - 1];
      EveryCallOnce(front);
      hide Enabled, Next;
      if Enabled(Run(START, front), t) { StepCounts(Run(START, front), t); }
    }
  }

  // Calls that overlap.

  lemma Then(steps: seq<Step>, t: Step)
    requires Enabled(Run(START, steps), t)
    ensures Run(START, steps + [t]) == Next(Run(START, steps), t)
  {
    assert (steps + [t])[..|steps|] == steps;
  }

  const EARLY := Entry(false, 2001, 0, false, 1)

  /** A call that has put its question and not yet stored the answer, a grant, and another call that sees the grant. */
  lemma AskedBeforeTheGrant() returns (steps: seq<Step>)
    ensures Readable(steps)
    ensures Run(START, steps) == State(2001, [1], 1, Some(2001), map[], 1,
      map[1 := Call("a", 0, 0, Asked(false, 0)), 2 := Call("b", 2001, 1, Looked(None))], [])
  {
    steps := [];
    assert Run(START, steps) == START;
    hide Run;
    Then(steps, Look(1, "a", true));
    steps := steps + [Look(1, "a", true)];
    assert Run(START, steps).calls == map[1 := Call("a", 0, 0, Looked(None))];
    Then(steps, Decide(1));
    steps := steps + [Decide(1)];
    assert Run(START, steps).calls == map[1 := Call("a", 0, 0, Missed)];
    Then(steps, Ask(1, false));
    steps := steps + [Ask(1, false)];
    assert Run(START, steps).calls == map[1 := Call("a", 0, 0, Asked(false, 0))];
    Then(steps, Tick(1));
    steps := steps + [Tick(1)];
    Then(steps, Grant);
    steps := steps + [Grant];
    Then(steps, Tick(2000));
    steps := steps + [Tick(2000)];
    assert Run(START, steps) == State(2001, [1], 0, Some(0), map[], 0, map[1 := Call("a", 0, 0, Asked(false, 0))], []);
    Then(steps, Look(2, "b", true));
    steps := steps + [Look(2, "b", true)];
  }

  /**
   Calls that overlap can leave a stale answer behind: the first call's answer, worked out before the grant, is stored
   after the second call forgot everything because of it, and is used for up to thirty seconds more.
   */
  lemma OverlapLeavesStaleAnswer() returns (steps: seq<Step>)
    ensures Readable(steps)
    ensures var s := Run(START, steps);
      && |s.answers| == 2 && s.answers[1].remembered && |s.records| == 1
      && s.records[0] + EPOCH_EVERY <= s.answers[1].asked && s.answers[1].entry.asOf < s.records[0]
      && StoredTooLate(s.records, s.answers[1].asked, s.answers[1].entry)
  {
    steps := AskedBeforeTheGrant();
    hide Run;
    Then(steps, Store(1));
    steps := steps + [Store(1)];
    assert Run(START, steps).admins == map["a" := EARLY];
    Then(steps, Tick(500));
    steps := steps + [Tick(500)];
    Then(steps, Look(3, "a", true));
    steps := steps + [Look(3, "a", true)];
    assert Run(START, steps).calls[3] == Call("a", 2501, 1, Looked(Some(EARLY)));
    Then(steps, Decide(3));
    steps := steps + [Decide(3)];
  }

  // The program's object.

  class Checker {
    var epoch: nat
    var epochAt: Option<nat>
    var admins: map<string, Entry>
    var forgets: nat

    constructor ()
      ensures epoch == 0 && epochAt == None && admins == map[] && forgets == 0
    {
      epoch, epochAt, admins, forgets := 0, None, map[], 0;
    }

    predicate Is(s: State)
      reads this
    {
      epoch == s.epoch && epochAt == s.epochAt && admins == s.admins && forgets == s.forgets
    }

    /** `reading` is the log's epoch, or none if it could not be read. */
    method ForgetIfChanged(now: nat, reading: Option<nat>, ghost s: State)
      requires Is(s) && now == s.now && (reading.Some? ==> reading.value == |s.records|)
      modifies this
      ensures Is(Forget(s, reading.Some?))
    {
      if epochAt.Some? && now < epochAt.value + EPOCH_EVERY { return; }
      epochAt := Some(now);
      if reading.None? { return; }
      if reading.value != epoch {
        epoch, admins, forgets := reading.value, map[], forgets + 1;
      }
    }

    /**
     One call with nothing in between: the answer and what is remembered are those of looking, deciding and, if
     nothing usable was found, asking and storing.
     */
    method Admin(email: string, now: nat, reading: Option<nat>, asked: bool, ghost s: State) returns (admin: bool)
      requires Is(s) && now == s.now && s.calls == map[] && (reading.Some? ==> reading.value == |s.records|)
      modifies this
      ensures email == "" ==> !admin && Is(s)
      ensures email != "" ==> var r := Whole(s, email, reading.Some?, asked);
        Is(r) && |r.answers| == |s.answers| + 1 && admin == r.answers[|s.answers|].entry.admin
    {
      if email == "" { return false; }
      ForgetIfChanged(now, reading, s);
      WholeIs(s, email, reading.Some?, asked);
      hide Forget, Whole;
      if email in admins && now < admins[email].at + TTL { return admins[email].admin; }
      admin := asked;
      admins := admins[email := Entry(admin, now, now, true, epoch)];
    }
  }

  /** A call's steps taken at one instant. */
  function Whole(s: State, email: string, readable: bool, asked: bool): State
    requires s.calls == map[] && email != ""
  {
    var s1 := Next(s, Look(0, email, readable));
    var s2 := Next(s1, Decide(0));
    if 0 in s2.calls then Next(Next(s2, Ask(0, asked)), Store(0)) else s2
  }

  lemma WholeIs(s: State, email: string, readable: bool, asked: bool)
    requires s.calls == map[] && email != ""
    ensures var f, r := Forget(s, readable), Whole(s, email, readable, asked);
      && r.epoch == f.epoch && r.epochAt == f.epochAt && r.forgets == f.forgets && |r.answers| == |s.answers| + 1
      && if email in f.admins && s.now < f.admins[email].at + TTL
         then r.admins == f.admins && r.answers[|s.answers|].entry == f.admins[email]
         else r.admins == f.admins[email := Entry(asked, s.now, s.now, true, f.epoch)]
              && r.answers[|s.answers|].entry.admin == asked
  {
    var f := Forget(s, readable);
    assert f.calls == map[] && f.now == s.now && f.answers == s.answers;
    hide Forget;
  }
}
