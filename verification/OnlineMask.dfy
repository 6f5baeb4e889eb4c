/**
 A masked table while it is written to: a shadow filled in batches between writers' statements and kept by triggers
 meanwhile, a second one built under a new key and swapped in, and masks made again on new rules. A statement with
 its trigger is one step; picking a batch's end and writing the batch are two, since each reads the table as it is then.
 */
module OnlineMask {
  import opened Wrappers
  import opened MaskSpec

  /** A shadow, the terms its triggers write on, and how far its fill has come. */
  datatype Keeper = Keeper(terms: Terms, rows: Rows, fill: Fill)

  /** `next` is the shadow a rotation fills; the view, once open, reads the live one. */
  datatype Table = Table(base: Rows, live: Keeper, next: Option<Keeper>, open: bool)

  datatype Step =
    | Write(s: Statement)
    | Pick(second: bool, end: Option<int>)
    | Batch(second: bool)
    | OpenView
    | Start(terms: Terms)
    | Swap
    | Remask(terms: Terms)

  const EMPTY := Filling(None, None)

  /** A table whose masks have just been built: triggers in place, nothing filled, no view. */
  function Built(base: Rows, terms: Terms): Table {
    Table(base, Keeper(terms, map[], EMPTY), None, false)
  }

  predicate CanPick(base: Rows, k: Keeper, end: Option<int>) {
    && k.fill.Filling? && k.fill.nxt.None?
    && match end
       case None => Ahead(base, k.fill.last) == {}
       case Some(b) => BatchEnd(Ahead(base, k.fill.last), BATCH, b)
  }

  /** The loop's exit when no key is ahead, else the end of the next batch. */
  function Picked(k: Keeper, end: Option<int>): Keeper
    requires k.fill.Filling?
  {
    k.(fill := if end.None? then Full else k.fill.(nxt := end))
  }

  predicate CanBatch(k: Keeper) {
    k.fill.Filling? && k.fill.nxt.Some?
  }

  function Batched(p: Crypto, base: Rows, k: Keeper): Keeper
    requires CanBatch(k)
  {
    Keeper(k.terms, Fold(p, k.terms, base, k.rows, k.fill.last, k.fill.nxt.value), Filling(k.fill.nxt, None))
  }

  function Triggered(p: Crypto, k: Keeper, s: Statement): Keeper {
    k.(rows := Trigger(p, k.terms, k.rows, s))
  }

  predicate Enabled(t: Table, step: Step) {
    match step
    case Write(s) => Allowed(t.base, s)
    case Pick(second, end) =>
      if second then t.next.Some? && CanPick(t.base, t.next.value, end) else CanPick(t.base, t.live, end)
    case Batch(second) => if second then t.next.Some? && CanBatch(t.next.value) else CanBatch(t.live)
    case OpenView => t.live.fill.Full?
    case Start(terms) => t.open && terms.own == t.live.terms.own
    case Swap => t.open && t.next.Some? && t.next.value.fill.Full?
    case Remask(_) => true
  }

  function Next(p: Crypto, t: Table, step: Step): Table
    requires Enabled(t, step)
  {
    match step
    case Write(s) =>
      t.(base := Apply(t.base, s), live := Triggered(p, t.live, s),
         next := if t.next.Some? then Some(Triggered(p, t.next.value, s)) else None)
    case Pick(second, end) =>
      if second then t.(next := Some(Picked(t.next.value, end))) else t.(live := Picked(t.live, end))
    case Batch(second) =>
      if second then t.(next := Some(Batched(p, t.base, t.next.value))) else t.(live := Batched(p, t.base, t.live))
    case OpenView => t.(open := true)
    case Start(terms) => t.(next := Some(Keeper(terms, map[], EMPTY)))
    case Swap => t.(live := t.next.value, next := None)
    case Remask(terms) => Built(t.base, terms)
  }

  /** A run, each of whose steps can be taken where it stands. */
  ghost predicate Legal(p: Crypto, t: Table, steps: seq<Step>)
    decreases |steps|, 0
  {
    steps == [] ||
    (Legal(p, t, steps[..|steps| - 1]) && Enabled(Run(p, t, steps[..|steps| - 1]), steps[|steps| - 1]))
  }

  ghost function Run(p: Crypto, t: Table, steps: seq<Step>): Table
    requires Legal(p, t, steps)
    decreases |steps|, 1
  {
    if steps == [] then t else Next(p, Run(p, t, steps[..|steps| - 1]), steps[|steps| - 1])
  }

  // The writes and keys of a run, read off its steps alone.

  function BaseAfter(base: Rows, steps: seq<Step>): Rows {
    if steps == [] then base
    else
      var b := BaseAfter(base, steps[..|steps| - 1]);
      if steps[|steps| - 1].Write? then Apply(b, steps[|steps| - 1].s) else b
  }

  /** The terms of the rotation last started, or of the masks last made. */
  function Building(terms: Terms, steps: seq<Step>): Terms {
    if steps == [] then terms
    else match steps[|steps| - 1]
      case Start(s) => s
      case Remask(s) => s
      case _ => Building(terms, steps[..|steps| - 1])
  }

  /** The terms in force: those of the rotation last swapped in, or of the masks made since. */
  function InForce(terms: Terms, steps: seq<Step>): Terms {
    if steps == [] then terms
    else if steps[|steps| - 1].Remask? then steps[|steps| - 1].terms
    else if steps[|steps| - 1].Swap? then Building(terms, steps[..|steps| - 1])
    else InForce(terms, steps[..|steps| - 1])
  }

  // What every step keeps.

  predicate Reached(base: Rows, k: Keeper) {
    match k.fill
    case Full => base.Keys <= k.rows.Keys
    case Filling(last, _) => forall x :: x in base && last.Some? && x <= last.value ==> x in k.rows
  }

  predicate KeeperOk(p: Crypto, base: Rows, k: Keeper) {
    Sound(p, k.terms, base, k.rows) && Reached(base, k)
  }

  predicate Inv(p: Crypto, t: Table) {
    && KeeperOk(p, t.base, t.live) && (t.next.Some? ==> KeeperOk(p, t.base, t.next.value))
    && (t.open ==> t.live.fill.Full?)
  }

  lemma TriggeredOk(p: Crypto, base: Rows, k: Keeper, s: Statement)
    requires KeeperOk(p, base, k) && Allowed(base, s)
    ensures KeeperOk(p, Apply(base, s), Triggered(p, k, s))
  {
    TriggerSound(p, k.terms, base, k.rows, s);
    hide Sound, Apply, Trigger;
    forall x | x in Apply(base, s) && x !in Trigger(p, k.terms, k.rows, s) ensures x in base && x !in k.rows {
      TriggerKeeps(p, k.terms, base, k.rows, s, x);
    }
  }

  lemma PickedOk(p: Crypto, base: Rows, k: Keeper, end: Option<int>)
    requires KeeperOk(p, base, k) && CanPick(base, k, end)
    ensures KeeperOk(p, base, Picked(k, end))
  {
    hide Sound, BatchEnd;
    if end.None? {
      forall x | x in base ensures x in k.rows {
        assert x !in Ahead(base, k.fill.last);
      }
    }
  }

  lemma BatchedOk(p: Crypto, base: Rows, k: Keeper)
    requires KeeperOk(p, base, k) && CanBatch(k)
    ensures KeeperOk(p, base, Batched(p, base, k))
  {
    hide KeptRow;
  }

  lemma StepInv(p: Crypto, t: Table, step: Step)
    requires Inv(p, t) && Enabled(t, step)
    ensures Inv(p, Next(p, t, step))
  {
    hide KeeperOk, Picked, Batched, CanPick, Allowed;
    match step
    case Write(s) =>
      TriggeredOk(p, t.base, t.live, s);
      if t.next.Some? { TriggeredOk(p, t.base, t.next.value, s); }
    case Pick(second, end) =>
      var k := if second then t.next.value else t.live;
      PickedOk(p, t.base, k, end);
      LivePickKeepsOpen(t.base, k, end);
    case Batch(second) =>
      BatchedOk(p, t.base, if second then t.next.value else t.live);
    case OpenView =>
    case Start(terms) =>
      EmptyOk(p, t.base, terms);
    case Swap =>
    case Remask(terms) =>
      EmptyOk(p, t.base, terms);
  }

  lemma LivePickKeepsOpen(base: Rows, k: Keeper, end: Option<int>)
    requires CanPick(base, k, end)
    ensures !k.fill.Full?
  {
  }

  lemma EmptyOk(p: Crypto, base: Rows, terms: Terms)
    ensures KeeperOk(p, base, Keeper(terms, map[], EMPTY))
  {
  }

  /** The step's effect on what a run's steps determine. */
  lemma StepTracks(p: Crypto, t: Table, step: Step)
    requires Enabled(t, step)
    ensures var r := Next(p, t, step);
      && r.base == (if step.Write? then Apply(t.base, step.s) else t.base)
      && r.live.terms == (if step.Swap? then t.next.value.terms else if step.Remask? then step.terms else t.live.terms)
      && (r.next.Some? && step.Start? ==> r.next.value.terms == step.terms)
      && (r.next.Some? && !step.Start? ==> t.next.Some? && r.next.value.terms == t.next.value.terms)
  {
    hide Trigger, Fold, Apply, Allowed, CanPick;
  }

  ghost predicate Tracks(p: Crypto, base: Rows, terms: Terms, steps: seq<Step>)
    requires Legal(p, Built(base, terms), steps)
  {
    var t := Run(p, Built(base, terms), steps);
    && Inv(p, t) && t.base == BaseAfter(base, steps) && t.live.terms == InForce(terms, steps)
    && (t.next.Some? ==> t.next.value.terms == Building(terms, steps))
  }

  lemma {:induction false} RunTracks(p: Crypto, base: Rows, terms: Terms, steps: seq<Step>)
    requires Legal(p, Built(base, terms), steps)
    ensures Tracks(p, base, terms, steps)
  {
    if steps == [] {
      EmptyOk(p, base, terms);
    } else {
      var front, step := steps[..|steps| - 1], steps[|steps| - 1];
      RunTracks(p, base, terms, front);
      var t := Run(p, Built(base, terms), front);
      hide Inv, Next, Enabled;
      StepInv(p, t, step);
      StepTracks(p, t, step);
      TracksStep(p, base, terms, steps);
    }
  }

  lemma TracksStep(p: Crypto, base: Rows, terms: Terms, steps: seq<Step>)
    requires steps != [] && Legal(p, Built(base, terms), steps)
    requires Legal(p, Built(base, terms), steps[..|steps| - 1]) && Tracks(p, base, terms, steps[..|steps| - 1])
    requires Inv(p, Run(p, Built(base, terms), steps))
    ensures Tracks(p, base, terms, steps)
  {
    var front, step := steps[..|steps| - 1], steps[|steps| - 1];
    var t := Run(p, Built(base, terms), front);
    var r := Run(p, Built(base, terms), steps);
    hide Inv;
    assert Enabled(t, step) && r == Next(p, t, step);
    StepTracks(p, t, step);
    hide Next, Run, Legal;
    assert step.Swap? ==> t.next.Some?;
  }

  // What holds in every run.

  lemma FullIsWhole(p: Crypto, base: Rows, k: Keeper)
    requires KeeperOk(p, base, k) && k.fill.Full?
    ensures k.rows == KeepAll(p, k.terms, base)
  {
    hide KeptRow;
    var whole := KeepAll(p, k.terms, base);
    assert forall x :: x in base ==> x in k.rows.Keys;
    assert forall x :: x in k.rows <==> x in whole;
    assert forall x :: x in k.rows ==> k.rows[x] == whole[x];
    assert k.rows == whole;
  }

  /**
   The fill beside the triggers, for the first shadow and a rotation's second one alike: at every point of every
   run each shadow row is the mask of its base row as it is now, every base key at or below `last` is in the
   shadow, and once the loop has exited the shadow holds the mask of the whole table, and goes on doing so.
   */
  lemma FillBesideTriggers(p: Crypto, base: Rows, terms: Terms, steps: seq<Step>, x: int)
    requires Legal(p, Built(base, terms), steps)
    ensures var t := Run(p, Built(base, terms), steps);
      && FillSound(p, t.base, t.live, x)
      && (t.next.Some? ==> FillSound(p, t.base, t.next.value, x))
  {
    RunTracks(p, base, terms, steps);
    var t := Run(p, Built(base, terms), steps);
    hide Run, Legal, BaseAfter, Building, InForce;
    KeeperSound(p, t.base, t.live, x);
    if t.next.Some? { KeeperSound(p, t.base, t.next.value, x); }
  }

  predicate FillSound(p: Crypto, base: Rows, k: Keeper, x: int) {
    && (x in k.rows ==> x in base && k.rows[x] == KeptRow(p, k.terms, base[x]))
    && (k.fill.Filling? && k.fill.last.Some? && x <= k.fill.last.value && x in base ==> x in k.rows)
    && (k.fill.Full? ==> View(k.terms, base, k.rows) == MaskAll(p, k.terms, base))
  }

  lemma KeeperSound(p: Crypto, base: Rows, k: Keeper, x: int)
    requires KeeperOk(p, base, k)
    ensures FillSound(p, base, k, x)
  {
    if k.fill.Full? {
      FullIsWhole(p, base, k);
      FullViewMasks(p, k.terms, base);
    }
    hide KeptRow, View, MaskAll;
  }

  /**
   An online rekey: in every run, once the view is open it shows exactly one masked row for each row the
   writers' statements have left in the table, every one of them on the terms in force: the rules, and the key last
   swapped in. Masks being made again are not shown until they are whole.
   */
  lemma ViewNeverMixes(p: Crypto, base: Rows, terms: Terms, steps: seq<Step>)
    requires Legal(p, Built(base, terms), steps)
    ensures var t := Run(p, Built(base, terms), steps);
      t.open ==>
        && View(t.live.terms, t.base, t.live.rows) == MaskAll(p, InForce(terms, steps), BaseAfter(base, steps))
        && View(t.live.terms, t.base, t.live.rows).Keys == BaseAfter(base, steps).Keys
  {
    RunTracks(p, base, terms, steps);
    var t := Run(p, Built(base, terms), steps);
    hide Run, Legal, BaseAfter, Building, InForce;
    if t.open {
      KeeperSound(p, t.base, t.live, 0);
      hide KeptRow, View, MaskRow, Sound;
    }
  }

  /**
   What the open view shows, in every run: a row for each row the writers have left, with its columns, and of each value
   what the rule in force for its column says: its hash under the key in force, the fake made of that hash, its
   last four characters, nothing; or, with no rule, the value itself.
   */
  lemma ViewShows(p: Crypto, base: Rows, terms: Terms, steps: seq<Step>, k: int, c: string)
    requires Legal(p, Built(base, terms), steps) && Run(p, Built(base, terms), steps).open
    ensures var t := Run(p, Built(base, terms), steps);
      var view, now := View(t.live.terms, t.base, t.live.rows), BaseAfter(base, steps);
      && view.Keys == now.Keys
      && (k in now ==> view[k].Keys == now[k].Keys
                       && (c in now[k] ==> ShownAs(p, InForce(terms, steps), c, now[k][c], view[k][c])))
  {
    ViewNeverMixes(p, base, terms, steps);
    MaskShows(p, InForce(terms, steps), BaseAfter(base, steps), k, c);
    hide Run, Legal, View, MaskAll, BaseAfter, InForce, ShownAs;
  }

  /**
   What a shadow holds, in every run: of a row, exactly the columns ruled hash or fake, whose mask needs the key; what the
   view can work out by itself is not kept.
   */
  lemma ShadowHoldsOnly(p: Crypto, base: Rows, terms: Terms, steps: seq<Step>, k: int, c: string)
    requires Legal(p, Built(base, terms), steps) && k in Run(p, Built(base, terms), steps).live.rows
    ensures var t := Run(p, Built(base, terms), steps);
      var own := InForce(terms, steps).own;
      k in t.base && (c in t.live.rows[k] <==> c in t.base[k] && c in own && (own[c] == Hash || own[c].Fake?))
  {
    RunTracks(p, base, terms, steps);
    hide Run, Legal, BaseAfter, Building, InForce;
  }

  /** A batch is at most ten thousand rows, and fewer only if it is the last; it writes no row outside its bounds. */
  lemma BatchIsBounded(p: Crypto, base: Rows, k: Keeper, b: int, now: Rows)
    requires CanPick(base, k, Some(b))
    ensures var rows := set x | x in base && (k.fill.last.None? || x > k.fill.last.value) && x <= b;
      |rows| <= 10000 && (|rows| < 10000 ==> rows == Ahead(base, k.fill.last))
    ensures var r := Batched(p, now, Picked(k, Some(b)));
      && r.fill == Filling(Some(b), None) && k.rows.Keys <= r.rows.Keys
      && (forall x :: x in k.rows ==> r.rows[x] == k.rows[x])
      && forall x :: x in r.rows && x !in k.rows ==> x in now && x <= b && (k.fill.last.None? || x > k.fill.last.value)
  {
    hide KeptRow;
    var rows := set x | x in base && (k.fill.last.None? || x > k.fill.last.value) && x <= b;
    assert rows == UpTo(Ahead(base, k.fill.last), b);
  }
}
