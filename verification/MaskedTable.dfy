/** The masked table as the generated SQL changes it: triggers, the fill's loop, and a rekey from start to swap. */
module MaskedTable {
  import opened Wrappers
  import opened MaskSpec
  import opened OnlineMask

  function ApplyAll(base: Rows, stmts: seq<Statement>): Rows {
    if stmts == [] then base
    else
      var b := ApplyAll(base, stmts[..|stmts| - 1]);
      if Allowed(b, stmts[|stmts| - 1]) then Apply(b, stmts[|stmts| - 1]) else b
  }

  /** What the writers leave of the table after the first `n` gaps. */
  function ApplyGaps(base: Rows, gaps: seq<seq<Statement>>, n: nat): Rows
    requires n <= |gaps|
  {
    if n == 0 then base else ApplyAll(ApplyGaps(base, gaps, n - 1), gaps[n - 1])
  }

  class MaskedTable {
    const crypto: Crypto
    var base: Rows
    var live: Keeper
    var next: Option<Keeper>
    var open: bool

    constructor (crypto: Crypto, base: Rows, terms: Terms)
      ensures this.crypto == crypto && State() == Built(base, terms) && Inv(crypto, State())
    {
      this.crypto, this.base, live, next, open := crypto, base, Keeper(terms, map[], EMPTY), None, false;
      new;
      EmptyOk(crypto, base, terms);
    }

    function State(): Table
      reads this
    {
      Table(base, live, next, open)
    }

    /** A writer's statement with its triggers; one that breaks the key fails and changes nothing. */
    method Execute(s: Statement) returns (ok: bool)
      requires Inv(crypto, State())
      modifies `base, `live, `next
      ensures ok <==> Allowed(old(base), s)
      ensures State() == if ok then Next(crypto, old(State()), Write(s)) else old(State())
      ensures Inv(crypto, State())
    {
      StepWriteInv(crypto, State(), s);
      hide Inv;
      ok := Allowed(base, s);
      if ok {
        base := Apply(base, s);
        live := live.(rows := Trigger(crypto, live.terms, live.rows, s));
        if next.Some? {
          next := Some(next.value.(rows := Trigger(crypto, next.value.terms, next.value.rows, s)));
        }
      }
    }

    method ExecuteAll(stmts: seq<Statement>)
      requires Inv(crypto, State())
      modifies `base, `live, `next
      ensures base == ApplyAll(old(base), stmts) && Inv(crypto, State())
      ensures SameFill(old(State()), State())
    {
      for i := 0 to |stmts|
        invariant base == ApplyAll(old(base), stmts[..i]) && Inv(crypto, State()) && SameFill(old(State()), State())
      {
        hide Inv, Apply, Trigger;
        assert stmts[..i + 1][..i] == stmts[..i];
        var _ := Execute(stmts[i]);
      }
      assert stmts[..|stmts|] == stmts;
    }

    method PickEnd(last: Option<int>) returns (end: Option<int>)
      ensures end.None? ==> Ahead(base, last) == {}
      ensures end.Some? ==> BatchEnd(Ahead(base, last), BATCH, end.value)
    {
      var keys := Ahead(base, last);
      if keys == {} { return None; }
      ghost var witness_ := BatchEndExists(keys, BATCH);
      hide BatchEnd;
      var b :| b in keys && BatchEnd(keys, BATCH, b);
      end := Some(b);
    }

    ghost function Target(second: bool): Keeper
      reads this
      requires second ==> next.Some?
    {
      if second then next.value else live
    }

    /** One turn of the fill's loop up to the write: the end of the batch, or none and the fill is over. */
    method PickStep(second: bool) returns (end: Option<int>)
      requires Inv(crypto, State()) && (second ==> next.Some?) && Target(second).fill.Filling? && Target(second).fill.nxt.None?
      modifies `live, `next
      ensures Enabled(old(State()), Pick(second, end)) && State() == Next(crypto, old(State()), Pick(second, end))
      ensures Inv(crypto, State())
    {
      var k := if second then next.value else live;
      end := PickEnd(k.fill.last);
      StepInv(crypto, State(), Pick(second, end));
      hide Inv, BatchEnd;
      if second { next := Some(Picked(k, end)); } else { live := Picked(k, end); }
    }

    method WriteStep(second: bool)
      requires Inv(crypto, State()) && Enabled(State(), Batch(second))
      modifies `live, `next
      ensures State() == Next(crypto, old(State()), Batch(second)) && Inv(crypto, State())
    {
      StepInv(crypto, State(), Batch(second));
      hide Inv;
      if second { next := Some(Batched(crypto, base, next.value)); } else { live := Batched(crypto, base, live); }
    }

    ghost predicate Between(second: bool)
      reads this
    {
      (second ==> next.Some?) && Target(second).fill.Filling? && Target(second).fill.nxt.None?
    }

    /** One turn of the loop; what writers do in `gap` comes between the pick and the write. */
    method FillTurn(second: bool, gap: seq<Statement>) returns (over: bool)
      requires Inv(crypto, State()) && Between(second)
      modifies `base, `live, `next
      ensures base == if over then old(base) else ApplyAll(old(base), gap)
      ensures Inv(crypto, State()) && SameButFill(old(State()), State(), second) && (second ==> next.Some?)
      ensures if over then Target(second).fill.Full? else Between(second)
      ensures !over && gap == [] ==> |Ahead(base, Target(second).fill.last)| < |Ahead(old(base), old(Target(second).fill.last))|
    {
      hide Inv, Trigger, Apply, Fold;
      ghost var ahead := Ahead(base, Target(second).fill.last);
      var end := PickStep(second);
      if end.None? { return true; }
      ExecuteAll(gap);
      WriteStep(second);
      if gap == [] {
        assert Ahead(base, Target(second).fill.last) <= ahead - {end.value};
        Smaller(Ahead(base, Target(second).fill.last), ahead, end.value);
      }
      over := false;
    }

    /**
     Fills a shadow from the start, a batch at a time, the writers' statements of one gap running between
     the pick of a batch and its write. It ends once the gaps run out, with the shadow full.
     */
    method FillShadow(second: bool, gaps: seq<seq<Statement>>) returns (done: nat)
      requires Inv(crypto, State()) && (second ==> next.Some?) && Target(second).fill == EMPTY
      modifies `base, `live, `next
      ensures done <= |gaps| && base == ApplyGaps(old(base), gaps, done)
      ensures Inv(crypto, State()) && SameButFill(old(State()), State(), second)
      ensures (second ==> next.Some?) && Target(second).fill.Full?
    {
      done := 0;
      hide Inv, ApplyAll, Ahead;
      while true
        invariant done <= |gaps| && base == ApplyGaps(old(base), gaps, done) && Inv(crypto, State())
        invariant SameButFill(old(State()), State(), second) && Between(second)
        decreases |gaps| - done, |Ahead(base, Target(second).fill.last)|
      {
        if done == |gaps| {
          assert ApplyAll(base, []) == base by { ApplyNone(base); }
          var over := FillTurn(second, []);
          if over { return; }
        } else {
          var over := FillTurn(second, gaps[done]);
          if over { return; }
          done := done + 1;
        }
      }
    }

    /**
     Moves the masks to another key while the table is written to. Readers are shown the masks of the whole
     table all along: under the old key until the swap, under the new one from it on.
     */
    method Rekey(to: string, gaps: seq<seq<Statement>>) returns (done: nat)
      requires Inv(crypto, State()) && open
      modifies `base, `live, `next
      ensures done <= |gaps| && base == ApplyGaps(old(base), gaps, done)
      ensures Inv(crypto, State()) && open && live.terms == old(live.terms).(key := to) && next.None?
      ensures View(live.terms, base, live.rows) == MaskAll(crypto, live.terms, base)
    {
      var terms := live.terms.(key := to);
      StepInv(crypto, State(), Start(terms));
      next := Some(Keeper(terms, map[], EMPTY));
      ghost var from := live.terms;
      hide View, MaskAll, ApplyGaps, KeeperOk;
      done := FillShadow(true, gaps);
      ShownWhole(crypto, State());
      assert live.terms == from && View(from, base, live.rows) == MaskAll(crypto, from, base);
      live, next := next.value, None;
      ShownWhole(crypto, State());
    }

    /** Makes the masks again on other rules or another key: the view is taken away first and given back once whole. */
    method Remake(terms: Terms, gaps: seq<seq<Statement>>) returns (done: nat)
      requires Inv(crypto, State())
      modifies this
      ensures done <= |gaps| && base == ApplyGaps(old(base), gaps, done)
      ensures Inv(crypto, State()) && open && live.terms == terms && next.None?
      ensures View(terms, base, live.rows) == MaskAll(crypto, terms, base)
    {
      StepInv(crypto, State(), Remask(terms));
      open, next, live := false, None, Keeper(terms, map[], EMPTY);
      hide View, MaskAll, ApplyGaps, KeeperOk;
      done := FillShadow(false, gaps);
      open := true;
      ShownWhole(crypto, State());
    }
  }

  lemma StepWriteInv(p: Crypto, t: Table, s: Statement)
    requires Inv(p, t)
    ensures Enabled(t, Write(s)) ==> Inv(p, Next(p, t, Write(s)))
  {
    hide Inv, Next;
    if Enabled(t, Write(s)) { StepInv(p, t, Write(s)); }
  }

  /** Statements leave the fills, the terms and the view's being open alone. */
  predicate SameFill(t: Table, r: Table) {
    && r.live.fill == t.live.fill && r.live.terms == t.live.terms && r.open == t.open
    && r.next.Some? == t.next.Some?
    && (t.next.Some? ==> r.next.value.fill == t.next.value.fill && r.next.value.terms == t.next.value.terms)
  }

  /** As `SameFill`, but for the fill of one shadow. */
  predicate SameButFill(t: Table, r: Table, second: bool) {
    && r.live.terms == t.live.terms && r.open == t.open && r.next.Some? == t.next.Some?
    && (t.next.Some? ==> r.next.value.terms == t.next.value.terms)
    && (second ==> r.live.fill == t.live.fill)
  }

  lemma ApplyNone(base: Rows)
    ensures ApplyAll(base, []) == base
  {
  }

  lemma Smaller(a: set<int>, b: set<int>, x: int)
    requires a <= b - {x} && x in b
    ensures |a| < |b|
  {
    Within(a, b - {x});
  }

  lemma {:induction false} Within(a: set<int>, b: set<int>)
    requires a <= b
    ensures |a| <= |b|
  {
    if a != {} {
      var x := AnyOf(a);
      Within(a - {x}, b - {x});
    }
  }

  lemma ShownWhole(p: Crypto, t: Table)
    requires Inv(p, t) && t.open
    ensures View(t.live.terms, t.base, t.live.rows) == MaskAll(p, t.live.terms, t.base)
  {
    KeeperSound(p, t.base, t.live, 0);
  }
}
