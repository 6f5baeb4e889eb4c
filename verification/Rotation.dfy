/**
 Rotating a domain's key over the branches that are running, cut short anywhere and started again.

 Every method says what it makes of the store it starts from, whatever that store is; what it keeps of a store a
 rotation can be started again from is said as an implication. A step costs one breath, and a run with none left
 is cut short there.
 */
module Rotation {
  import opened Wrappers
  import opened RotationSpec

  /** Where a run stopped: before the next key was removed, between that and the last record, or at the end. */
  datatype Stop = CutShort | CutAfterRemoval | Finished

  class Install {
    var files: map<KeyName, Secret>
    var records: map<string, Record>
    var tables: map<TableId, Masks>
    var minted: nat
    /** How many more steps this run will take before it is cut short. */
    var breath: nat

    constructor (st: Store)
      ensures View() == st
    {
      files, records, tables, minted, breath := st.files, st.records, st.tables, st.minted, 0;
    }

    function View(): Store
      reads this
    {
      Store(files, records, tables, minted)
    }

    /** Every step starts here; a run with no breath left stops instead. */
    method Goes() returns (on: bool)
      modifies `breath
      ensures on <==> old(breath) > 0
      ensures breath == if on then old(breath) - 1 else 0
    {
      on := breath > 0;
      if on { breath := breath - 1; }
    }

    /** Makes the next key: kept when a rotation carries on, a new one otherwise. */
    method MakeNextKey(d: string, resume: bool, ghost stay: set<string>) returns (on: bool)
      requires resume == Rec(View(), d).pending
      modifies `files, `minted, `breath
      ensures on <==> old(breath) >= if resume then 1 else 2
      ensures on ==> View() == NextMade(old(View()), d) && breath == old(breath) - if resume then 1 else 2
      ensures !on ==> View() == old(View()) || View() == RemoveKey(old(View()), NextOf(d))
      ensures Resumable(old(View()), d, stay) ==> Resumable(View(), d, stay)
      ensures resume && !on ==> View() == old(View())
    {
      hide Resumable;
      if !resume {
        on := Goes();
        if !on { return; }
        if Resumable(View(), d, stay) { RemoveNextKeeps(View(), d, stay); }
        files := files - {NextOf(d)};
      }
      on := Goes();
      if !on { return; }
      if Resumable(View(), d, stay) { EnsureNextKeeps(View(), d, stay); }
      if NextOf(d) !in files {
        files, minted := files[NextOf(d) := minted], minted + 1;
      }
    }

    /** Makes the next key and marks the rotation as begun, or carries on with the one there is. */
    method Begin(d: string, ghost stay: set<string>, ghost was: Secret) returns (on: bool)
      modifies `files, `minted, `records, `breath
      ensures on <==> old(breath) >= BeginCost(old(View()), d)
      ensures on ==> View() == Begun(old(View()), d) && breath == old(breath) - BeginCost(old(View()), d)
      ensures Gen(View(), d) == old(Gen(View(), d)) && OthersKept(old(View()), View(), d)
      ensures Startable(old(View()), d, stay, was) ==> Startable(View(), d, stay, was)
    {
      hide Resumable, OthersKept;
      ghost var st := View();
      var pending := d in records && records[d].pending;
      on := MakeNextKey(d, pending, stay);
      NextKept(st, View(), d);
      if Resumable(st, d, stay) && KeyIs(st, d, was) { NextKeepsKey(st, View(), d, stay, was); }
      if !on || pending { return; }
      ghost var made := View();
      on := Goes();
      if !on { return; }
      records := records[d := Record(if d in records then records[d].gen else 0, true)];
      assert View() == SetRecord(made, d, Rec(made, d).(pending := true));
      RecordKept(st, made, View(), d);
      if Resumable(st, d, stay) && KeyIs(st, d, was) { PendingKeeps(made, d, stay); }
    }

    /** Moves one table to the next key: both kept by its triggers, then the swap with its record. */
    method RekeyTable(id: TableId, d: string, gen: nat, ghost stay: set<string>) returns (on: bool)
      requires NextOf(d) in files && id in tables && gen == Gen(View(), d) + 1 && tables[id].gen < gen
      modifies `tables, `breath
      ensures on <==> old(breath) >= 2
      ensures id in tables && tables == old(tables)[id := tables[id]]
      ensures tables[id].domain == old(tables)[id].domain && tables[id].keyed == old(tables)[id].keyed
      ensures on ==> tables[id] == Swapped(old(View()), old(tables)[id], d, gen) && breath == old(breath) - 2
      ensures Resumable(old(View()), d, stay) && Rec(old(View()), d).pending ==> Resumable(View(), d, stay)
      ensures Tidy(old(View()), d) ==> Tidy(View(), d)
    {
      hide Resumable, Tidy;
      on := Goes();
      if !on { return; }
      if Tidy(View(), d) {
        TidyTable(View(), d, id, Started(tables[id], d));
        TidyTable(View(), d, id, Swapped(View(), tables[id], d, gen));
      }
      if Resumable(View(), d, stay) && Rec(View(), d).pending { StartKeeps(View(), d, stay, id); }
      tables := tables[id := Started(tables[id], d)];
      on := Goes();
      if !on { return; }
      if Resumable(View(), d, stay) && Rec(View(), d).pending { SwapKeeps(View(), d, stay, id); }
      tables := tables[id := tables[id].(gen := gen, shadow := files[NextOf(d)], live := NextOf(d), second := None)];
      assert tables == old(tables)[id := tables[id]];
    }

    /** Every keyed table of the domain on the branches that were running, unless a run before did it. */
    method RekeyAll(d: string, before: set<string>, gen: nat, ghost stay: set<string>) returns (on: bool)
      requires NextOf(d) in files && gen == Gen(View(), d)
      modifies `tables, `breath
      ensures on <==> old(breath) >= 2 * |ToMove(old(View()), d, before)|
      ensures on ==> View() == MovedAll(old(View()), d, before)
      ensures on ==> breath == old(breath) - 2 * |ToMove(old(View()), d, before)|
      ensures MovesOnly(old(View()), View(), d, before)
      ensures Resumable(old(View()), d, stay) && Rec(old(View()), d).pending ==> Resumable(View(), d, stay)
      ensures Tidy(old(View()), d) ==> Tidy(View(), d)
    {
      ghost var st := View();
      var todo := set id | id in tables && id.branch in before && tables[id].domain == d && tables[id].keyed && tables[id].gen <= gen;
      assert todo == ToMove(st, d, before);
      assert forall id :: id in todo ==> Touchable(st, d, before, id);
      hide Resumable, MovedSoFar, ToMove, Tidy, Touchable;
      on := RekeyEach(todo, d, before, gen + 1, st, stay);
      if on { MovedWhole(tables, st, d, before); }
    }

    method RekeyEach(ids: set<TableId>, d: string, ghost before: set<string>, gen: nat, ghost st: Store, ghost stay: set<string>)
      returns (on: bool)
      requires st == View() && NextOf(d) in files && gen == Gen(st, d) + 1
      requires forall id :: id in ids ==> Touchable(st, d, before, id)
      requires forall id :: id in ids ==> id in tables && tables[id].gen < gen
      modifies `tables, `breath
      ensures on <==> old(breath) >= 2 * |ids|
      ensures on ==> MovedSoFar(tables, st, d, gen, ids) && breath == old(breath) - 2 * |ids|
      ensures MovesOnly(st, View(), d, before)
      ensures Resumable(st, d, stay) && Rec(st, d).pending ==> Resumable(View(), d, stay)
      ensures Tidy(st, d) ==> Tidy(View(), d)
    {
      hide Resumable, MovedSoFar, Tidy, MovesOnly, Touchable;
      MovedNone(st, d, gen);
      MovesNone(st, d, before);
      var todo := ids;
      assert ids - todo == {};
      while todo != {}
        invariant todo <= ids && MovedSoFar(tables, st, d, gen, ids - todo) && MovesOnly(st, View(), d, before)
        invariant breath + 2 * |ids| == old(breath) + 2 * |todo|
        invariant Resumable(st, d, stay) && Rec(st, d).pending ==> Resumable(View(), d, stay)
        invariant Tidy(st, d) ==> Tidy(View(), d)
        decreases |todo|
      {
        var id :| id in todo;
        MovedAt(tables, st, d, gen, ids - todo, id);
        ghost var mid, was := tables, View();
        on := RekeyTable(id, d, gen, stay);
        MovesOne(st, was, View(), d, before, id);
        if !on { Smaller(todo, id); return; }
        MovedOne(mid, tables, st, d, gen, ids - todo, id);
        OneLess(ids, todo, id);
        todo := todo - {id};
      }
      on := true;
      assert ids - todo == ids;
    }

    /** Puts the new key in place of the old: a copy, so both names hold it. */
    method PutInPlace(d: string, ghost stay: set<string>, ghost was: Secret) returns (on: bool)
      requires NextOf(d) in files
      modifies `files, `breath
      ensures on <==> old(breath) >= 1
      ensures on ==> View() == Promote(old(View()), d) && breath == old(breath) - 1
      ensures !on ==> View() == old(View())
      ensures Startable(old(View()), d, stay, was) && Rec(old(View()), d).pending && AllMoved(old(View()), d, stay) ==>
        Startable(View(), d, stay, was)
    {
      hide Resumable, AllMoved;
      if Resumable(View(), d, stay) && Rec(View(), d).pending && AllMoved(View(), d, stay) {
        PromoteKeeps(View(), d, stay);
      }
      on := Goes();
      if on { files := files[Domain(d) := files[NextOf(d)]]; }
    }

    /** Points the triggers of moved tables at the domain's own name again; branches started meanwhile are made again. */
    method RepointAll(d: string, before: set<string>, after: set<string>, gen: nat, ghost stay: set<string>) returns (on: bool)
      requires gen == Gen(View(), d) + 1
      modifies `tables, `breath
      ensures on <==> old(breath) >= |ToRepoint(old(View()), after)|
      ensures on ==> View() == RepointedAll(old(View()), d, before, after)
      ensures on ==> breath == old(breath) - |ToRepoint(old(View()), after)|
      ensures PartRepointed(old(View()), View(), d, before, after)
      ensures Repointable(old(View()), d, before, stay) ==> Repointable(View(), d, before, stay)
      ensures Tidy(old(View()), d) ==> Tidy(View(), d)
    {
      ghost var st := View();
      var todo := set id | id in tables && id.branch in after;
      assert todo == ToRepoint(st, after);
      hide Repointable, RepointedSoFar, Tidy, PartRepointed;
      ghost var done;
      on, done := RepointEach(todo, d, before, gen, st, stay);
      RepointedPart(st, View(), d, before, after, done);
      if on { RepointedWhole(tables, st, d, before, after); }
    }

    method RepointEach(ids: set<TableId>, d: string, before: set<string>, gen: nat, ghost st: Store, ghost stay: set<string>)
      returns (on: bool, ghost done: set<TableId>)
      requires st == View() && gen == Gen(st, d) + 1 && ids <= tables.Keys
      modifies `tables, `breath
      ensures on <==> old(breath) >= |ids|
      ensures done <= ids && RepointedSoFar(tables, st, d, before, done)
      ensures on ==> done == ids && breath == old(breath) - |ids|
      ensures Repointable(st, d, before, stay) ==> Repointable(View(), d, before, stay)
      ensures Tidy(st, d) ==> Tidy(View(), d)
    {
      hide Repointable, RepointedSoFar, Repointed, Resumable, Tidy;
      RepointedNone(st, d, before);
      var todo := ids;
      assert ids - todo == {};
      while todo != {}
        invariant todo <= ids && RepointedSoFar(tables, st, d, before, ids - todo)
        invariant breath + |ids| == old(breath) + |todo|
        invariant Repointable(st, d, before, stay) ==> Repointable(View(), d, before, stay)
        invariant Tidy(st, d) ==> Tidy(View(), d)
        decreases |todo|
      {
        var id :| id in todo;
        on := Goes();
        if !on { Smaller(todo, id); done := ids - todo; return; }
        RepointedAt(tables, st, d, before, ids - todo, id);
        ghost var mid := View();
        RepointOne(id, d, before, gen, stay);
        RepointedOne(mid, tables, st, d, before, ids - todo, id);
        OneLess(ids, todo, id);
        todo := todo - {id};
      }
      on, done := true, ids;
      assert ids - todo == ids;
    }

    method RepointOne(id: TableId, d: string, before: set<string>, gen: nat, ghost stay: set<string>)
      requires id in tables && gen == Gen(View(), d) + 1
      modifies `tables
      ensures tables == old(tables)[id := Repointed(old(View()), d, before, id)]
      ensures Repointable(old(View()), d, before, stay) ==> Repointable(View(), d, before, stay)
      ensures Tidy(old(View()), d) ==> Tidy(View(), d)
    {
      hide Resumable, Tidy;
      if Tidy(View(), d) { TidyRepointed(View(), d, before, id); }
      if Repointable(View(), d, before, stay) { RepointKeeps(View(), d, stay, before, id); }
      if id.branch !in before {
        tables := tables[id := Remade(View(), tables[id])];
      } else if tables[id].domain == d && tables[id].keyed && tables[id].gen == gen {
        tables := tables[id := tables[id].(live := Domain(d))];
      } else {
        assert tables == tables[id := tables[id]];
      }
    }

    /** Removes the next key if no branch stopped meanwhile, and records the new key's number. */
    method End(d: string, gen: nat, before: set<string>, after: set<string>) returns (stop: Stop)
      modifies `files, `records, `breath
      ensures stop == CutShort ==> View() == old(View())
      ensures stop == CutAfterRemoval ==> before <= after && View() == Unlinked(old(View()), d, before, after)
      ensures stop == Finished ==> View() == SetRecord(Unlinked(old(View()), d, before, after), d, Record(gen, false))
      ensures stop == Finished <==> old(breath) >= if before <= after then 2 else 1
      ensures stop == CutAfterRemoval <==> before <= after && old(breath) == 1
      ensures OthersKept(old(View()), View(), d) && (files == old(files) || files == old(files) - {NextOf(d)})
    {
      var removed := false;
      var gone := before - after;
      if gone == {} {
        assert forall b :: b in before ==> b in after by {
          assert forall b :: b in before && b !in after ==> b in gone;
        }
        var on := Goes();
        if !on { return CutShort; }
        files := files - {NextOf(d)};
        removed := true;
      } else {
        assert !(before <= after);
      }
      var on := Goes();
      if !on { return if removed then CutAfterRemoval else CutShort; }
      records := records[d := Record(gen, false)];
      stop := Finished;
    }

    /** Moves every table to the next key and puts that key in the domain's own file. */
    method Move(d: string, before: set<string>, gen: nat, ghost stay: set<string>, ghost was: Secret) returns (on: bool)
      requires NextOf(d) in files && gen == Gen(View(), d)
      modifies `tables, `files, `breath
      ensures on <==> old(breath) >= 2 * |ToMove(old(View()), d, before)| + 1
      ensures on ==> View() == Promote(MovedAll(old(View()), d, before), d)
      ensures on ==> breath == old(breath) - 2 * |ToMove(old(View()), d, before)| - 1
      ensures old(breath) == 2 * |ToMove(old(View()), d, before)| ==> View() == MovedAll(old(View()), d, before)
      ensures Startable(old(View()), d, stay, was) && Rec(old(View()), d).pending && stay <= before ==>
        Startable(View(), d, stay, was)
      ensures MovesOnly(old(View()), View(), d, before) && OthersKept(old(View()), View(), d)
      ensures Tidy(old(View()), d) ==> Tidy(View(), d)
    {
      hide Resumable, AllMoved, ToMove, Tidy, MovesOnly;
      ghost var st := View();
      on := RekeyAll(d, before, gen, stay);
      if !on { return; }
      if stay <= before { MovedAllMoves(st, d, before, stay); }
      ghost var moved := View();
      on := PutInPlace(d, stay, was);
      if Tidy(st, d) { TidyCarries(moved, View(), d); }
      MovesSame(st, moved, View(), d, before);
    }

    /**
     Rotates the key of a domain. `before` and `after` are the branches running at the start and after the new
     key is put in place. A run that finishes, or is cut short at the end of the moves or after the removal of the
     next key, makes of the store what the specification says, whatever the store was.

     From a store a rotation can be started from, and for the branches in `stay`, which are in both: wherever the
     run is cut short, no trigger of theirs names a key file that is not there; short of the removal of the next key
     the rotation can be started again; and when it finishes everything of theirs is on the new key.
     */
    method Rotate(d: string, before: set<string>, after: set<string>, ghost stay: set<string>, ghost was: Secret)
      returns (stop: Stop)
      modifies this
      ensures stop == Finished ==> View() == Rotated(old(View()), d, before, after)
      ensures stop == CutAfterRemoval ==> before <= after && View() == Unrecorded(old(View()), d, before, after)
      ensures stop == Finished <==> old(breath) >= Cost(old(View()), d, before, after)
      ensures stop == CutAfterRemoval <==> before <= after && old(breath) + 1 == Cost(old(View()), d, before, after)
      ensures old(breath) == MoveCost(old(View()), d, before) ==> View() == MovedAll(Begun(old(View()), d), d, before)
      ensures Startable(old(View()), d, stay, was) && stay <= before && stay <= after ==>
        Outcome(old(View()), View(), d, stay, was, stop)
      ensures Framed(old(View()), View(), d, before, after, stop == Finished)
      ensures Tidy(old(View()), d) ==> Tidy(View(), d)
    {
      hide Tidy, Startable, Outcome, MovedAll, Begun, Placed, RepointedAll, ToRepoint, Repointable, Unlinked;
      hide Framed, OthersKept, MovesOnly, PartRepointed;
      ghost var st := View();
      stop := CutShort;
      var gen := if d in records && records[d].gen >= 1 then records[d].gen else 1;
      var on := Advance(d, before, after, gen, stay, was);
      ghost var placed := View();
      if Startable(st, d, stay, was) && stay <= before { StartableIs(st, placed, d, stay, was); }
      KeptAlone(placed, placed, d);
      PartNone(placed, d, before, after);
      FrameOfRun(st, placed, placed, d, before, after);
      if !on { return; }
      stop := Settle(d, before, after, gen + 1, stay, was);
      OutcomeChains(st, placed, View(), d, stay, was, stop);
      FrameOfRun(st, placed, View(), d, before, after);
      if stop == Finished { FinishedFrame(st, d, before, after); }
    }

    /** Up to the new key being in place. */
    method Advance(d: string, before: set<string>, after: set<string>, gen: nat, ghost stay: set<string>, ghost was: Secret)
      returns (on: bool)
      requires gen == Gen(View(), d)
      modifies this
      ensures on <==> old(breath) >= MoveCost(old(View()), d, before) + 1
      ensures on ==> View() == Placed(old(View()), d, before) && breath == old(breath) - MoveCost(old(View()), d, before) - 1
      ensures on ==> ToRepoint(View(), after) == ToRepoint(old(View()), after)
      ensures old(breath) == MoveCost(old(View()), d, before) ==> View() == MovedAll(Begun(old(View()), d), d, before)
      ensures Gen(View(), d) == gen && MovesOnly(old(View()), View(), d, before) && OthersKept(old(View()), View(), d)
      ensures Startable(old(View()), d, stay, was) && stay <= before ==>
        Startable(View(), d, stay, was) && (on ==> Repointable(View(), d, before, stay))
      ensures Tidy(old(View()), d) ==> Tidy(View(), d)
    {
      hide Tidy, Startable, MovedAll, ToMove, Begun, ToRepoint, Repointable, Resumable, KeyIs, MovesOnly, OthersKept;
      ghost var st := View();
      on := Begin(d, stay, was);
      ghost var begun := View();
      MovesNone(st, d, before);
      MovesSame(st, st, begun, d, before);
      if Tidy(st, d) { TidyCarries(st, begun, d); }
      if !on { return; }
      BegunKeeps(st, d);
      SameWork(st, begun, d, before, after);
      on := Move(d, before, gen, stay, was);
      MovesOnlyOn(st, begun, View(), d, before);
      OthersKeptOn(st, begun, View(), d);
      if !on { return; }
      PlacedIs(begun, View(), d, before, after);
      if Startable(View(), d, stay, was) { IsResumable(View(), d, stay, was); }
    }

    /** Once the new key is in place: the triggers pointed back, the next key removed, the new number recorded. */
    method Settle(d: string, before: set<string>, after: set<string>, gen: nat, ghost stay: set<string>, ghost was: Secret)
      returns (stop: Stop)
      requires gen == Gen(View(), d) + 1
      modifies this
      ensures stop == CutAfterRemoval ==>
        before <= after && View() == Unlinked(RepointedAll(old(View()), d, before, after), d, before, after)
      ensures stop == Finished ==>
        View() == SetRecord(Unlinked(RepointedAll(old(View()), d, before, after), d, before, after), d, Record(gen, false))
      ensures stop == Finished <==> old(breath) >= |ToRepoint(old(View()), after)| + if before <= after then 2 else 1
      ensures stop == CutAfterRemoval <==> before <= after && old(breath) == |ToRepoint(old(View()), after)| + 1
      ensures Startable(old(View()), d, stay, was) && Repointable(old(View()), d, before, stay) && stay <= after ==>
        Outcome(old(View()), View(), d, stay, was, stop)
      ensures PartRepointed(old(View()), View(), d, before, after) && OthersKept(old(View()), View(), d)
      ensures files == old(files) || files == old(files) - {NextOf(d)}
      ensures Tidy(old(View()), d) ==> Tidy(View(), d)
    {
      hide Tidy, OthersKept, PartRepointed;
      hide Startable, Outcome, RepointedAll, ToRepoint, Repointable, Unlinked;
      ghost var placed := View();
      stop := CutShort;
      var on := RepointAll(d, before, after, gen, stay);
      ghost var repointed := View();
      KeptAlone(placed, repointed, d);
      if Startable(placed, d, stay, was) && Repointable(placed, d, before, stay) {
        RepointStartable(placed, repointed, d, before, stay, was);
        StartableIs(placed, repointed, d, stay, was);
      }
      if !on { return; }
      stop := End(d, gen, before, after);
      OthersKeptOn(placed, repointed, View(), d);
      PartSame(placed, repointed, View(), d, before, after);
      if Tidy(placed, d) {
        UnlinkedTables(repointed, d, before, after);
        if stop == Finished { TidyRecorded(repointed, View(), d); } else { TidyCarries(repointed, View(), d); }
      }
      if Startable(placed, d, stay, was) && Repointable(placed, d, before, stay) && stay <= after {
        EndsWell(placed, repointed, View(), d, before, after, stay, was, stop);
      }
    }
  }

  /** What a run may be started from: a store it can be started again from, with the key that is to be replaced. */
  ghost predicate Startable(st: Store, d: string, stay: set<string>, was: Secret) {
    Resumable(st, d, stay) && KeyIs(st, d, was)
  }

  /** The new key is in place and the triggers are to be pointed back at it. */
  ghost predicate Repointable(st: Store, d: string, before: set<string>, stay: set<string>) {
    Resumable(st, d, stay) && Rec(st, d).pending && Promoted(st, d) && stay <= before
  }

  /** What becomes of the branches that stay. */
  ghost predicate Outcome(st: Store, r: Store, d: string, stay: set<string>, was: Secret, stop: Stop) {
    && NamesExist(r, d, stay)
    && match stop
       case CutShort => Startable(r, d, stay, was) && Gen(r, d) == Gen(st, d)
       case CutAfterRemoval => Settled(r, d, stay) && NextOf(d) !in r.files
       case Finished =>
         Done(r, d, stay, Gen(st, d) + 1) && Minted(r) && Domain(d) in r.files && r.files[Domain(d)] != was
  }

  lemma IsResumable(st: Store, d: string, stay: set<string>, was: Secret)
    requires Startable(st, d, stay, was)
    ensures Resumable(st, d, stay)
  {
  }

  lemma UnlinkedTables(st: Store, d: string, before: set<string>, after: set<string>)
    ensures var r := Unlinked(st, d, before, after); r.tables == st.tables && r.records == st.records
  {
  }

  lemma OneLess(ids: set<TableId>, todo: set<TableId>, id: TableId)
    requires todo <= ids && id in todo
    ensures ids - (todo - {id}) == (ids - todo) + {id} && |todo - {id}| == |todo| - 1
  {
  }

  lemma Smaller(s: set<TableId>, x: TableId)
    requires x in s
    ensures |s| >= 1
  {
  }

  /** Making the next key leaves the domain's own key and number alone, and a new next key is none there was. */
  lemma NextKeepsKey(st: Store, r: Store, d: string, stay: set<string>, was: Secret)
    requires Resumable(st, d, stay) && KeyIs(st, d, was)
    requires r == st || r == NextMade(st, d) || (!Rec(st, d).pending && r == RemoveKey(st, NextOf(d)))
    ensures KeyIs(r, d, was) && Gen(r, d) == Gen(st, d) && Rec(r, d) == Rec(st, d)
    ensures r == NextMade(st, d) && !Rec(st, d).pending ==> NextOf(d) in r.files && !Promoted(r, d)
  {
    InPlace(st, d, stay);
    hide Resumable;
  }

  lemma MovedAllMoves(st: Store, d: string, before: set<string>, stay: set<string>)
    requires NextOf(d) in st.files && stay <= before
    ensures AllMoved(MovedAll(st, d, before), d, stay) && Gen(MovedAll(st, d, before), d) == Gen(st, d)
  {
    var r := MovedAll(st, d, before);
    forall id | Mine(r, d, stay, id) ensures r.tables[id].gen > Gen(r, d) {
    }
  }

  lemma StartableIs(st: Store, r: Store, d: string, stay: set<string>, was: Secret)
    requires Startable(r, d, stay, was) && Gen(r, d) == Gen(st, d)
    ensures Outcome(st, r, d, stay, was, CutShort) && Resumable(r, d, stay)
  {
    ResumableNames(r, d, stay);
    hide Resumable, NamesExist;
  }

  /** Changing tables leaves the domain's key what it is. */
  lemma RepointStartable(placed: Store, r: Store, d: string, before: set<string>, stay: set<string>, was: Secret)
    requires Startable(placed, d, stay, was) && Repointable(r, d, before, stay) && r == placed.(tables := r.tables)
    ensures Startable(r, d, stay, was)
  {
    hide Resumable;
  }

  // The loops over tables.

  lemma NextKept(st: Store, r: Store, d: string)
    requires r == st || r == NextMade(st, d) || r == RemoveKey(st, NextOf(d))
    ensures OthersKept(st, r, d)
  {
  }

  lemma RecordKept(st: Store, a: Store, b: Store, d: string)
    requires OthersKept(st, a, d) && b.files == a.files && d in b.records && b.records == a.records[d := b.records[d]]
    ensures OthersKept(st, b, d)
  {
  }

  lemma MovesNone(st: Store, d: string, before: set<string>)
    ensures MovesOnly(st, st, d, before)
  {
  }

  lemma MovesSame(st: Store, a: Store, b: Store, d: string, before: set<string>)
    requires MovesOnly(st, a, d, before) && b.tables == a.tables && Gen(b, d) == Gen(a, d)
    ensures MovesOnly(st, b, d, before)
  {
  }

  lemma MovesOne(st: Store, a: Store, b: Store, d: string, before: set<string>, id: TableId)
    requires MovesOnly(st, a, d, before) && Touchable(st, d, before, id) && id in a.tables && id in b.tables
    requires b.tables == a.tables[id := b.tables[id]] && b.records == a.records
    requires b.tables[id].domain == a.tables[id].domain && b.tables[id].keyed == a.tables[id].keyed
    ensures MovesOnly(st, b, d, before)
  {
  }

  lemma KeptAlone(a: Store, b: Store, d: string)
    requires b.files == a.files && b.records == a.records
    ensures OthersKept(a, b, d)
  {
  }

  lemma PartNone(st: Store, d: string, before: set<string>, after: set<string>)
    ensures PartRepointed(st, st, d, before, after)
  {
  }

  lemma PartSame(st: Store, a: Store, b: Store, d: string, before: set<string>, after: set<string>)
    requires PartRepointed(st, a, d, before, after) && b.tables == a.tables
    ensures PartRepointed(st, b, d, before, after)
  {
  }

  lemma RepointedPart(st: Store, r: Store, d: string, before: set<string>, after: set<string>, done: set<TableId>)
    requires RepointedSoFar(r.tables, st, d, before, done) && forall id :: id in done ==> id.branch in after
    ensures PartRepointed(st, r, d, before, after)
  {
    hide Repointed;
  }

  /** Those dealt with moved, the others as they were. */
  ghost predicate MovedSoFar(tables: map<TableId, Masks>, st: Store, d: string, gen: nat, done: set<TableId>) {
    && NextOf(d) in st.files && tables.Keys == st.tables.Keys
    && forall id :: id in st.tables ==>
         tables[id] == if id in done then Swapped(st, st.tables[id], d, gen) else st.tables[id]
  }

  lemma MovedNone(st: Store, d: string, gen: nat)
    requires NextOf(d) in st.files
    ensures MovedSoFar(st.tables, st, d, gen, {})
  {
  }

  lemma MovedAt(tables: map<TableId, Masks>, st: Store, d: string, gen: nat, done: set<TableId>, id: TableId)
    requires MovedSoFar(tables, st, d, gen, done) && id in st.tables && id !in done
    ensures id in tables && tables[id] == st.tables[id]
  {
  }

  lemma MovedOne(a: map<TableId, Masks>, b: map<TableId, Masks>, st: Store, d: string, gen: nat, done: set<TableId>, id: TableId)
    requires MovedSoFar(a, st, d, gen, done) && id in st.tables && id !in done && NextOf(d) in st.files
    requires b == a[id := Swapped(st, st.tables[id], d, gen)]
    ensures MovedSoFar(b, st, d, gen, done + {id})
  {
  }

  lemma MovedWhole(tables: map<TableId, Masks>, st: Store, d: string, before: set<string>)
    requires MovedSoFar(tables, st, d, Gen(st, d) + 1, ToMove(st, d, before))
    ensures NextOf(d) in st.files && tables == MovedAll(st, d, before).tables
  {
    hide ToMove;
  }

  /** Those dealt with pointed back or made again, the others as they were. */
  ghost predicate RepointedSoFar(tables: map<TableId, Masks>, st: Store, d: string, before: set<string>, done: set<TableId>) {
    && tables.Keys == st.tables.Keys
    && forall id :: id in st.tables ==>
         tables[id] == if id in done then Repointed(st, d, before, id) else st.tables[id]
  }

  lemma RepointedNone(st: Store, d: string, before: set<string>)
    ensures RepointedSoFar(st.tables, st, d, before, {})
  {
  }

  lemma RepointedAt(tables: map<TableId, Masks>, st: Store, d: string, before: set<string>, done: set<TableId>, id: TableId)
    requires RepointedSoFar(tables, st, d, before, done) && id in st.tables && id !in done
    ensures id in tables && tables[id] == st.tables[id]
  {
  }

  lemma RepointedOne(mid: Store, b: map<TableId, Masks>, st: Store, d: string, before: set<string>, done: set<TableId>, id: TableId)
    requires RepointedSoFar(mid.tables, st, d, before, done) && id in st.tables && id in mid.tables && id !in done
    requires mid.files == st.files && mid.records == st.records && mid.tables[id] == st.tables[id]
    requires b == mid.tables[id := Repointed(mid, d, before, id)]
    ensures RepointedSoFar(b, st, d, before, done + {id})
  {
    assert Repointed(mid, d, before, id) == Repointed(st, d, before, id);
    hide Repointed;
  }

  lemma RepointedWhole(tables: map<TableId, Masks>, st: Store, d: string, before: set<string>, after: set<string>)
    requires RepointedSoFar(tables, st, d, before, ToRepoint(st, after))
    ensures tables == RepointedAll(st, d, before, after).tables
  {
    hide Repointed;
  }

  lemma SameWork(st: Store, begun: Store, d: string, before: set<string>, after: set<string>)
    requires begun.tables == st.tables && Gen(begun, d) == Gen(st, d)
    ensures ToMove(begun, d, before) == ToMove(st, d, before) && ToRepoint(begun, after) == ToRepoint(st, after)
  {
  }

  lemma PlacedIs(begun: Store, placed: Store, d: string, before: set<string>, after: set<string>)
    requires NextOf(d) in begun.files && placed == Promote(MovedAll(begun, d, before), d)
    ensures Gen(placed, d) == Gen(begun, d) && Rec(placed, d) == Rec(begun, d) && Promoted(placed, d)
    ensures ToRepoint(placed, after) == ToRepoint(begun, after)
    ensures forall stay :: Rec(begun, d).pending && Resumable(placed, d, stay) && stay <= before ==> Repointable(placed, d, before, stay)
  {
    hide ToMove, Resumable;
  }

  lemma RepointedAllSettles(placed: Store, d: string, before: set<string>, after: set<string>, stay: set<string>)
    requires Resumable(placed, d, stay) && Rec(placed, d).pending && Promoted(placed, d) && stay <= before && stay <= after
    requires Resumable(RepointedAll(placed, d, before, after), d, stay)
    ensures Settled(RepointedAll(placed, d, before, after), d, stay)
  {
    var r := RepointedAll(placed, d, before, after);
    forall id | Mine(r, d, stay, id) ensures r.tables[id].live == Domain(d) {
      assert Mine(placed, d, stay, id);
      RepointKeeps(placed, d, stay, before, id);
    }
    assert Promoted(r, d) && Rec(r, d).pending;
    hide Resumable, Mine;
    RepointedSettles(r, d, stay);
  }

  lemma EndsWell(placed: Store, repointed: Store, end: Store, d: string, before: set<string>, after: set<string>,
                 stay: set<string>, was: Secret, stop: Stop)
    requires Repointable(placed, d, before, stay) && Repointable(repointed, d, before, stay) && stay <= after
    requires repointed == RepointedAll(placed, d, before, after) && Startable(repointed, d, stay, was)
    requires stop == CutShort ==> end == repointed
    requires stop == CutAfterRemoval ==> before <= after && end == Unlinked(repointed, d, before, after)
    requires stop == Finished ==> end == SetRecord(Unlinked(repointed, d, before, after), d, Record(Gen(placed, d) + 1, false))
    ensures Outcome(placed, end, d, stay, was, stop)
  {
    hide Resumable, NamesExist, Settled, Done;
    RepointedAllSettles(placed, d, before, after, stay);
    assert Promoted(repointed, d) && Rec(repointed, d) == Rec(placed, d);
    InPlace(repointed, d, stay);
    ResumableNames(repointed, d, stay);
    SettledSurvivesRemoval(repointed, d, stay);
    var u := Unlinked(repointed, d, before, after);
    SettledNames(u, d, stay);
    RecordFinishes(u, d, stay);
    if stop == Finished {
      DoneIsResumable(end, d, stay, Gen(placed, d) + 1);
    }
  }

  datatype Attempt = Attempt(before: set<string>, after: set<string>, breath: nat)

  /** Any number of runs, each cut short where it may be, until one finishes or is cut short after the removal. */
  method RotateUntilDone(i: Install, d: string, runs: seq<Attempt>, ghost stay: set<string>, ghost was: Secret) returns (stop: Stop)
    requires Startable(i.View(), d, stay, was)
    requires forall k :: 0 <= k < |runs| ==> stay <= runs[k].before && stay <= runs[k].after
    modifies i
    ensures Outcome(old(i.View()), i.View(), d, stay, was, stop)
    ensures StayFramed(old(i.View()), i.View(), d, stay)
  {
    hide Startable, Outcome, Rotated, Unrecorded, MovedAll, Framed, StayFramed;
    ghost var st := i.View();
    StaySame(st, d, stay);
    stop := CutShort;
    assert Outcome(st, st, d, stay, was, CutShort) by { OutcomeNow(st, d, stay, was); }
    for k := 0 to |runs|
      invariant Outcome(st, i.View(), d, stay, was, CutShort) && stop == CutShort && StayFramed(st, i.View(), d, stay)
    {
      ghost var mid := i.View();
      OutcomeCut(st, mid, d, stay, was);
      i.breath := runs[k].breath;
      stop := i.Rotate(d, runs[k].before, runs[k].after, stay, was);
      OutcomeChains(st, mid, i.View(), d, stay, was, stop);
      StayFramedOn(st, mid, i.View(), d, runs[k].before, runs[k].after, stop == Finished, stay);
      if stop != CutShort { return; }
    }
  }

  /** Over any number of runs: other domains keep their files and records, and staying branches their other tables. */
  ghost predicate StayFramed(st: Store, r: Store, d: string, stay: set<string>) {
    && OthersKept(st, r, d) && r.tables.Keys == st.tables.Keys
    && forall id :: id in st.tables && id.branch in stay ==>
         && r.tables[id].domain == st.tables[id].domain && r.tables[id].keyed == st.tables[id].keyed
         && (st.tables[id].domain != d || !st.tables[id].keyed ==> r.tables[id] == st.tables[id])
  }

  lemma StaySame(st: Store, d: string, stay: set<string>)
    ensures StayFramed(st, st, d, stay)
  {
  }

  lemma StayFramedOn(st: Store, mid: Store, r: Store, d: string, before: set<string>, after: set<string>, finished: bool, stay: set<string>)
    requires StayFramed(st, mid, d, stay) && Framed(mid, r, d, before, after, finished) && stay <= before
    ensures StayFramed(st, r, d, stay)
  {
    OthersKeptOn(st, mid, r, d);
    hide OthersKept;
    forall id | id in st.tables && id.branch in stay
      ensures r.tables[id].domain == st.tables[id].domain && r.tables[id].keyed == st.tables[id].keyed
      ensures st.tables[id].domain != d || !st.tables[id].keyed ==> r.tables[id] == st.tables[id]
    {
      assert TableFramed(mid, r, d, before, after, finished, id);
    }
  }

  lemma OutcomeNow(st: Store, d: string, stay: set<string>, was: Secret)
    requires Startable(st, d, stay, was)
    ensures Outcome(st, st, d, stay, was, CutShort)
  {
    StartableIs(st, st, d, stay, was);
  }

  lemma OutcomeCut(st: Store, mid: Store, d: string, stay: set<string>, was: Secret)
    requires Outcome(st, mid, d, stay, was, CutShort)
    ensures Startable(mid, d, stay, was) && Gen(mid, d) == Gen(st, d)
  {
  }

  lemma OutcomeChains(st: Store, mid: Store, r: Store, d: string, stay: set<string>, was: Secret, stop: Stop)
    requires Gen(mid, d) == Gen(st, d)
    ensures Outcome(mid, r, d, stay, was, stop) ==> Outcome(st, r, d, stay, was, stop)
  {
    hide Startable, Done, Settled, NamesExist;
  }

  // Two runs that go wrong, taken by the code above.

  const A := TableId("a", "t")
  const B := TableId("b", "t")

  /** Two branches with a table each, on the first key. */
  function TwoBranches(): Store {
    var t := Masks("d", true, 1, 0, Domain("d"), None);
    Store(map[Domain("d") := 0], map["d" := Record(1, false)], map[A := t, B := t], 1)
  }

  /**
   Both branches are moved and the run is cut short; the second stops; the next run sees the first only and finishes:
   the key is gone that the second branch's trigger names.
   */
  method StrandedBranch() returns (cut: Store, end: Store)
    ensures cut == MovedAll(Begun(TwoBranches(), "d"), "d", {"a", "b"})
    ensures B in cut.tables && cut.tables[B].live == NextOf("d") && NextOf("d") in cut.files
    ensures end == Rotated(cut, "d", {"a"}, {"a"})
    ensures B in end.tables && end.tables[B].live == NextOf("d") && NextOf("d") !in end.files
  {
    hide Rotated, Unrecorded, MovedAll, Cost;
    var i := new Install(TwoBranches());
    BothToMove();
    i.breath := 7;
    var _ := i.Rotate("d", {"a", "b"}, {"a", "b"}, {}, 0);
    cut := i.View();
    CutState();
    StrandedEnd(cut);
    i.breath := 5;
    var _ := i.Rotate("d", {"a"}, {"a"}, {}, 0);
    end := i.View();
  }

  lemma StrandedEnd(cut: Store)
    requires cut == Store(map[Domain("d") := 0, NextOf("d") := 1], map["d" := Record(1, true)],
                          map[A := Masks("d", true, 2, 1, NextOf("d"), None), B := Masks("d", true, 2, 1, NextOf("d"), None)], 2)
    ensures Cost(cut, "d", {"a"}, {"a"}) == 5
    ensures var end := Rotated(cut, "d", {"a"}, {"a"});
      B in end.tables && end.tables[B].live == NextOf("d") && NextOf("d") !in end.files
  {
    assert ToMove(cut, "d", {"a"}) == {} && ToRepoint(cut, {"a"}) == {A};
  }

  lemma BothToMove()
    ensures ToMove(TwoBranches(), "d", {"a", "b"}) == {A, B} && |{A, B}| == 2
    ensures MoveCost(TwoBranches(), "d", {"a", "b"}) == 7
  {
    assert ToMove(TwoBranches(), "d", {"a", "b"}) == {A, B};
    assert A != B;
  }

  lemma CutState()
    ensures var cut := MovedAll(Begun(TwoBranches(), "d"), "d", {"a", "b"});
      var t := Masks("d", true, 2, 1, NextOf("d"), None);
      cut == Store(map[Domain("d") := 0, NextOf("d") := 1], map["d" := Record(1, true)], map[A := t, B := t], 2)
  {
    BothToMove();
    var b := Begun(TwoBranches(), "d");
    assert b.files == map[Domain("d") := 0, NextOf("d") := 1];
    assert ToMove(b, "d", {"a", "b"}) == {A, B};
  }

  /**
   A run cut short after the next key is removed, and the run started again from there: it finishes, and the trigger
   writes under a key the shadow was not made under.
   */
  method RestartedTooLate() returns (cut: Store, end: Store)
    ensures A in cut.tables && Rec(cut, "d").pending && NextOf("d") !in cut.files
    ensures Domain("d") in cut.files && cut.tables[A].shadow == cut.files[Domain("d")]
    ensures end == Rotated(cut, "d", {"a"}, {"a"}) && Rec(end, "d") == Record(2, false)
    ensures A in end.tables && end.tables[A].live == Domain("d")
    ensures Domain("d") in end.files && end.tables[A].shadow != end.files[Domain("d")]
  {
    var t := Masks("d", true, 1, 0, Domain("d"), None);
    var st := Store(map[Domain("d") := 0], map["d" := Record(1, false)], map[A := t], 1);
    var i := new Install(st);
    TooLateCut(st);
    hide Rotated, Unrecorded, MovedAll, Cost;
    i.breath := 8;
    var _ := i.Rotate("d", {"a"}, {"a"}, {}, 0);
    cut := i.View();
    assert cut == Store(map[Domain("d") := 1], map["d" := Record(1, true)],
                        map[A := Masks("d", true, 2, 1, Domain("d"), None)], 2);
    TooLateEnd(cut);
    i.breath := 5;
    var _ := i.Rotate("d", {"a"}, {"a"}, {}, 0);
    end := i.View();
  }

  lemma TooLateEnd(cut: Store)
    requires cut == Store(map[Domain("d") := 1], map["d" := Record(1, true)],
                          map[A := Masks("d", true, 2, 1, Domain("d"), None)], 2)
    ensures Cost(cut, "d", {"a"}, {"a"}) == 5
    ensures var end := Rotated(cut, "d", {"a"}, {"a"});
      && Rec(end, "d") == Record(2, false) && A in end.tables && end.tables[A].live == Domain("d")
      && Domain("d") in end.files && end.tables[A].shadow != end.files[Domain("d")]
  {
    assert ToMove(cut, "d", {"a"}) == {} && ToRepoint(cut, {"a"}) == {A};
  }

  lemma TooLateCut(st: Store)
    requires st == Store(map[Domain("d") := 0], map["d" := Record(1, false)],
                         map[A := Masks("d", true, 1, 0, Domain("d"), None)], 1)
    ensures Unrecorded(st, "d", {"a"}, {"a"}) == Store(map[Domain("d") := 1], map["d" := Record(1, true)],
                         map[A := Masks("d", true, 2, 1, Domain("d"), None)], 2)
    ensures Cost(st, "d", {"a"}, {"a"}) == 9
  {
    assert ToMove(st, "d", {"a"}) == {A} && ToRepoint(st, {"a"}) == {A};
    var b := Begun(st, "d");
    assert b.files == map[Domain("d") := 0, NextOf("d") := 1] && b.minted == 2;
    assert ToMove(b, "d", {"a"}) == {A};
    var p := Placed(st, "d", {"a"});
    assert p.tables == map[A := Masks("d", true, 2, 1, NextOf("d"), None)];
    assert p.files == map[Domain("d") := 1, NextOf("d") := 1];
    var r := RepointedAll(p, "d", {"a"}, {"a"});
    assert r.tables == map[A := Masks("d", true, 2, 1, Domain("d"), None)];
    assert r.files - {NextOf("d")} == map[Domain("d") := 1];
  }
}
