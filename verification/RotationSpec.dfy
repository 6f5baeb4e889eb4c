/**
 Key rotation: what a cut-short run may leave behind, and what a finished one must.

 A key file has a name and holds a secret. A table's triggers name the key file its masks are written under,
 and during a rekey a second one; its shadow was made under some secret, and a number is recorded for it.
 Making the masks of a table again, however long it takes, changes this state only at its start and its swap.
 */
module RotationSpec {
  import opened Wrappers

  type Secret = nat

  datatype KeyName = Domain(d: string) | NextOf(d: string)
  datatype TableId = TableId(branch: string, table: string)
  datatype Masks = Masks(domain: string, keyed: bool, gen: nat, shadow: Secret, live: KeyName, second: Option<KeyName>)
  datatype Record = Record(gen: nat, pending: bool)

  /** Secrets are drawn in turn, so a new one is none that was ever there. */
  datatype Store = Store(
    files: map<KeyName, Secret>, records: map<string, Record>, tables: map<TableId, Masks>, minted: nat)

  function Rec(st: Store, d: string): Record {
    if d in st.records then st.records[d] else Record(0, false)
  }

  /** A record made before numbers were kept counts as the first key. */
  function Gen(st: Store, d: string): nat {
    if Rec(st, d).gen < 1 then 1 else Rec(st, d).gen
  }

  predicate Mine(st: Store, d: string, stay: set<string>, id: TableId) {
    id in st.tables && id.branch in stay && st.tables[id].domain == d && st.tables[id].keyed
  }

  /** Both names hold the same secret: the new key has been put in place. */
  predicate Promoted(st: Store, d: string) {
    Domain(d) in st.files && NextOf(d) in st.files && st.files[Domain(d)] == st.files[NextOf(d)]
  }

  // A table, before and after it is moved.

  predicate Old(st: Store, d: string, t: Masks)
    requires Domain(d) in st.files
  {
    t.live == Domain(d) && t.shadow == st.files[Domain(d)] && t.gen <= Gen(st, d)
  }

  predicate Moved(st: Store, d: string, t: Masks)
    requires NextOf(d) in st.files
  {
    && t.gen == Gen(st, d) + 1 && t.shadow == st.files[NextOf(d)] && t.second.None?
    && (t.live == NextOf(d) || (Promoted(st, d) && t.live == Domain(d)))
  }

  predicate Midway(st: Store, d: string, t: Masks)
    requires Domain(d) in st.files && NextOf(d) in st.files
  {
    Moved(st, d, t) || (!Promoted(st, d) && Old(st, d, t) && (t.second.None? || t.second == Some(NextOf(d))))
  }

  predicate Minted(st: Store) {
    forall n :: n in st.files ==> st.files[n] < st.minted
  }

  /**
   What a rotation of `d` can be started or started again from, as far as the branches in `stay` go.
   The clause that a pending rotation has its next key's file is the one a caller can look up.
   */
  ghost predicate Resumable(st: Store, d: string, stay: set<string>) {
    && Minted(st) && Domain(d) in st.files
    && (Rec(st, d).pending ==> NextOf(d) in st.files)
    && forall id :: Mine(st, d, stay, id) ==>
         if Rec(st, d).pending then Midway(st, d, st.tables[id]) else Old(st, d, st.tables[id]) && st.tables[id].second.None?
  }

  /** The rotation is over: every table on one key, its file, its record, its shadow and its trigger. */
  ghost predicate Done(st: Store, d: string, stay: set<string>, gen: nat) {
    && Domain(d) in st.files && Rec(st, d) == Record(gen, false)
    && forall id :: Mine(st, d, stay, id) ==>
         var t := st.tables[id];
         t.gen == gen && t.shadow == st.files[Domain(d)] && t.live == Domain(d) && t.second.None?
  }

  /** No trigger of a staying branch names a key file that is not there. */
  ghost predicate NamesExist(st: Store, d: string, stay: set<string>) {
    forall id :: Mine(st, d, stay, id) ==>
      st.tables[id].live in st.files && (st.tables[id].second.Some? ==> st.tables[id].second.value in st.files)
  }

  lemma ResumableNames(st: Store, d: string, stay: set<string>)
    requires Resumable(st, d, stay)
    ensures NamesExist(st, d, stay)
  {
    forall id | Mine(st, d, stay, id)
      ensures st.tables[id].live in st.files && (st.tables[id].second.Some? ==> st.tables[id].second.value in st.files)
    {
    }
  }

  lemma DoneIsResumable(st: Store, d: string, stay: set<string>, gen: nat)
    requires Done(st, d, stay, gen) && Minted(st) && gen >= 1
    ensures Resumable(st, d, stay) && NamesExist(st, d, stay)
  {
    forall id | Mine(st, d, stay, id) ensures Old(st, d, st.tables[id]) && st.tables[id].second.None? && st.tables[id].live in st.files {
    }
  }

  // The steps a rotation is made of.

  /** The file of a key, made if it is not there. */
  function EnsureKey(st: Store, n: KeyName): Store {
    if n in st.files then st else st.(files := st.files[n := st.minted], minted := st.minted + 1)
  }

  function RemoveKey(st: Store, n: KeyName): Store {
    st.(files := st.files - {n})
  }

  function Promote(st: Store, d: string): Store
    requires NextOf(d) in st.files
  {
    st.(files := st.files[Domain(d) := st.files[NextOf(d)]])
  }

  function SetRecord(st: Store, d: string, r: Record): Store {
    st.(records := st.records[d := r])
  }

  function SetTable(st: Store, id: TableId, t: Masks): Store {
    st.(tables := st.tables[id := t])
  }

  function Started(t: Masks, d: string): Masks {
    t.(second := Some(NextOf(d)))
  }

  function Swapped(st: Store, t: Masks, d: string, gen: nat): Masks
    requires NextOf(d) in st.files
  {
    t.(gen := gen, shadow := st.files[NextOf(d)], live := NextOf(d), second := None)
  }

  /** Made again from nothing, under the keys as they are now. */
  function Remade(st: Store, t: Masks): Masks {
    if Domain(t.domain) in st.files
    then t.(gen := Gen(st, t.domain), shadow := st.files[Domain(t.domain)], live := Domain(t.domain), second := None)
    else t
  }

  // Each step keeps what a rotation can be started again from.

  lemma EnsureNextKeeps(st: Store, d: string, stay: set<string>)
    requires Resumable(st, d, stay)
    ensures Resumable(EnsureKey(st, NextOf(d)), d, stay) && NextOf(d) in EnsureKey(st, NextOf(d)).files
    ensures Rec(st, d).pending ==> EnsureKey(st, NextOf(d)) == st
    ensures !Rec(st, d).pending && NextOf(d) !in st.files ==> !Promoted(EnsureKey(st, NextOf(d)), d)
  {
    var r := EnsureKey(st, NextOf(d));
    forall id | Mine(r, d, stay, id) ensures Mine(st, d, stay, id) {}
  }

  lemma RemoveNextKeeps(st: Store, d: string, stay: set<string>)
    requires Resumable(st, d, stay) && !Rec(st, d).pending
    ensures Resumable(RemoveKey(st, NextOf(d)), d, stay) && NextOf(d) !in RemoveKey(st, NextOf(d)).files
  {
    var r := RemoveKey(st, NextOf(d));
    forall id | Mine(r, d, stay, id) ensures Mine(st, d, stay, id) {}
  }

  lemma PendingKeeps(st: Store, d: string, stay: set<string>)
    requires Resumable(st, d, stay) && NextOf(d) in st.files && !Promoted(st, d) && !Rec(st, d).pending
    ensures Resumable(SetRecord(st, d, Rec(st, d).(pending := true)), d, stay)
  {
    var r := SetRecord(st, d, Rec(st, d).(pending := true));
    forall id | Mine(r, d, stay, id) ensures Midway(r, d, r.tables[id]) {
      assert Mine(st, d, stay, id);
    }
  }

  /** A table set to something still fit to be started again from. */
  lemma TableKeeps(st: Store, d: string, stay: set<string>, id: TableId, t: Masks)
    requires Resumable(st, d, stay) && Rec(st, d).pending && id in st.tables
    requires id.branch in stay && t.domain == d && t.keyed ==> Midway(st, d, t)
    ensures Resumable(SetTable(st, id, t), d, stay)
  {
    var r := SetTable(st, id, t);
    forall x | Mine(r, d, stay, x) ensures Midway(r, d, r.tables[x]) {
      if x != id {
        assert Mine(st, d, stay, x);
      }
    }
  }

  ghost predicate AllMoved(st: Store, d: string, stay: set<string>) {
    forall id :: Mine(st, d, stay, id) ==> st.tables[id].gen > Gen(st, d)
  }

  lemma PromoteKeeps(st: Store, d: string, stay: set<string>)
    requires Resumable(st, d, stay) && Rec(st, d).pending && AllMoved(st, d, stay)
    ensures Resumable(Promote(st, d), d, stay) && Promoted(Promote(st, d), d)
  {
    var r := Promote(st, d);
    forall id | Mine(r, d, stay, id) ensures Midway(r, d, r.tables[id]) {
      assert Mine(st, d, stay, id);
      assert Moved(st, d, st.tables[id]);
    }
  }

  /** All moved, promoted and pointed back: finished but for the next key's file and the record. */
  ghost predicate Settled(st: Store, d: string, stay: set<string>) {
    && Domain(d) in st.files && Rec(st, d).pending && Minted(st)
    && forall id :: Mine(st, d, stay, id) ==>
         var t := st.tables[id];
         t.gen == Gen(st, d) + 1 && t.shadow == st.files[Domain(d)] && t.live == Domain(d) && t.second.None?
  }

  lemma SettledSurvivesRemoval(st: Store, d: string, stay: set<string>)
    requires Settled(st, d, stay)
    ensures Settled(RemoveKey(st, NextOf(d)), d, stay)
  {
    var r := RemoveKey(st, NextOf(d));
    forall id | Mine(r, d, stay, id) ensures Mine(st, d, stay, id) {}
  }

  lemma SettledNames(st: Store, d: string, stay: set<string>)
    requires Settled(st, d, stay)
    ensures NamesExist(st, d, stay)
  {
    forall id | Mine(st, d, stay, id) ensures st.tables[id].live in st.files && st.tables[id].second.None? {}
  }

  lemma RecordFinishes(st: Store, d: string, stay: set<string>)
    requires Settled(st, d, stay)
    ensures Done(SetRecord(st, d, Record(Gen(st, d) + 1, false)), d, stay, Gen(st, d) + 1)
  {
    var r := SetRecord(st, d, Record(Gen(st, d) + 1, false));
    forall id | Mine(r, d, stay, id) ensures Mine(st, d, stay, id) {}
  }

  lemma InPlace(st: Store, d: string, stay: set<string>)
    requires Resumable(st, d, stay)
    ensures Minted(st) && Domain(d) in st.files && (Rec(st, d).pending ==> NextOf(d) in st.files)
  {
  }

  lemma StartKeeps(st: Store, d: string, stay: set<string>, id: TableId)
    requires Resumable(st, d, stay) && Rec(st, d).pending && id in st.tables && st.tables[id].gen <= Gen(st, d)
    ensures Resumable(SetTable(st, id, Started(st.tables[id], d)), d, stay)
  {
    if Mine(st, d, stay, id) {
      assert Midway(st, d, st.tables[id]);
    }
    TableKeeps(st, d, stay, id, Started(st.tables[id], d));
  }

  lemma SwapKeeps(st: Store, d: string, stay: set<string>, id: TableId)
    requires NextOf(d) in st.files && Resumable(st, d, stay) && Rec(st, d).pending && id in st.tables
    ensures Resumable(SetTable(st, id, Swapped(st, st.tables[id], d, Gen(st, d) + 1)), d, stay)
  {
    TableKeeps(st, d, stay, id, Swapped(st, st.tables[id], d, Gen(st, d) + 1));
  }

  /** What is done to a table once the new key is in place. */
  function Repointed(st: Store, d: string, before: set<string>, id: TableId): Masks
    requires id in st.tables
  {
    var t := st.tables[id];
    if id.branch !in before then Remade(st, t)
    else if t.domain == d && t.keyed && t.gen == Gen(st, d) + 1 then t.(live := Domain(d))
    else t
  }

  lemma RepointKeeps(st: Store, d: string, stay: set<string>, before: set<string>, id: TableId)
    requires Resumable(st, d, stay) && Rec(st, d).pending && Promoted(st, d) && stay <= before && id in st.tables
    ensures Resumable(SetTable(st, id, Repointed(st, d, before, id)), d, stay)
    ensures Mine(st, d, stay, id) ==> Repointed(st, d, before, id).live == Domain(d)
  {
    if Mine(st, d, stay, id) {
      assert Midway(st, d, st.tables[id]);
    }
    TableKeeps(st, d, stay, id, Repointed(st, d, before, id));
  }

  lemma RepointedSettles(st: Store, d: string, stay: set<string>)
    requires Resumable(st, d, stay) && Rec(st, d).pending && Promoted(st, d)
    requires forall id :: Mine(st, d, stay, id) ==> st.tables[id].live == Domain(d)
    ensures Settled(st, d, stay)
  {
    forall id | Mine(st, d, stay, id) ensures Moved(st, d, st.tables[id]) {
      assert Midway(st, d, st.tables[id]);
    }
  }

  /** The domain's file holds the key it had, `was`, until the new one is put in its place. */
  predicate KeyIs(st: Store, d: string, was: Secret) {
    Domain(d) in st.files && (st.files[Domain(d)] == was <==> !(Rec(st, d).pending && Promoted(st, d)))
  }

  // A whole run, as what it makes of the store it starts from.

  function NextMade(st: Store, d: string): Store {
    EnsureKey(if Rec(st, d).pending then st else RemoveKey(st, NextOf(d)), NextOf(d))
  }

  function Begun(st: Store, d: string): Store {
    if Rec(st, d).pending then NextMade(st, d) else SetRecord(NextMade(st, d), d, Rec(st, d).(pending := true))
  }

  /** The tables a run has to move: those of the running branches a run before did not move. */
  function ToMove(st: Store, d: string, before: set<string>): set<TableId> {
    set id | id in st.tables && id.branch in before && st.tables[id].domain == d && st.tables[id].keyed
             && st.tables[id].gen <= Gen(st, d)
  }

  function MovedAll(st: Store, d: string, before: set<string>): Store
    requires NextOf(d) in st.files
  {
    st.(tables := map id | id in st.tables ::
      if id in ToMove(st, d, before) then Swapped(st, st.tables[id], d, Gen(st, d) + 1) else st.tables[id])
  }

  function Placed(st: Store, d: string, before: set<string>): Store {
    Promote(MovedAll(Begun(st, d), d, before), d)
  }

  function ToRepoint(st: Store, after: set<string>): set<TableId> {
    set id | id in st.tables && id.branch in after
  }

  function RepointedAll(st: Store, d: string, before: set<string>, after: set<string>): Store {
    st.(tables := map id | id in st.tables :: if id.branch in after then Repointed(st, d, before, id) else st.tables[id])
  }

  /** The next key goes only when no branch stopped meanwhile. */
  function Unlinked(st: Store, d: string, before: set<string>, after: set<string>): Store {
    if before <= after then RemoveKey(st, NextOf(d)) else st
  }

  function Unrecorded(st: Store, d: string, before: set<string>, after: set<string>): Store {
    Unlinked(RepointedAll(Placed(st, d, before), d, before, after), d, before, after)
  }

  function Rotated(st: Store, d: string, before: set<string>, after: set<string>): Store {
    SetRecord(Unrecorded(st, d, before, after), d, Record(Gen(st, d) + 1, false))
  }

  function BeginCost(st: Store, d: string): nat {
    if Rec(st, d).pending then 1 else 3
  }

  /** The steps up to the moves, and all of them. */
  function MoveCost(st: Store, d: string, before: set<string>): nat {
    BeginCost(st, d) + 2 * |ToMove(st, d, before)|
  }

  function Cost(st: Store, d: string, before: set<string>, after: set<string>): nat {
    MoveCost(st, d, before) + 1 + |ToRepoint(st, after)| + (if before <= after then 1 else 0) + 1
  }

  // What a rotation leaves alone.

  /** Key files and records of other domains are as they were. */
  ghost predicate OthersKept(st: Store, r: Store, d: string) {
    && (forall n :: n != Domain(d) && n != NextOf(d) ==>
          (n in r.files <==> n in st.files) && (n in st.files ==> r.files[n] == st.files[n]))
    && (forall x :: x != d ==> (x in r.records <==> x in st.records) && (x in st.records ==> r.records[x] == st.records[x]))
  }

  lemma OthersKeptOn(a: Store, b: Store, c: Store, d: string)
    requires OthersKept(a, b, d) && OthersKept(b, c, d)
    ensures OthersKept(a, c, d)
  {
  }

  /** Under its own domain's key, as that is now, and nothing half done. */
  predicate MadeAgain(st: Store, t: Masks) {
    Domain(t.domain) in st.files && t.shadow == st.files[Domain(t.domain)] && t.live == Domain(t.domain) && t.second.None?
  }

  /** Up to the new key being in place, only tables of the domain on branches running at the start are touched. */
  predicate MovesOnly(st: Store, r: Store, d: string, before: set<string>) {
    && r.tables.Keys == st.tables.Keys && Gen(r, d) == Gen(st, d)
    && forall id :: id in st.tables ==>
         && r.tables[id].domain == st.tables[id].domain && r.tables[id].keyed == st.tables[id].keyed
         && (r.tables[id] == st.tables[id] || Touchable(st, d, before, id))
  }

  /** Tables a rotation has to move: of the domain, on a branch running at its start, and not on the next key yet. */
  predicate Touchable(st: Store, d: string, before: set<string>, id: TableId) {
    id in st.tables && st.tables[id].domain == d && st.tables[id].keyed && id.branch in before && st.tables[id].gen <= Gen(st, d)
  }

  lemma MovesOnlyOn(a: Store, b: Store, c: Store, d: string, before: set<string>)
    requires MovesOnly(a, b, d, before) && MovesOnly(b, c, d, before)
    ensures MovesOnly(a, c, d, before)
  {
  }

  /** After it, each table of a branch running then is as it was, or repointed. */
  ghost predicate PartRepointed(st: Store, r: Store, d: string, before: set<string>, after: set<string>) {
    && r.tables.Keys == st.tables.Keys
    && forall id :: id in st.tables ==>
         r.tables[id] == st.tables[id] || (id.branch in after && r.tables[id] == Repointed(st, d, before, id))
  }

  /**
   The frame of a rotation of `d`, wherever it stops: other domains keep their key files and records; on branches running
   at the start every table that is not keyed under `d`, or has a number beyond the next, is as it was; on branches
   started meanwhile a table is as it was or under its own domain's key and number, and that if the run finished; on
   all others nothing is touched.
   */
  ghost predicate Framed(st: Store, r: Store, d: string, before: set<string>, after: set<string>, finished: bool) {
    && OthersKept(st, r, d) && r.tables.Keys == st.tables.Keys
    && forall id :: id in st.tables ==> TableFramed(st, r, d, before, after, finished, id)
  }

  predicate TableFramed(st: Store, r: Store, d: string, before: set<string>, after: set<string>, finished: bool, id: TableId)
    requires id in st.tables && id in r.tables
  {
    var t, u := st.tables[id], r.tables[id];
    && u.domain == t.domain && u.keyed == t.keyed
    && if id.branch in before then (t.domain == d && t.keyed && t.gen <= Gen(st, d) + 1) || u == t
       else if id.branch in after then
         || (MadeAgain(r, u) && u.gen == Gen(st, t.domain))
         || (u == t && (finished ==> Domain(t.domain) !in r.files))
       else u == t
  }

  lemma SameGen(st: Store, r: Store, d: string, x: string)
    requires OthersKept(st, r, d) && Gen(r, d) == Gen(st, d)
    ensures Gen(r, x) == Gen(st, x)
  {
  }

  lemma RepointFrames(st: Store, placed: Store, r: Store, d: string, before: set<string>, after: set<string>, id: TableId)
    requires MovesOnly(st, placed, d, before) && PartRepointed(placed, r, d, before, after) && id in st.tables
    requires Gen(placed, st.tables[id].domain) == Gen(st, st.tables[id].domain)
    requires r.files == placed.files || r.files == placed.files - {NextOf(d)}
    ensures id in r.tables && TableFramed(st, r, d, before, after, false, id)
  {
  }

  lemma FrameOfRun(st: Store, placed: Store, r: Store, d: string, before: set<string>, after: set<string>)
    requires OthersKept(st, placed, d) && OthersKept(placed, r, d)
    requires MovesOnly(st, placed, d, before) && PartRepointed(placed, r, d, before, after)
    requires r.files == placed.files || r.files == placed.files - {NextOf(d)}
    ensures Framed(st, r, d, before, after, false)
  {
    OthersKeptOn(st, placed, r, d);
    hide OthersKept, TableFramed;
    forall id | id in st.tables ensures id in r.tables && TableFramed(st, r, d, before, after, false, id) {
      SameGen(st, placed, d, st.tables[id].domain);
      RepointFrames(st, placed, r, d, before, after, id);
    }
  }

  /** A run that finishes has made again every table of a branch started meanwhile. */
  lemma FinishedFrame(st: Store, d: string, before: set<string>, after: set<string>)
    requires Framed(st, Rotated(st, d, before, after), d, before, after, false)
    ensures Framed(st, Rotated(st, d, before, after), d, before, after, true)
  {
    var r := Rotated(st, d, before, after);
    forall id | id in st.tables ensures TableFramed(st, r, d, before, after, true, id) {
      assert TableFramed(st, r, d, before, after, false, id);
      if id.branch in after && id.branch !in before {
        MeanwhileMadeAgain(st, d, before, after, id);
      }
    }
  }

  lemma MeanwhileMadeAgain(st: Store, d: string, before: set<string>, after: set<string>, id: TableId)
    requires id in st.tables && id.branch in after && id.branch !in before
    ensures var r := Rotated(st, d, before, after);
      id in r.tables && (Domain(st.tables[id].domain) in r.files ==>
        MadeAgain(r, r.tables[id]) && r.tables[id].gen == Gen(st, st.tables[id].domain))
  {
    BegunKeeps(st, d);
    hide Begun;
  }

  /** The number of the key after a finished run: one more than there was, and a key that had none was the first. */
  lemma RotatedNumber(st: Store, d: string, before: set<string>, after: set<string>)
    ensures var r := Rotated(st, d, before, after);
      d in r.records && !r.records[d].pending
      && r.records[d].gen == if d in st.records && st.records[d].gen >= 1 then st.records[d].gen + 1 else 2
  {
  }

  // Branches that come and go.

  predicate Keyed(st: Store, d: string, id: TableId) {
    id in st.tables && st.tables[id].domain == d && st.tables[id].keyed
  }

  predicate NamesKey(t: Masks, n: KeyName) {
    t.live == n || t.second == Some(n)
  }

  /** No trigger of the domain, on any branch, names a key file that is not there. */
  ghost predicate AllNamesExist(st: Store, d: string) {
    forall id, n :: Keyed(st, d, id) && NamesKey(st.tables[id], n) ==> n in st.files
  }

  /** On every branch: no number beyond the one being moved to, and nothing half moved that has it. */
  ghost predicate Tidy(st: Store, d: string) {
    forall id :: Keyed(st, d, id) ==>
      st.tables[id].gen <= Gen(st, d) + 1 && (st.tables[id].gen == Gen(st, d) + 1 ==> st.tables[id].second.None?)
  }

  lemma TidyTable(st: Store, d: string, id: TableId, t: Masks)
    requires Tidy(st, d) && id in st.tables
    requires t.domain == d && t.keyed ==> t.gen <= Gen(st, d) + 1 && (t.gen == Gen(st, d) + 1 ==> t.second.None?)
    ensures Tidy(SetTable(st, id, t), d)
  {
    var r := SetTable(st, id, t);
    forall x | Keyed(r, d, x)
      ensures r.tables[x].gen <= Gen(r, d) + 1 && (r.tables[x].gen == Gen(r, d) + 1 ==> r.tables[x].second.None?)
    {
      assert x != id ==> Keyed(st, d, x);
    }
  }

  lemma TidyRepointed(st: Store, d: string, before: set<string>, id: TableId)
    requires Tidy(st, d) && id in st.tables
    ensures Tidy(SetTable(st, id, Repointed(st, d, before, id)), d)
  {
    assert Keyed(st, d, id) ==> st.tables[id].gen <= Gen(st, d) + 1;
    TidyTable(st, d, id, Repointed(st, d, before, id));
  }

  lemma TidyCarries(st: Store, r: Store, d: string)
    requires Tidy(st, d) && r.tables == st.tables && Gen(r, d) == Gen(st, d)
    ensures Tidy(r, d)
  {
    forall x | Keyed(r, d, x)
      ensures r.tables[x].gen <= Gen(r, d) + 1 && (r.tables[x].gen == Gen(r, d) + 1 ==> r.tables[x].second.None?)
    {
      assert Keyed(st, d, x);
    }
  }

  lemma TidyRecorded(st: Store, r: Store, d: string)
    requires Tidy(st, d) && r.tables == st.tables && Gen(r, d) == Gen(st, d) + 1
    ensures Tidy(r, d)
  {
    forall x | Keyed(r, d, x)
      ensures r.tables[x].gen <= Gen(r, d) + 1 && (r.tables[x].gen == Gen(r, d) + 1 ==> r.tables[x].second.None?)
    {
      assert Keyed(st, d, x);
    }
  }

  /** A table after the moves and the repointing of a run. */
  function Final(st: Store, d: string, before: set<string>, after: set<string>, id: TableId): Masks
    requires id in st.tables
  {
    RepointedAll(Placed(st, d, before), d, before, after).tables[id]
  }

  lemma BegunKeeps(st: Store, d: string)
    ensures var b := Begun(st, d);
      && b.tables == st.tables && Gen(b, d) == Gen(st, d) && Rec(b, d).pending && NextOf(d) in b.files
      && st.files.Keys <= b.files.Keys + {NextOf(d)} && b.files.Keys <= st.files.Keys + {NextOf(d)}
      && forall x :: Gen(b, x) == Gen(st, x)
  {
  }

  /** A trigger names the next key after a run exactly if it did before and its branch was not there at the end. */
  lemma StillNames(st: Store, d: string, before: set<string>, after: set<string>, id: TableId)
    requires Tidy(st, d) && Keyed(st, d, id) && before <= after
    ensures Keyed(RepointedAll(Placed(st, d, before), d, before, after), d, id)
    ensures NamesKey(Final(st, d, before, after, id), NextOf(d)) <==> NamesKey(st.tables[id], NextOf(d)) && id.branch !in after
    ensures forall n :: n != NextOf(d) && NamesKey(Final(st, d, before, after, id), n) ==> n == Domain(d) || NamesKey(st.tables[id], n)
  {
    BegunKeeps(st, d);
    hide Begun;
  }

  lemma StillExists(st: Store, d: string, before: set<string>, after: set<string>, id: TableId)
    requires Tidy(st, d) && Keyed(st, d, id)
    ensures Keyed(RepointedAll(Placed(st, d, before), d, before, after), d, id)
    ensures forall n :: NamesKey(Final(st, d, before, after, id), n) ==> n == NextOf(d) || n == Domain(d) || NamesKey(st.tables[id], n)
  {
    BegunKeeps(st, d);
    hide Begun;
  }

  lemma RotatedFiles(st: Store, d: string, before: set<string>, after: set<string>)
    ensures Rotated(st, d, before, after).files.Keys ==
      (st.files.Keys + {Domain(d), NextOf(d)}) - if before <= after then {NextOf(d)} else {}
    ensures Rotated(st, d, before, after).tables == RepointedAll(Placed(st, d, before), d, before, after).tables
    ensures Rotated(st, d, before, after).tables.Keys == st.tables.Keys
  {
    BegunKeeps(st, d);
    hide Begun;
  }

  /** What a run has to do with the names of one table's keys. */
  ghost predicate Carries(st: Store, r: Store, d: string, before: set<string>, after: set<string>, id: TableId) {
    && (Keyed(r, d, id) <==> Keyed(st, d, id))
    && (Keyed(st, d, id) ==>
          && (before <= after ==>
                (NamesKey(r.tables[id], NextOf(d)) <==> NamesKey(st.tables[id], NextOf(d)) && id.branch !in after))
          && forall n :: n != NextOf(d) && NamesKey(r.tables[id], n) ==> n == Domain(d) || NamesKey(st.tables[id], n))
  }

  lemma RotatedCarries(st: Store, d: string, before: set<string>, after: set<string>, id: TableId)
    requires Tidy(st, d)
    ensures Carries(st, Rotated(st, d, before, after), d, before, after, id)
  {
    RotatedFiles(st, d, before, after);
    if Keyed(st, d, id) {
      StillExists(st, d, before, after, id);
      if before <= after { StillNames(st, d, before, after, id); }
      hide Rotated, Placed, RepointedAll, Tidy;
    } else if Keyed(Rotated(st, d, before, after), d, id) {
      KeyedBack(st, d, before, after, id);
    }
  }

  /**
   Branches that are not there throughout: a finished run leaves no trigger of the domain, on any branch, with a key
   file that is gone, exactly if some branch stopped while it ran, so that the next key is kept, or every branch
   with a trigger that named the next key when the run started was there at its end. A branch that a cut-short run
   moved, and that stopped before the next run, is the one that fails it.
   */
  lemma FinishedNamesIff(st: Store, d: string, before: set<string>, after: set<string>)
    requires Tidy(st, d) && AllNamesExist(st, d)
    ensures AllNamesExist(Rotated(st, d, before, after), d) <==>
      !(before <= after) || forall id :: Keyed(st, d, id) && NamesKey(st.tables[id], NextOf(d)) ==> id.branch in after
  {
    var r := Rotated(st, d, before, after);
    RotatedFiles(st, d, before, after);
    forall id ensures Carries(st, r, d, before, after, id) {
      RotatedCarries(st, d, before, after, id);
    }
    hide Rotated, Placed, RepointedAll, Tidy;
    NamesIff(st, r, d, before, after);
  }

  lemma NamesIff(st: Store, r: Store, d: string, before: set<string>, after: set<string>)
    requires AllNamesExist(st, d) && forall id :: Carries(st, r, d, before, after, id)
    requires r.files.Keys == (st.files.Keys + {Domain(d), NextOf(d)}) - if before <= after then {NextOf(d)} else {}
    ensures AllNamesExist(r, d) <==>
      !(before <= after) || forall id :: Keyed(st, d, id) && NamesKey(st.tables[id], NextOf(d)) ==> id.branch in after
  {
    hide NamesKey;
    if AllNamesExist(r, d) && before <= after {
      forall id | Keyed(st, d, id) && NamesKey(st.tables[id], NextOf(d)) ensures id.branch in after {
        assert Carries(st, r, d, before, after, id);
      }
    }
    if !(before <= after) || forall id :: Keyed(st, d, id) && NamesKey(st.tables[id], NextOf(d)) ==> id.branch in after {
      forall id, n | Keyed(r, d, id) && NamesKey(r.tables[id], n) ensures n in r.files {
        assert Carries(st, r, d, before, after, id);
      }
    }
  }

  lemma KeyedBack(st: Store, d: string, before: set<string>, after: set<string>, id: TableId)
    requires Keyed(Rotated(st, d, before, after), d, id)
    ensures Keyed(st, d, id)
  {
    BegunKeeps(st, d);
    hide Begun;
  }

  // A run after the next key is gone.

  /** What a run started again does when nothing is left to move: it ensures the next key and puts it in place. */
  function RestartAndPromote(st: Store, d: string): Store {
    Promote(EnsureKey(st, NextOf(d)), d)
  }

  /** Of the branches running at its start, every table of the domain is on the new key. */
  predicate AllDone(st: Store, d: string, before: set<string>) {
    ToMove(st, d, before) == {}
  }

  /** With the rotation pending and nothing left to move, a run comes to that. */
  lemma RestartIsRotation(st: Store, d: string, before: set<string>)
    requires Rec(st, d).pending && AllDone(st, d, before)
    ensures Placed(st, d, before) == RestartAndPromote(st, d)
  {
    var b := Begun(st, d);
    assert ToMove(b, d, before) == {};
    assert MovedAll(b, d, before).tables == b.tables;
  }

  lemma SettledIsDone(st: Store, d: string, before: set<string>)
    requires Settled(st, d, before)
    ensures AllDone(st, d, before)
  {
    forall x | x in st.tables ensures x !in ToMove(st, d, before) {
      assert Mine(st, d, before, x) ==> st.tables[x].gen == Gen(st, d) + 1;
    }
  }

  /**
   Cut short after the next key is removed and before the record says so, the run that is started again makes a
   brand new key and puts it in place: every trigger then writes under a key its shadow was not made under. A run
   started again from a settled store leaves a table's shadow and its domain's key file in agreement exactly if the
   next key's file was still there.
   */
  lemma RestartIsSoundIff(st: Store, d: string, before: set<string>, after: set<string>, id: TableId)
    requires Settled(st, d, before) && Mine(st, d, before, id) && before <= after
    requires NextOf(d) in st.files ==> Promoted(st, d)
    ensures var r := Rotated(st, d, before, after);
      && Domain(d) in r.files && id in r.tables && r.tables[id].live == Domain(d)
      && (r.files[Domain(d)] == r.tables[id].shadow <==> NextOf(d) in st.files)
  {
    assert AllDone(st, d, before) by { SettledIsDone(st, d, before); }
    RestartIsRotation(st, d, before);
    var p := RestartAndPromote(st, d);
    assert Gen(p, d) == Gen(st, d) && p.tables == st.tables;
    assert Repointed(p, d, before, id) == st.tables[id].(live := Domain(d));
    hide Placed, ToMove;
  }
}
