/**
 Delivery is at least once: after a reconnect a copy is fed events it has already applied. When does it end where
 it was? Each column of a copy that is being fed a replayed stretch is either what it was before the replay or what
 the table held at that point of the stretch, and at the end of it the two are the same. So only the keys can go
 wrong, and a fold over the keys alone says whether they do.
 */
module Replay {
  import opened Wire
  import opened Replica

  /** No update of the stretch moves a row to another key. */
  predicate StaysPut(rel: Relation, op: Op) {
    op.Upd? ==> KeyValues(rel, op.row) == op.at
  }

  /**
   A column that a move did not send is, in the row that has the old key at the end, if there is one, what it was in
   the row that moved. So it is of every move that sends all columns, and of one whose old key is not taken again.
   */
  predicate MovesWhole(rel: Relation, tn: Table, op: Op) {
    op.Upd? && KeyValues(rel, op.row) != op.at && op.at in tn ==>
      forall n :: n in op.unsent && n in tn[op.at] && n in op.row ==> tn[op.at][n] == op.row[n]
  }

  /** Which keys a copy has after an event, from the keys it had. */
  function KeysAfterOne(rel: Relation, keys: set<Row>, op: Op): set<Row> {
    match op
    case Ins(row) => keys + {KeyValues(rel, row)}
    case Upd(at, row, _, _) => if at in keys then keys - {at} + {KeyValues(rel, row)} else keys
    case Del(at) => keys - {at}
    case Trunc => {}
  }

  function KeysAfter(rel: Relation, keys: set<Row>, ops: seq<Op>): set<Row>
    decreases |ops|
  {
    if ops == [] then keys else KeysAfter(rel, KeysAfterOne(rel, keys, ops[0]), ops[1..])
  }

  /** A column of the copy is the table's at this point of the stretch, or the one it had before. */
  predicate FromEither(copy: Table, t: Table, tn: Table, k: Row, c: string) {
    && k in copy && c in copy[k]
    && ((k in t && c in t[k] && copy[k][c] == t[k][c]) || (k in tn && c in tn[k] && copy[k][c] == tn[k][c]))
  }

  predicate BlendedAt(rel: Relation, copy: Table, t: Table, tn: Table, k: Row) {
    k in copy ==>
      IsRow(rel, copy[k]) && KeyValues(rel, copy[k]) == k && forall c :: c in Names(rel) ==> FromEither(copy, t, tn, k, c)
  }

  ghost predicate Blended(rel: Relation, copy: Table, t: Table, tn: Table) {
    forall k :: BlendedAt(rel, copy, t, tn, k)
  }

  /** A row of the copy stays blended if the table keeps its row of that key, or had none. */
  lemma OthersStay(rel: Relation, copy: Table, copy2: Table, t: Table, t2: Table, tn: Table, x: Row)
    requires BlendedAt(rel, copy, t, tn, x)
    requires x in t ==> x in t2 && t[x] == t2[x]
    requires x in copy2 ==> x in copy && copy[x] == copy2[x]
    ensures BlendedAt(rel, copy2, t2, tn, x)
  {
    hide KeyValues;
    if x in copy2 {
      forall c | c in Names(rel) ensures FromEither(copy2, t2, tn, x, c) {
        assert FromEither(copy, t, tn, x, c);
      }
    }
  }

  /** What both hold alike is blended. */
  lemma AlikeBlends(rel: Relation, copy: Table, t: Table, tn: Table, k: Row)
    requires k in copy ==> k in t && copy[k] == t[k] && IsRow(rel, t[k]) && KeyValues(rel, t[k]) == k
    ensures BlendedAt(rel, copy, t, tn, k)
  {
    hide KeyValues;
  }

  // One event on a blended copy.

  lemma InsertBlends(rel: Relation, copy: Table, t: Table, tn: Table, row: Row)
    requires IsRow(rel, row) && Blended(rel, copy, t, tn)
    ensures var k := KeyValues(rel, row); Blended(rel, copy[k := row], t[k := row], tn)
  {
    var k := KeyValues(rel, row);
    hide KeyValues;
    var copy2: Table, t2: Table := copy[k := row], t[k := row];
    forall x ensures BlendedAt(rel, copy2, t2, tn, x) {
      assert BlendedAt(rel, copy, t, tn, x);
      if x == k {
        AlikeBlends(rel, copy2, t2, tn, x);
      } else {
        OthersStay(rel, copy, copy2, t, t2, tn, x);
      }
    }
  }

  lemma DeleteBlends(rel: Relation, copy: Table, t: Table, tn: Table, k: Row)
    requires Blended(rel, copy, t, tn)
    ensures Blended(rel, copy - {k}, t - {k}, tn)
  {
    hide KeyValues;
    var copy2: Table, t2: Table := copy - {k}, t - {k};
    forall x ensures BlendedAt(rel, copy2, t2, tn, x) {
      assert BlendedAt(rel, copy, t, tn, x);
      if x != k {
        OthersStay(rel, copy, copy2, t, t2, tn, x);
      }
    }
  }

  lemma ExecInPlace(rel: Relation, t: Table, op: Op)
    requires op.Upd? && Allowed(rel, t, op) && StaysPut(rel, op)
    ensures Exec(rel, t, op) == t[op.at := op.row] && op.at in t && IsRow(rel, op.row)
    ensures forall n :: n in op.unsent && n in t[op.at] && n in op.row ==> op.row[n] == t[op.at][n]
  {
    hide KeyValues;
  }

  lemma ApplyInPlace(rel: Relation, copy: Table, op: Op, c: RowChange)
    requires op.Upd? && StaysPut(rel, op) && IsRow(rel, op.row) && op.at in copy
    requires IsRow(rel, copy[op.at]) && KeyValues(rel, copy[op.at]) == op.at
    requires c.action == Update && c.identity == op.at && c.new_ == op.row - op.unsent
    ensures Apply(rel, copy, c) == copy[op.at := copy[op.at] + c.new_] && KeyValues(rel, copy[op.at] + c.new_) == op.at
  {
    OverlaidKey(rel, copy[op.at], op);
    hide KeyValues;
  }

  /** An update in place on a copy that has the row: sent columns from the table, the others as they were. */
  lemma OverlayBlends(rel: Relation, copy: Table, t: Table, tn: Table, k: Row, row: Row, unsent: set<string>)
    requires IsRow(rel, row) && k in t && k in copy && BlendedAt(rel, copy, t, tn, k)
    requires forall n :: n in unsent && n in t[k] && n in row ==> row[n] == t[k][n]
    requires KeyValues(rel, copy[k] + (row - unsent)) == k
    ensures BlendedAt(rel, copy[k := copy[k] + (row - unsent)], t[k := row], tn, k)
  {
    hide KeyValues;
    var copy2: Table, t2: Table := copy[k := copy[k] + (row - unsent)], t[k := row];
    forall n | n in Names(rel) ensures FromEither(copy2, t2, tn, k, n) {
      assert FromEither(copy, t, tn, k, n);
    }
  }

  lemma OverlaidKey(rel: Relation, was: Row, op: Op)
    requires op.Upd? && IsRow(rel, was) && IsRow(rel, op.row) && KeyValues(rel, was) == op.at == KeyValues(rel, op.row)
    ensures KeyValues(rel, was + (op.row - op.unsent)) == op.at
  {
    var row := was + (op.row - op.unsent);
    forall n | n in KeyNames(rel) && n in row ensures row[n] == was[n] {
      assert n in op.row && n in was;
      assert KeyValues(rel, was)[n] == KeyValues(rel, op.row)[n];
    }
  }

  lemma InPlaceBlends(rel: Relation, copy: Table, t: Table, tn: Table, op: Op, c: RowChange)
    requires op.Upd? && Allowed(rel, t, op) && StaysPut(rel, op) && Blended(rel, copy, t, tn)
    requires c.action == Update && c.identity == op.at && c.new_ == op.row - op.unsent
    ensures Blended(rel, Apply(rel, copy, c), Exec(rel, t, op), tn) && Apply(rel, copy, c).Keys == copy.Keys
  {
    hide KeyValues;
    var copy2, t2 := Apply(rel, copy, c), Exec(rel, t, op);
    ExecInPlace(rel, t, op);
    hide Allowed, Exec, StaysPut;
    assert BlendedAt(rel, copy, t, tn, op.at);
    if op.at in copy {
      ApplyInPlace(rel, copy, op, c);
      OverlayBlends(rel, copy, t, tn, op.at, op.row, op.unsent);
    }
    forall x ensures BlendedAt(rel, copy2, t2, tn, x) {
      assert BlendedAt(rel, copy, t, tn, x);
      if x != op.at {
        hide Apply;
        OthersStay(rel, copy, copy2, t, t2, tn, x);
      }
    }
  }

  /** What a move carries over is the moved row, whichever of the two the copy held under the old key. */
  lemma CarriedWhole(rel: Relation, copy: Table, t: Table, tn: Table, op: Op)
    requires op.Upd? && Allowed(rel, t, op) && !StaysPut(rel, op) && MovesWhole(rel, tn, op)
    requires op.at in copy && BlendedAt(rel, copy, t, tn, op.at)
    ensures copy[op.at] + (op.row - op.unsent) == op.row
  {
    hide KeyValues;
    var was := copy[op.at];
    forall n | n in op.unsent && n in was && n in op.row ensures op.row[n] == was[n] {
      assert FromEither(copy, t, tn, op.at, n);
    }
    OverlayRestores(rel, was, op.row, op.unsent);
  }

  lemma MoveBlends(rel: Relation, copy: Table, t: Table, tn: Table, op: Op, c: RowChange)
    requires op.Upd? && Allowed(rel, t, op) && !StaysPut(rel, op) && MovesWhole(rel, tn, op) && Blended(rel, copy, t, tn)
    requires c.action == Update && c.identity == op.at && c.new_ == op.row - op.unsent
    ensures Blended(rel, Apply(rel, copy, c), Exec(rel, t, op), tn)
    ensures Apply(rel, copy, c).Keys == KeysAfterOne(rel, copy.Keys, op)
  {
    hide KeyValues;
    var k, copy2, t2 := KeyValues(rel, op.row), Apply(rel, copy, c), Exec(rel, t, op);
    assert BlendedAt(rel, copy, t, tn, op.at);
    if op.at in copy {
      CarriedWhole(rel, copy, t, tn, op);
      OverlayApplies(rel, copy, c, op.row);
      assert copy2 == (copy - {op.at})[k := op.row];
    }
    assert t2 == (t - {op.at})[k := op.row] && k !in t;
    hide Apply, Exec, Allowed, MovesWhole, StaysPut;
    forall x ensures BlendedAt(rel, copy2, t2, tn, x) {
      assert BlendedAt(rel, copy, t, tn, x);
      if x == k && op.at in copy {
        AlikeBlends(rel, copy2, t2, tn, x);
      } else if x != op.at {
        OthersStay(rel, copy, copy2, t, t2, tn, x);
      }
    }
  }

  lemma UpdateBlends(rel: Relation, copy: Table, t: Table, tn: Table, op: Op, c: RowChange)
    requires op.Upd? && Allowed(rel, t, op) && MovesWhole(rel, tn, op) && Blended(rel, copy, t, tn)
    requires c.action == Update && c.identity == op.at && c.new_ == op.row - op.unsent
    ensures Blended(rel, Apply(rel, copy, c), Exec(rel, t, op), tn)
    ensures Apply(rel, copy, c).Keys == KeysAfterOne(rel, copy.Keys, op)
  {
    hide KeyValues, Apply, Exec, Allowed, MovesWhole, Blended;
    if StaysPut(rel, op) {
      InPlaceBlends(rel, copy, t, tn, op, c);
    } else {
      MoveBlends(rel, copy, t, tn, op, c);
    }
  }

  lemma StepBlends(rel: Relation, copy: Table, t: Table, tn: Table, op: Op)
    requires WellFormed(rel) && IsTable(rel, t) && Allowed(rel, t, op) && Locatable(rel, op) && MovesWhole(rel, tn, op)
    requires Blended(rel, copy, t, tn)
    ensures Blended(rel, Apply(rel, copy, Sent(rel, t, op)), Exec(rel, t, op), tn)
    ensures Apply(rel, copy, Sent(rel, t, op)).Keys == KeysAfterOne(rel, copy.Keys, op)
  {
    hide Blended, KeyValues, Sent;
    match op
    case Ins(row) =>
      InsertSent(rel, t, row);
      InsertBlends(rel, copy, t, tn, row);
    case Upd(at, row, unsent, withOld) =>
      IdentityIsOldKeyIff(rel, t, op);
      hide Apply, Exec, KeysAfterOne;
      UpdateBlends(rel, copy, t, tn, op, Sent(rel, t, op));
    case Del(at) =>
      DeleteSent(rel, t, at);
      DeleteBlends(rel, copy, t, tn, at);
    case Trunc =>
      TruncateSent(rel, t);
      NothingBlends(rel, tn);
  }

  lemma NothingBlends(rel: Relation, tn: Table)
    ensures Blended(rel, map[], map[], tn)
  {
  }

  // A whole stretch.

  lemma {:induction false} MirrorBlends(rel: Relation, t: Table, copy: Table, tn: Table, ops: seq<Op>)
    requires WellFormed(rel) && IsTable(rel, t) && AllowedAll(rel, t, ops) && Blended(rel, copy, t, tn)
    requires forall i :: 0 <= i < |ops| ==> Locatable(rel, ops[i]) && MovesWhole(rel, tn, ops[i])
    ensures Blended(rel, Mirror(rel, t, copy, ops), ExecAll(rel, t, ops), tn)
    ensures Mirror(rel, t, copy, ops).Keys == KeysAfter(rel, copy.Keys, ops)
    decreases |ops|
  {
    hide Blended, KeysAfterOne, Locatable, MovesWhole;
    if ops != [] {
      StepBlends(rel, copy, t, tn, ops[0]);
      ExecKeepsTable(rel, t, ops[0]);
      MirrorBlends(rel, Exec(rel, t, ops[0]), Apply(rel, copy, Sent(rel, t, ops[0])), tn, ops[1..]);
    }
  }

  lemma {:induction false} ExecAllKeepsTable(rel: Relation, t: Table, ops: seq<Op>)
    requires IsTable(rel, t) && AllowedAll(rel, t, ops)
    ensures IsTable(rel, ExecAll(rel, t, ops))
    decreases |ops|
  {
    if ops != [] {
      ExecKeepsTable(rel, t, ops[0]);
      ExecAllKeepsTable(rel, Exec(rel, t, ops[0]), ops[1..]);
    }
  }

  lemma BlendedWithItself(rel: Relation, copy: Table, tn: Table)
    requires WellFormed(rel) && IsTable(rel, tn) && Blended(rel, copy, tn, tn)
    ensures copy == tn <==> copy.Keys == tn.Keys
  {
    hide KeyValues;
    forall k | k in copy && k in tn ensures copy[k] == tn[k] {
      assert BlendedAt(rel, copy, tn, tn, k);
      forall c | c in Names(rel) ensures copy[k][c] == tn[k][c] {
        assert FromEither(copy, tn, tn, k, c);
      }
    }
  }

  lemma TableBlends(rel: Relation, t: Table, tn: Table)
    requires IsTable(rel, tn)
    ensures Blended(rel, tn, t, tn)
  {
    hide KeyValues;
    forall k ensures BlendedAt(rel, tn, t, tn, k) {
    }
  }

  /**
   A copy that has followed the table through a stretch of statements, and is then fed the events of that stretch
   once more, ends equal to the table again, unsent columns included, exactly when the events take the keys the table
   ended with back to themselves.
   */
  lemma ReplayEndsEqualIff(rel: Relation, t: Table, ops: seq<Op>)
    requires WellFormed(rel) && IsTable(rel, t) && AllowedAll(rel, t, ops)
    requires forall i :: 0 <= i < |ops| ==> Locatable(rel, ops[i]) && MovesWhole(rel, ExecAll(rel, t, ops), ops[i])
    ensures Mirror(rel, t, Mirror(rel, t, t, ops), ops) == ExecAll(rel, t, ops)
      <==> KeysAfter(rel, ExecAll(rel, t, ops).Keys, ops) == ExecAll(rel, t, ops).Keys
  {
    ReplicaEqualsSource(rel, t, ops);
    var tn := ExecAll(rel, t, ops);
    ExecAllKeepsTable(rel, t, ops);
    TableBlends(rel, t, tn);
    hide Blended, ExecAll, Mirror, KeysAfter, MovesWhole, Locatable;
    MirrorBlends(rel, t, tn, tn, ops);
    BlendedWithItself(rel, Mirror(rel, t, tn, ops), tn);
  }

  // Where no row moves, the keys always end where they were.

  predicate KeyBetween(keys: set<Row>, now: set<Row>, end: set<Row>, k: Row) {
    if k in keys then k in now || k in end else k !in now || k !in end
  }

  lemma KeysStayBetween(rel: Relation, keys: set<Row>, t: Table, end: set<Row>, op: Op)
    requires Allowed(rel, t, op) && StaysPut(rel, op)
    requires forall k :: KeyBetween(keys, t.Keys, end, k)
    ensures forall k :: KeyBetween(KeysAfterOne(rel, keys, op), Exec(rel, t, op).Keys, end, k)
  {
    hide KeyValues, IsRow;
    forall k ensures KeyBetween(KeysAfterOne(rel, keys, op), Exec(rel, t, op).Keys, end, k) {
      assert KeyBetween(keys, t.Keys, end, k);
    }
  }

  lemma {:induction false} KeysEndBetween(rel: Relation, keys: set<Row>, t: Table, end: set<Row>, ops: seq<Op>)
    requires AllowedAll(rel, t, ops) && forall i :: 0 <= i < |ops| ==> StaysPut(rel, ops[i])
    requires forall k :: KeyBetween(keys, t.Keys, end, k)
    ensures forall k :: KeyBetween(KeysAfter(rel, keys, ops), ExecAll(rel, t, ops).Keys, end, k)
    decreases |ops|
  {
    hide StaysPut, KeysAfterOne, KeyBetween, Allowed, Exec;
    if ops != [] {
      KeysStayBetween(rel, keys, t, end, ops[0]);
      KeysEndBetween(rel, KeysAfterOne(rel, keys, ops[0]), Exec(rel, t, ops[0]), end, ops[1..]);
    }
  }

  /** So a replayed stretch in which no row moves to another key always ends where it was, unsent columns included. */
  lemma ReplayedStretchEndsEqual(rel: Relation, t: Table, ops: seq<Op>)
    requires WellFormed(rel) && IsTable(rel, t) && AllowedAll(rel, t, ops)
    requires forall i :: 0 <= i < |ops| ==> Locatable(rel, ops[i]) && StaysPut(rel, ops[i])
    ensures Mirror(rel, t, Mirror(rel, t, t, ops), ops) == ExecAll(rel, t, ops)
  {
    var tn := ExecAll(rel, t, ops);
    KeysEndBetween(rel, tn.Keys, t, tn.Keys, ops);
    hide KeysAfter, ExecAll, Mirror;
    forall k ensures k in KeysAfter(rel, tn.Keys, ops) <==> k in tn.Keys {
      assert KeyBetween(KeysAfter(rel, tn.Keys, ops), tn.Keys, tn.Keys, k);
    }
    ReplayEndsEqualIff(rel, t, ops);
  }

  /**
   Where the keys do not come back: a row deleted and another moved to its key, all columns sent. Fed the two events again, the copy
   deletes the row that was moved, does not find the one it was moved from, and ends without it.
   */
  lemma ReplayedMoveIsLost(rel: Relation, a: Row, b: Row, moved: Row)
    requires WellFormed(rel) && IsRow(rel, a) && IsRow(rel, b) && IsRow(rel, moved)
    requires KeyValues(rel, a) != KeyValues(rel, b) && KeyValues(rel, moved) == KeyValues(rel, b)
    ensures var ka, kb := KeyValues(rel, a), KeyValues(rel, b);
      var t, ops := map[ka := a, kb := b], [Del(kb), Upd(ka, moved, {}, true)];
      && AllowedAll(rel, t, ops) && IsTable(rel, t) && ExecAll(rel, t, ops) == map[kb := moved]
      && Mirror(rel, t, Mirror(rel, t, t, ops), ops) == map[]
  {
    hide KeyValues;
    var ka, kb := KeyValues(rel, a), KeyValues(rel, b);
    var t: Table, t1: Table, tn: Table := map[ka := a, kb := b], map[ka := a], map[kb := moved];
    var del, upd := Del(kb), Upd(ka, moved, {}, true);
    hide Sent, Apply, Exec, Allowed;
    MoveOnto(rel, ka, kb, a, b, moved);
    DeleteSent(rel, t, kb);
    IdentityIsOldKeyIff(rel, t1, upd);
    Removed(rel, tn, kb, Sent(rel, t, del));
    NotFound(rel, map[], Sent(rel, t1, upd));
    assert tn - {kb} == map[];
    TwoReplayed(rel, t, t1, tn, del, upd);
  }

  /**
   Where they do and a column does not: a move that leaves a column unsent, and another row put under the old key. Fed
   the two events again, the copy finds that other row under the old key and carries its column over to the new one.
   */
  lemma ReplayedMoveTakesColumn(rel: Relation, a: Row, moved: Row, next: Row, c: string)
    requires WellFormed(rel) && IsRow(rel, a) && IsRow(rel, moved) && IsRow(rel, next)
    requires c in Names(rel) && c !in KeyNames(rel) && moved[c] == a[c] != next[c]
    requires KeyValues(rel, next) == KeyValues(rel, a) != KeyValues(rel, moved)
    ensures var ka, kb := KeyValues(rel, a), KeyValues(rel, moved);
      var t, ops := map[ka := a], [Upd(ka, moved, {c}, true), Ins(next)];
      && IsTable(rel, t) && AllowedAll(rel, t, ops) && ExecAll(rel, t, ops) == map[kb := moved, ka := next]
      && KeysAfter(rel, ExecAll(rel, t, ops).Keys, ops) == ExecAll(rel, t, ops).Keys
      && Mirror(rel, t, Mirror(rel, t, t, ops), ops) == map[kb := moved[c := next[c]], ka := next]
  {
    hide KeyValues, KeyNames, Names, Sent, Exec, Allowed, Apply, KeysAfter, Mirror, ExecAll, AllowedAll, IsTable;
    var ka, kb := KeyValues(rel, a), KeyValues(rel, moved);
    var t: Table, t1: Table, tn: Table := map[ka := a], map[kb := moved], map[kb := moved, ka := next];
    var upd, ins := Upd(ka, moved, {c}, true), Ins(next);
    MoveThenTake(rel, ka, kb, a, moved, next, c);
    IdentityIsOldKeyIff(rel, t, upd);
    InsertSent(rel, t1, next);
    TakesOver(rel, ka, kb, moved, next, c, Sent(rel, t, upd), Sent(rel, t1, ins));
    TwoReplayed(rel, t, t1, tn, upd, ins);
    KeysTakenAgain(rel, tn.Keys, ka, kb, upd, ins);
  }

  lemma TakesOver(rel: Relation, ka: Row, kb: Row, moved: Row, next: Row, c: string, e1: RowChange, e2: RowChange)
    requires IsRow(rel, moved) && IsRow(rel, next) && c in Names(rel) && c !in KeyNames(rel)
    requires KeyValues(rel, moved) == kb && ka != kb
    requires e1.action == Update && e1.identity == ka && e1.new_ == moved - {c}
    requires e2.action == Insert && e2.identity == ka && e2.new_ == next
    ensures Apply(rel, Apply(rel, map[kb := moved, ka := next], e1), e2) == map[kb := moved[c := next[c]], ka := next]
  {
    var tn: Table, mixed := map[kb := moved, ka := next], moved[c := next[c]];
    CarriesColumn(rel, moved, next, c);
    hide KeyValues;
    WithoutSecond(kb, ka, moved, next);
    OverlayApplies(rel, tn, e1, mixed);
    assert map[kb := moved][kb := mixed] == map[kb := mixed];
    assert map[kb := mixed][ka := next] == map[kb := mixed, ka := next];
  }

  lemma CarriesColumn(rel: Relation, moved: Row, next: Row, c: string)
    requires IsRow(rel, moved) && IsRow(rel, next) && c in Names(rel) && c !in KeyNames(rel)
    ensures next + (moved - {c}) == moved[c := next[c]]
    ensures KeyValues(rel, moved[c := next[c]]) == KeyValues(rel, moved)
  {
  }

  lemma MoveThenTake(rel: Relation, ka: Row, kb: Row, a: Row, moved: Row, next: Row, c: string)
    requires IsRow(rel, a) && IsRow(rel, moved) && IsRow(rel, next) && c in Names(rel) && moved[c] == a[c] && ka != kb
    requires KeyValues(rel, a) == ka && KeyValues(rel, moved) == kb && KeyValues(rel, next) == ka
    ensures var t, t1, tn: Table := map[ka := a], map[kb := moved], map[kb := moved, ka := next];
      var upd, ins := Upd(ka, moved, {c}, true), Ins(next);
      && IsTable(rel, t) && IsTable(rel, t1) && Allowed(rel, t, upd) && Exec(rel, t, upd) == t1
      && Allowed(rel, t1, ins) && Exec(rel, t1, ins) == tn
  {
    hide KeyValues;
    var t: Table, t1: Table := map[ka := a], map[kb := moved];
    assert t - {ka} == map[];
    assert t1[ka := next] == map[kb := moved, ka := next];
  }

  lemma KeysTakenAgain(rel: Relation, keys: set<Row>, ka: Row, kb: Row, upd: Op, ins: Op)
    requires upd.Upd? && upd.at == ka && KeyValues(rel, upd.row) == kb && ins.Ins? && KeyValues(rel, ins.row) == ka
    requires keys == {ka, kb}
    ensures KeysAfter(rel, keys, [upd, ins]) == keys
  {
    hide KeyValues;
    assert [upd, ins][1..] == [ins] && [ins][1..] == [];
    var after := KeysAfterOne(rel, keys, upd);
    assert KeysAfter(rel, after, [ins]) == KeysAfter(rel, KeysAfterOne(rel, after, ins), []);
    assert KeysAfterOne(rel, after, ins) == keys;
  }

  lemma MoveOnto(rel: Relation, ka: Row, kb: Row, a: Row, b: Row, moved: Row)
    requires IsRow(rel, a) && IsRow(rel, b) && IsRow(rel, moved) && ka != kb
    requires KeyValues(rel, a) == ka && KeyValues(rel, b) == kb && KeyValues(rel, moved) == kb
    ensures var t, t1, tn: Table := map[ka := a, kb := b], map[ka := a], map[kb := moved];
      var del, upd := Del(kb), Upd(ka, moved, {}, true);
      && IsTable(rel, t) && IsTable(rel, t1) && Allowed(rel, t, del) && Exec(rel, t, del) == t1
      && Allowed(rel, t1, upd) && Exec(rel, t1, upd) == tn
  {
    var t: Table, t1: Table, tn: Table := map[ka := a, kb := b], map[ka := a], map[kb := moved];
    hide KeyValues, IsRow;
    assert t - {kb} == t1 by { WithoutSecond(ka, kb, a, b); }
    assert (t1 - {ka})[kb := moved] == tn;
    assert kb !in t1;
    MovesTo(rel, t1, ka, kb, moved);
  }

  lemma WithoutSecond(ka: Row, kb: Row, a: Row, b: Row)
    requires ka != kb
    ensures map[ka := a, kb := b] - {kb} == map[ka := a]
  {
    var t := map[ka := a, kb := b];
    assert forall k :: k in t <==> k == ka || k == kb;
    assert (t - {kb}).Keys == {ka};
  }

  lemma MovesTo(rel: Relation, t1: Table, ka: Row, kb: Row, moved: Row)
    requires ka in t1 && kb !in t1 && IsRow(rel, moved) && KeyValues(rel, moved) == kb
    ensures var upd := Upd(ka, moved, {}, true);
      Allowed(rel, t1, upd) && Exec(rel, t1, upd) == (t1 - {ka})[kb := moved]
  {
    hide KeyValues;
  }

  lemma Removed(rel: Relation, copy: Table, k: Row, c: RowChange)
    requires c.action == Delete && c.identity == k
    ensures Apply(rel, copy, c) == copy - {k}
  {
  }

  lemma NotFound(rel: Relation, copy: Table, c: RowChange)
    requires c.action == Update && c.identity !in copy
    ensures Apply(rel, copy, c) == copy
  {
  }

  lemma OneMirrored(rel: Relation, t: Table, copy: Table, op: Op)
    requires WellFormed(rel) && IsTable(rel, t) && Allowed(rel, t, op)
    ensures AllowedAll(rel, t, [op]) && ExecAll(rel, t, [op]) == Exec(rel, t, op)
    ensures Mirror(rel, t, copy, [op]) == Apply(rel, copy, Sent(rel, t, op))
  {
    hide Apply, Sent, Exec, Allowed;
    assert [op][1..] == [];
    ExecKeepsTable(rel, t, op);
    assert AllowedAll(rel, Exec(rel, t, op), []) && ExecAll(rel, Exec(rel, t, op), []) == Exec(rel, t, op);
    assert forall c :: Mirror(rel, Exec(rel, t, op), c, []) == c;
  }

  lemma TwoMirrored(rel: Relation, t: Table, t1: Table, copy: Table, a: Op, b: Op)
    requires WellFormed(rel) && IsTable(rel, t) && Allowed(rel, t, a) && t1 == Exec(rel, t, a) && Allowed(rel, t1, b)
    ensures AllowedAll(rel, t, [a, b]) && ExecAll(rel, t, [a, b]) == Exec(rel, t1, b) && IsTable(rel, t1)
    ensures Mirror(rel, t, copy, [a, b]) == Apply(rel, Apply(rel, copy, Sent(rel, t, a)), Sent(rel, t1, b))
  {
    ExecKeepsTable(rel, t, a);
    hide Apply, Sent, Exec, Allowed;
    assert [a, b][1..] == [b];
    OneMirrored(rel, t1, Apply(rel, copy, Sent(rel, t, a)), b);
  }

  lemma TwoReplayed(rel: Relation, t: Table, t1: Table, tn: Table, a: Op, b: Op)
    requires WellFormed(rel) && IsTable(rel, t) && IsTable(rel, t1) && Locatable(rel, a) && Locatable(rel, b)
    requires Allowed(rel, t, a) && t1 == Exec(rel, t, a) && Allowed(rel, t1, b) && tn == Exec(rel, t1, b)
    ensures AllowedAll(rel, t, [a, b]) && ExecAll(rel, t, [a, b]) == tn
    ensures Mirror(rel, t, Mirror(rel, t, t, [a, b]), [a, b]) == Apply(rel, Apply(rel, tn, Sent(rel, t, a)), Sent(rel, t1, b))
  {
    hide Apply, Sent, Exec, Allowed, Locatable;
    TwoMirrored(rel, t, t1, tn, a, b);
    ReplicaEqualsSource(rel, t, [a, b]);
  }
}
