/**
 Does a copy fed by change events equal the source table?

 The source is a table whose rows are unique by the columns flagged as the replica
 identity. Each statement is encoded as the server encodes it: the new tuple with
 untouched TOASTed columns marked unsent, and an old tuple when one is sent at all
 (the whole row under FULL, otherwise the key columns with nulls elsewhere). The
 subscriber sees only `BuildChange` of those tuples.
 */
module Replica {
  import opened Wrappers
  import opened Wire

  /** Rows by key. */
  type Table = map<Row, Row>

  datatype Op =
    | Ins(row: Row)
    | Upd(at: Row, row: Row, unsent: set<string>, withOld: bool)
    | Del(at: Row)
    | Trunc

  predicate WellFormed(rel: Relation) {
    && (forall i, j :: 0 <= i < j < |rel.columns| ==> rel.columns[i].name != rel.columns[j].name)
    && KeyNames(rel) != {}
  }

  predicate IsRow(rel: Relation, r: Row) {
    r.Keys == Names(rel)
  }

  predicate IsTable(rel: Relation, t: Table) {
    forall k :: k in t ==> IsRow(rel, t[k]) && KeyValues(rel, t[k]) == k
  }

  /** What the source accepts, and what the server may leave out of the stream. */
  predicate Allowed(rel: Relation, t: Table, op: Op) {
    match op
    case Ins(row) => IsRow(rel, row) && KeyValues(rel, row) !in t
    case Upd(at, row, unsent, withOld) =>
      && at in t && IsRow(rel, row) && unsent <= Names(rel)
      && (KeyValues(rel, row) == at || KeyValues(rel, row) !in t)
      && (forall n :: n in unsent && n in t[at] && n in row ==> row[n] == t[at][n])
      && (KeyValues(rel, row) != at || rel.identity == IDENTITY_FULL ==> withOld)
    case Del(at) => at in t
    case Trunc => true
  }

  /** The row can be located: from an old tuple, or from a new one that carries the whole key. */
  predicate Locatable(rel: Relation, op: Op) {
    op.Upd? ==> op.withOld || op.unsent !! KeyNames(rel)
  }

  function Exec(rel: Relation, t: Table, op: Op): Table
    requires Allowed(rel, t, op)
  {
    match op
    case Ins(row) => t[KeyValues(rel, row) := row]
    case Upd(at, row, _, _) => (t - {at})[KeyValues(rel, row) := row]
    case Del(at) => t - {at}
    case Trunc => map[]
  }

  function Cell(v: Value): ColumnValue {
    match v
    case None => ColumnValue(KIND_NULL, "")
    case Some(s) => ColumnValue(KIND_TEXT, s)
  }

  function TupleOf(rel: Relation, r: Row, unsent: set<string>): seq<ColumnValue>
    requires IsRow(rel, r)
  {
    seq(|rel.columns|, i requires 0 <= i < |rel.columns| =>
      if rel.columns[i].name in unsent then ColumnValue(KIND_UNCHANGED, "") else Cell(r[rel.columns[i].name]))
  }

  function KeyTuple(rel: Relation, r: Row): seq<ColumnValue>
    requires IsRow(rel, r)
  {
    seq(|rel.columns|, i requires 0 <= i < |rel.columns| =>
      if rel.columns[i].key then Cell(r[rel.columns[i].name]) else ColumnValue(KIND_NULL, ""))
  }

  function OldTuple(rel: Relation, r: Row): seq<ColumnValue>
    requires IsRow(rel, r)
  {
    if rel.identity == IDENTITY_FULL then TupleOf(rel, r, {}) else KeyTuple(rel, r)
  }

  /** What the decoder builds from the server's encoding of a statement. */
  function Sent(rel: Relation, t: Table, op: Op): RowChange
    requires IsTable(rel, t) && Allowed(rel, t, op)
  {
    match op
    case Ins(row) => BuildChange(rel, Insert, [], TupleOf(rel, row, {}))
    case Upd(at, row, unsent, withOld) =>
      BuildChange(rel, Update, if withOld then OldTuple(rel, t[at]) else [], TupleOf(rel, row, unsent))
    case Del(at) => BuildChange(rel, Delete, OldTuple(rel, t[at]), [])
    case Trunc => BuildChange(rel, Truncate, [], [])
  }

  /** The subscriber's side: locate by `identity`, overlay `new`, leave unsent columns alone. */
  function Apply(rel: Relation, copy: Table, c: RowChange): Table {
    match c.action
    case Insert => copy[c.identity := c.new_]
    case Update =>
      if c.identity in copy then
        var row := copy[c.identity] + c.new_;
        (copy - {c.identity})[KeyValues(rel, row) := row]
      else copy
    case Delete => copy - {c.identity}
    case Truncate => map[]
  }

  function ExecAll(rel: Relation, t: Table, ops: seq<Op>): Table
    requires AllowedAll(rel, t, ops)
    decreases |ops|
  {
    if ops == [] then t else ExecAll(rel, Exec(rel, t, ops[0]), ops[1..])
  }

  predicate AllowedAll(rel: Relation, t: Table, ops: seq<Op>)
    decreases |ops|
  {
    ops == [] || (Allowed(rel, t, ops[0]) && AllowedAll(rel, Exec(rel, t, ops[0]), ops[1..]))
  }

  /** The events a whole history puts on the feed, applied to a copy in order. */
  function Mirror(rel: Relation, t: Table, copy: Table, ops: seq<Op>): Table
    requires WellFormed(rel) && IsTable(rel, t) && AllowedAll(rel, t, ops)
    decreases |ops|
  {
    if ops == [] then copy
    else
      ExecKeepsTable(rel, t, ops[0]);
      Mirror(rel, Exec(rel, t, ops[0]), Apply(rel, copy, Sent(rel, t, ops[0])), ops[1..])
  }

  lemma ExecKeepsTable(rel: Relation, t: Table, op: Op)
    requires IsTable(rel, t) && Allowed(rel, t, op)
    ensures IsTable(rel, Exec(rel, t, op))
  {
  }

  // Rendering an encoded tuple gives back the row, less what was not sent.

  predicate IsSent(t: seq<ColumnValue>, i: int) {
    0 <= i < |t| && t[i].kind != KIND_UNCHANGED
  }

  lemma {:induction false} RenderedHolds(rel: Relation, t: seq<ColumnValue>, n: nat, i: nat)
    requires WellFormed(rel) && |t| == |rel.columns| && i < n <= |t| && IsSent(t, i)
    ensures rel.columns[i].name in Rendered(rel, t, n)
    ensures Rendered(rel, t, n)[rel.columns[i].name] == if t[i].kind == KIND_NULL then None else Some(t[i].text)
  {
    if i < n - 1 {
      RenderedHolds(rel, t, n - 1, i);
      assert rel.columns[i].name != rel.columns[n - 1].name;
    }
  }

  lemma {:induction false} RenderedOnly(rel: Relation, t: seq<ColumnValue>, n: nat, m: string)
    requires |t| == |rel.columns| && n <= |t| && m in Rendered(rel, t, n)
    ensures exists i :: IsSent(t, i) && rel.columns[i].name == m
  {
    if m in Rendered(rel, t, n - 1) {
      RenderedOnly(rel, t, n - 1, m);
    } else {
      assert IsSent(t, n - 1) && rel.columns[n - 1].name == m;
    }
  }

  lemma TupleRendersRow(rel: Relation, r: Row, unsent: set<string>)
    requires WellFormed(rel) && IsRow(rel, r) && unsent <= Names(rel)
    ensures Values(rel, TupleOf(rel, r, unsent)) == r - unsent
    ensures UnchangedNames(rel, TupleOf(rel, r, unsent)) == unsent
  {
    hide Rendered, UnchangedNames, KeyNames;
    var t := TupleOf(rel, r, unsent);
    UnsentNamesMatch(rel, r, unsent);
    var got := Rendered(rel, t, |t|);
    forall n | n in r - unsent ensures n in got && got[n] == r[n] {
      var i :| 0 <= i < |rel.columns| && rel.columns[i].name == n;
      assert t[i] == Cell(r[n]);
      RenderedHolds(rel, t, |t|, i);
    }
    forall n | n in got ensures n in r - unsent {
      RenderedOnly(rel, t, |t|, n);
      var i :| IsSent(t, i) && rel.columns[i].name == n;
      assert rel.columns[i].name in Names(rel);
    }
    assert got == r - unsent;
  }

  lemma UnsentNamesMatch(rel: Relation, r: Row, unsent: set<string>)
    requires WellFormed(rel) && IsRow(rel, r) && unsent <= Names(rel)
    ensures UnchangedNames(rel, TupleOf(rel, r, unsent)) == unsent
  {
    var t := TupleOf(rel, r, unsent);
    forall n | n in unsent ensures n in UnchangedNames(rel, t) {
      var i :| 0 <= i < |rel.columns| && rel.columns[i].name == n;
      assert t[i].kind == KIND_UNCHANGED;
    }
  }

  lemma KeyTupleRendersKey(rel: Relation, r: Row)
    requires WellFormed(rel) && IsRow(rel, r)
    ensures KeyValues(rel, Values(rel, KeyTuple(rel, r))) == KeyValues(rel, r)
    ensures Values(rel, KeyTuple(rel, r)) != map[]
  {
    hide Rendered;
    var t := KeyTuple(rel, r);
    var got := Rendered(rel, t, |t|);
    forall n | n in KeyNames(rel) ensures n in r && n in got && got[n] == r[n] {
      var i :| 0 <= i < |rel.columns| && rel.columns[i].key && rel.columns[i].name == n;
      assert rel.columns[i].name in Names(rel);
      assert t[i] == Cell(r[n]);
      RenderedHolds(rel, t, |t|, i);
    }
    var k :| k in KeyNames(rel);
    assert k in got;
  }

  lemma OldTupleGivesKey(rel: Relation, r: Row)
    requires WellFormed(rel) && IsRow(rel, r)
    ensures KeyValues(rel, Values(rel, OldTuple(rel, r))) == KeyValues(rel, r)
    ensures Values(rel, OldTuple(rel, r)) != map[]
    ensures rel.identity == IDENTITY_FULL ==> Values(rel, OldTuple(rel, r)) == r
  {
    if rel.identity == IDENTITY_FULL {
      TupleRendersRow(rel, r, {});
      assert r - {} == r;
      var k :| k in KeyNames(rel);
      assert k in r;
    } else {
      KeyTupleRendersKey(rel, r);
    }
  }

  /** An update names the row it changed exactly when the row can be located. */
  lemma IdentityIsOldKeyIff(rel: Relation, t: Table, op: Op)
    requires WellFormed(rel) && IsTable(rel, t) && op.Upd? && Allowed(rel, t, op)
    ensures Sent(rel, t, op).identity == op.at <==> Locatable(rel, op)
    ensures Sent(rel, t, op).new_ == op.row - op.unsent
    ensures Sent(rel, t, op).action == Update
  {
    TupleRendersRow(rel, op.row, op.unsent);
    if op.withOld {
      OldTupleGivesKey(rel, t[op.at]);
    } else {
      assert Values(rel, []) == map[];
      SentKeyIff(rel, op.row, op.unsent);
    }
  }

  lemma SentKeyIff(rel: Relation, r: Row, unsent: set<string>)
    requires IsRow(rel, r)
    ensures KeyValues(rel, r - unsent) == KeyValues(rel, r) <==> unsent !! KeyNames(rel)
  {
    if n :| n in unsent && n in KeyNames(rel) {
      assert n in Names(rel);
      assert n in KeyValues(rel, r) && n !in KeyValues(rel, r - unsent);
    }
  }

  lemma OverlayRestores(rel: Relation, was: Row, row: Row, unsent: set<string>)
    requires IsRow(rel, was) && IsRow(rel, row)
    requires forall n :: n in unsent && n in was && n in row ==> row[n] == was[n]
    ensures was + (row - unsent) == row
  {
  }

  lemma InsertSent(rel: Relation, t: Table, row: Row)
    requires WellFormed(rel) && IsTable(rel, t) && Allowed(rel, t, Ins(row))
    ensures var c := Sent(rel, t, Ins(row)); c.action == Insert && c.identity == KeyValues(rel, row) && c.new_ == row
  {
    hide KeyValues, Values, UnchangedNames, TupleOf;
    TupleRendersRow(rel, row, {});
    assert row - {} == row;
  }

  lemma TruncateSent(rel: Relation, t: Table)
    requires IsTable(rel, t)
    ensures Sent(rel, t, Trunc).action == Truncate
  {
  }

  lemma DeleteSent(rel: Relation, t: Table, k: Row)
    requires WellFormed(rel) && IsTable(rel, t) && k in t
    ensures Sent(rel, t, Del(k)).identity == k && Sent(rel, t, Del(k)).action == Delete
  {
    OldTupleGivesKey(rel, t[k]);
    hide KeyValues, Values, OldTuple;
  }

  lemma UpdateMirrors(rel: Relation, t: Table, op: Op, c: RowChange)
    requires op.Upd? && IsTable(rel, t) && Allowed(rel, t, op)
    requires c.action == Update && c.identity == op.at && c.new_ == op.row - op.unsent
    ensures Apply(rel, t, c) == Exec(rel, t, op)
  {
    OverlayRestores(rel, t[op.at], op.row, op.unsent);
    OverlayApplies(rel, t, c, op.row);
  }

  lemma OverlayApplies(rel: Relation, copy: Table, c: RowChange, row: Row)
    requires c.action == Update && c.identity in copy && copy[c.identity] + c.new_ == row
    ensures Apply(rel, copy, c) == (copy - {c.identity})[KeyValues(rel, row) := row]
  {
  }

  /** One statement: the copy follows the table, TOAST and key changes included. */
  lemma StepMirrors(rel: Relation, t: Table, op: Op)
    requires WellFormed(rel) && IsTable(rel, t) && Allowed(rel, t, op) && Locatable(rel, op)
    ensures Apply(rel, t, Sent(rel, t, op)) == Exec(rel, t, op)
  {
    hide Sent, KeyValues;
    match op
    case Ins(row) =>
      InsertSent(rel, t, row);
    case Upd(at, row, unsent, withOld) =>
      IdentityIsOldKeyIff(rel, t, op);
      hide Apply, Exec;
      UpdateMirrors(rel, t, op, Sent(rel, t, op));
    case Del(at) =>
      DeleteSent(rel, t, at);
    case Trunc =>
      TruncateSent(rel, t);
  }

  /** After every history of statements the copy is the table. */
  lemma {:induction false} ReplicaEqualsSource(rel: Relation, t: Table, ops: seq<Op>)
    requires WellFormed(rel) && IsTable(rel, t) && AllowedAll(rel, t, ops)
    requires forall i :: 0 <= i < |ops| ==> Locatable(rel, ops[i])
    ensures Mirror(rel, t, t, ops) == ExecAll(rel, t, ops)
    decreases |ops|
  {
    if ops != [] {
      StepMirrors(rel, t, ops[0]);
      ExecKeepsTable(rel, t, ops[0]);
      ReplicaEqualsSource(rel, Exec(rel, t, ops[0]), ops[1..]);
    }
  }

  /**
   What an event says of its statement besides where the row is: every column is in `new` or among those marked as not
   sent, never both, and those are the ones the server left out; the old row is there, whole, exactly under FULL.
   */
  lemma SentAccounts(rel: Relation, t: Table, op: Op)
    requires WellFormed(rel) && IsTable(rel, t) && Allowed(rel, t, op)
    ensures var c := Sent(rel, t, op);
      && c.table == rel.schema + "." + rel.name
      && (op.Ins? ==> c.action == Insert && c.new_ == op.row && c.kept == {} && c.old_ == map[] && c.changed == {})
      && (op.Upd? ==> c.action == Update && c.kept == op.unsent && c.new_.Keys !! c.kept && c.new_.Keys + c.kept == Names(rel)
                      && (rel.identity != IDENTITY_FULL ==> c.old_ == map[] && c.changed == {}))
      && (op.Del? ==> c.action == Delete && c.new_ == map[] && c.kept == {} && c.changed == {}
                      && c.old_ == if rel.identity == IDENTITY_FULL then t[op.at] else map[])
      && (op.Trunc? ==> c == RowChange(c.table, Truncate, map[], map[], map[], {}, {}))
  {
    hide Values, UnchangedNames, OldTuple, TupleOf, KeyValues, KeyNames, Names;
    match op
    case Ins(row) =>
      TupleRendersRow(rel, row, {});
      assert row - {} == row;
    case Upd(at, row, unsent, _) =>
      TupleRendersRow(rel, row, unsent);
    case Del(at) =>
      OldTupleGivesKey(rel, t[at]);
      NothingUnsent(rel);
    case Trunc =>
  }

  lemma NothingUnsent(rel: Relation)
    ensures UnchangedNames(rel, []) == {} && Values(rel, []) == map[]
  {
  }

  /** Under FULL, `changed` is exactly the columns whose value differs. */
  lemma ChangedIsExact(rel: Relation, t: Table, op: Op)
    requires WellFormed(rel) && rel.identity == IDENTITY_FULL
    requires IsTable(rel, t) && op.Upd? && Allowed(rel, t, op)
    ensures Sent(rel, t, op).changed == set n | n in Names(rel) && t[op.at][n] != op.row[n]
    ensures Sent(rel, t, op).old_ == t[op.at]
  {
    hide Values, UnchangedNames, OldTuple, TupleOf, KeyValues, KeyNames;
    OldTupleGivesKey(rel, t[op.at]);
    TupleRendersRow(rel, op.row, op.unsent);
    ChangedOverSent(rel, t[op.at], op.row, op.unsent);
  }

  lemma ChangedOverSent(rel: Relation, was: Row, row: Row, unsent: set<string>)
    requires IsRow(rel, was) && IsRow(rel, row)
    requires forall n :: n in unsent && n in was && n in row ==> row[n] == was[n]
    ensures ChangedColumns(rel, was, row - unsent, unsent) == set n | n in Names(rel) && was[n] != row[n]
  {
  }

  /** Without an old tuple, an unsent key column leaves the copy behind: the row is not found. */
  lemma UnsentKeyLosesUpdate(rel: Relation, t: Table, op: Op)
    requires WellFormed(rel) && IsTable(rel, t) && op.Upd? && Allowed(rel, t, op)
    requires !Locatable(rel, op) && op.row != t[op.at]
    ensures Apply(rel, t, Sent(rel, t, op)) == t != Exec(rel, t, op)
  {
    hide Sent, KeyValues;
    UnlocatedIdentity(rel, t, op);
    assert KeyValues(rel, op.row) == op.at;
    assert Exec(rel, t, op)[op.at] == op.row;
  }

  lemma UnlocatedIdentity(rel: Relation, t: Table, op: Op)
    requires WellFormed(rel) && IsTable(rel, t) && op.Upd? && Allowed(rel, t, op) && !Locatable(rel, op)
    ensures Sent(rel, t, op).action == Update && Sent(rel, t, op).identity !in t
  {
    hide KeyValues;
    SentWithoutOld(rel, t, op);
    var n :| n in op.unsent && n in KeyNames(rel);
    UnsentNotInKey(rel, op.row, op.unsent, n);
    KeysHave(rel, t, n);
  }

  /** Without an old tuple the identity is what was sent of the new key. */
  lemma SentWithoutOld(rel: Relation, t: Table, op: Op)
    requires WellFormed(rel) && IsTable(rel, t) && op.Upd? && Allowed(rel, t, op) && !op.withOld
    ensures Sent(rel, t, op).action == Update && Sent(rel, t, op).identity == KeyValues(rel, op.row - op.unsent)
  {
    hide KeyValues, TupleOf, KeyNames;
    assert Values(rel, []) == map[];
    TupleRendersRow(rel, op.row, op.unsent);
  }

  lemma UnsentNotInKey(rel: Relation, row: Row, unsent: set<string>, n: string)
    requires n in unsent
    ensures n !in KeyValues(rel, row - unsent)
  {
  }

  lemma KeysHave(rel: Relation, t: Table, n: string)
    requires IsTable(rel, t) && n in KeyNames(rel)
    ensures forall k :: k in t ==> n in k
  {
    forall k | k in t ensures n in k {
      KeyHas(rel, t[k], n);
      hide KeyValues, KeyNames;
    }
  }

  lemma KeyHas(rel: Relation, row: Row, n: string)
    requires IsRow(rel, row) && n in KeyNames(rel)
    ensures n in KeyValues(rel, row)
  {
    assert n in Names(rel);
  }
}
