/**
 The row format of the change feed: what one decoded tuple becomes for a subscriber.

 A tuple carries, per column, SQL NULL, a text value, or "unchanged" for a large
 (TOASTed) value the update did not touch, as in the Relation, Insert, Update and
 Delete messages of PostgreSQL's "Logical Replication Message Formats". A rendered
 row is a map from column name to value; a column that was not sent is absent from
 it, which is not the same as being null. The sorted name lists `changed` and
 `unchanged` are sets here, the second under the name `kept`.
 */
module Wire {
  import opened Wrappers

  /** `None` is SQL NULL, otherwise the value as Postgres text. */
  type Value = Option<string>
  type Row = map<string, Value>

  const KIND_NULL: char := 'n'
  const KIND_UNCHANGED: char := 'u'
  const KIND_TEXT: char := 't'
  const IDENTITY_FULL: char := 'f'

  datatype ColumnValue = ColumnValue(kind: char, text: string)
  datatype Column = Column(name: string, typeOid: nat, key: bool)
  datatype Relation = Relation(schema: string, name: string, columns: seq<Column>, identity: char)

  datatype Action = Insert | Update | Delete | Truncate

  /** The part of a change event that comes from the row; positions are stamped on by the decoder. */
  datatype RowChange = RowChange(
    table: string, action: Action, identity: Row,
    new_: Row, old_: Row, changed: set<string>, kept: set<string>)

  function Qualified(rel: Relation): string {
    rel.schema + "." + rel.name
  }

  function Min(a: nat, b: nat): nat {
    if a < b then a else b
  }

  /** Rendering one column: a null, a value, or nothing at all. */
  function Put(out: Row, name: string, cv: ColumnValue): Row {
    if cv.kind == KIND_NULL then out[name := None]
    else if cv.kind == KIND_UNCHANGED then out
    else out[name := Some(cv.text)]
  }

  /** What the first `n` columns of a tuple render to. */
  function Rendered(rel: Relation, t: seq<ColumnValue>, n: nat): Row
    requires n <= |t| && n <= |rel.columns|
  {
    if n == 0 then map[] else Put(Rendered(rel, t, n - 1), rel.columns[n - 1].name, t[n - 1])
  }

  /** The names among the first `n` columns that were not sent. */
  function Unsent(rel: Relation, t: seq<ColumnValue>, n: nat): set<string>
    requires n <= |t| && n <= |rel.columns|
  {
    set i | 0 <= i < n && t[i].kind == KIND_UNCHANGED :: rel.columns[i].name
  }

  function Values(rel: Relation, t: seq<ColumnValue>): Row {
    Rendered(rel, t, Min(|t|, |rel.columns|))
  }

  function UnchangedNames(rel: Relation, t: seq<ColumnValue>): set<string> {
    Unsent(rel, t, Min(|t|, |rel.columns|))
  }

  function KeyNames(rel: Relation): set<string> {
    set i | 0 <= i < |rel.columns| && rel.columns[i].key :: rel.columns[i].name
  }

  function Names(rel: Relation): set<string> {
    set i | 0 <= i < |rel.columns| :: rel.columns[i].name
  }

  function KeyValues(rel: Relation, vals: Row): Row {
    map n | n in KeyNames(rel) && n in vals :: vals[n]
  }

  /** A row's key is what it holds of the columns flagged as the replica identity, whichever place they are in. */
  lemma KeyIff(rel: Relation, vals: Row, n: string)
    ensures n in KeyValues(rel, vals) <==> n in vals && exists c :: c in rel.columns && c.key && c.name == n
    ensures n in KeyValues(rel, vals) ==> KeyValues(rel, vals)[n] == vals[n]
    ensures n in Names(rel) <==> exists c :: c in rel.columns && c.name == n
  {
    if i :| 0 <= i < |rel.columns| && rel.columns[i].name == n {
      assert rel.columns[i] in rel.columns;
    }
    if i :| 0 <= i < |rel.columns| && rel.columns[i].key && rel.columns[i].name == n {
      assert rel.columns[i] in rel.columns;
    }
  }

  function ChangedColumns(rel: Relation, oldVals: Row, newVals: Row, kept: set<string>): set<string> {
    set n | n in Names(rel) && n !in kept && n in oldVals && n in newVals && oldVals[n] != newVals[n]
  }

  function BuildChange(rel: Relation, action: Action, oldTuple: seq<ColumnValue>, newTuple: seq<ColumnValue>): RowChange {
    var newVals := Values(rel, newTuple);
    var oldVals := Values(rel, oldTuple);
    var kept := UnchangedNames(rel, newTuple);
    var full := rel.identity == IDENTITY_FULL;
    var base := RowChange(Qualified(rel), action, map[], map[], map[], {}, {});
    match action
    case Truncate => base
    case Delete =>
      if oldVals != map[] then
        base.(identity := KeyValues(rel, oldVals), old_ := if full then oldVals else map[])
      else base
    case Insert =>
      base.(identity := KeyValues(rel, newVals), new_ := newVals, kept := kept)
    case Update =>
      if oldVals != map[] then
        base.(identity := KeyValues(rel, oldVals), new_ := newVals, kept := kept,
              old_ := if full then oldVals else map[],
              changed := if full then ChangedColumns(rel, oldVals, newVals, kept) else {})
      else
        base.(identity := KeyValues(rel, newVals), new_ := newVals, kept := kept)
  }

  /** A tuple has a value or a null for this column, or marks it as not sent. */
  predicate Carries(rel: Relation, t: seq<ColumnValue>, name: string, sent: bool) {
    exists i :: 0 <= i < |t| && i < |rel.columns| && rel.columns[i].name == name && (t[i].kind != 'u') == sent
  }

  lemma {:induction false} RenderedIff(rel: Relation, t: seq<ColumnValue>, n: nat, name: string)
    requires n <= |t| && n <= |rel.columns|
    ensures name in Rendered(rel, t, n) <==> exists i :: 0 <= i < n && rel.columns[i].name == name && t[i].kind != 'u'
  {
    if n > 0 {
      RenderedIff(rel, t, n - 1, name);
    }
  }

  lemma ValuesIff(rel: Relation, t: seq<ColumnValue>, name: string)
    ensures name in Values(rel, t) <==> Carries(rel, t, name, true)
    ensures name in UnchangedNames(rel, t) <==> Carries(rel, t, name, false)
  {
    RenderedIff(rel, t, Min(|t|, |rel.columns|), name);
    hide Rendered;
  }

  /**
   Which columns an event accounts for, whatever tuples it is built from: `new` has those the new tuple carries and the
   unchanged list those it marks, on an insert or update; `old` has those of the old tuple, on an update or delete under FULL.
   */
  lemma ChangeAccounts(rel: Relation, action: Action, o: seq<ColumnValue>, t: seq<ColumnValue>, name: string)
    ensures var c, written := BuildChange(rel, action, o, t), action == Insert || action == Update;
      && c.action == action && c.table == rel.schema + "." + rel.name
      && (name in c.new_ <==> written && Carries(rel, t, name, true))
      && (name in c.kept <==> written && Carries(rel, t, name, false))
      && (name in c.old_ <==> (action == Update || action == Delete) && rel.identity == 'f' && Carries(rel, o, name, true))
  {
    ValuesIff(rel, t, name);
    ValuesIff(rel, o, name);
    hide Values, UnchangedNames, Carries, KeyValues, ChangedColumns;
  }

  // The loops of the source, each proved against its specification.

  /** Renders a tuple in one pass. A tuple longer than the relation is cut at the relation's width. */
  method RenderTuple(rel: Relation, t: seq<ColumnValue>) returns (out: Row, kept: set<string>)
    ensures out == Values(rel, t)
    ensures kept == UnchangedNames(rel, t)
  {
    out, kept := map[], {};
    var i := 0;
    while i < |t| && i < |rel.columns|
      invariant 0 <= i <= Min(|t|, |rel.columns|)
      invariant out == Rendered(rel, t, i)
      invariant kept == Unsent(rel, t, i)
    {
      var name := rel.columns[i].name;
      if t[i].kind == KIND_NULL {
        out := out[name := None];
      } else if t[i].kind == KIND_UNCHANGED {
        kept := kept + {name};
      } else {
        out := out[name := Some(t[i].text)];
      }
      i := i + 1;
    }
  }

  method CollectKeyValues(rel: Relation, vals: Row) returns (out: Row)
    ensures out == KeyValues(rel, vals)
  {
    out := map[];
    for i := 0 to |rel.columns|
      invariant forall n :: n in out <==> n in vals && exists j :: 0 <= j < i && rel.columns[j].key && rel.columns[j].name == n
      invariant forall n :: n in out ==> out[n] == vals[n]
    {
      var name := rel.columns[i].name;
      if rel.columns[i].key && name in vals {
        out := out[name := vals[name]];
      }
    }
  }

  method CollectChanged(rel: Relation, oldVals: Row, newVals: Row, kept: set<string>) returns (out: set<string>)
    ensures out == ChangedColumns(rel, oldVals, newVals, kept)
  {
    out := {};
    for i := 0 to |rel.columns|
      invariant forall n :: n in out <==>
        n !in kept && n in oldVals && n in newVals && oldVals[n] != newVals[n]
        && exists j :: 0 <= j < i && rel.columns[j].name == n
    {
      var name := rel.columns[i].name;
      if name !in kept && name in oldVals && name in newVals && oldVals[name] != newVals[name] {
        out := out + {name};
      }
    }
  }
}
