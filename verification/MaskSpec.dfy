/**
 What a table's masks are: per column a rule, and for the rows the mask a masked reader is shown.

 The keyed hash is a parameter, as is what a fake is made of. A hash or fake column is kept in the shadow
 table, since its mask needs the key; a partial or empty one is computed by the view.
 */
module MaskSpec {
  import opened Wrappers

  type Value = Option<string>
  type Row = map<string, Value>
  type Rows = map<int, Row>

  datatype Rule = Hash | Fake(category: string) | Partial | Empty

  datatype Crypto = Crypto(hmac: (string, Value) -> Value, fake: (string, Value) -> Value)

  /** What a table is masked on: its rules by column, and the key. */
  datatype Terms = Terms(own: map<string, Rule>, key: string)

  /** Every character but the last four an X. */
  function PartialText(s: string): string {
    if |s| <= 4 then s else seq(|s| - 4, _ => 'X') + s[|s| - 4..]
  }

  function Scalar(p: Crypto, terms: Terms, rule: Rule, v: Value): Value {
    match rule
    case Hash => p.hmac(terms.key, v)
    case Fake(category) => p.fake(category, p.hmac(terms.key, v))
    case Partial => if v.Some? then Some(PartialText(v.value)) else None
    case Empty => None
  }

  predicate Kept(terms: Terms, column: string) {
    column in terms.own && (terms.own[column].Hash? || terms.own[column].Fake?)
  }

  /** What a masked reader is to see of a row: each column under its rule, a column without one as it is. */
  function MaskRow(p: Crypto, terms: Terms, row: Row): Row {
    map c | c in row :: if c in terms.own then Scalar(p, terms, terms.own[c], row[c]) else row[c]
  }

  /** What the shadow keeps of a row. */
  function KeptRow(p: Crypto, terms: Terms, row: Row): Row {
    map c | c in row && Kept(terms, c) :: Scalar(p, terms, terms.own[c], row[c])
  }

  /** The view's row: kept columns from the shadow, the others from the base. */
  function ViewRow(terms: Terms, row: Row, kept: Row): Row {
    map c | c in row ::
      if Kept(terms, c) then (if c in kept then kept[c] else None)
      else if c in terms.own && terms.own[c].Partial? then (if row[c].Some? then Some(PartialText(row[c].value)) else None)
      else if c in terms.own && terms.own[c].Empty? then None
      else row[c]
  }

  /** The view joins base and shadow on the key, so a base row with no shadow row is not in it. */
  function View(terms: Terms, base: Rows, shadow: Rows): Rows {
    map k | k in base && k in shadow :: ViewRow(terms, base[k], shadow[k])
  }

  function MaskAll(p: Crypto, terms: Terms, base: Rows): Rows {
    map k | k in base :: MaskRow(p, terms, base[k])
  }

  function KeepAll(p: Crypto, terms: Terms, rows: Rows): Rows {
    map k | k in rows :: KeptRow(p, terms, rows[k])
  }

  /** A partial mask is as long as the value, ends as it does, and shows nothing else. */
  lemma PartialHides(s: string, i: nat)
    requires i < |s|
    ensures |PartialText(s)| == |s|
    ensures PartialText(s)[i] == if i + 4 >= |s| then s[i] else 'X'
  {
  }

  /** As long as the value, its last four characters, and an X for every other one. */
  predicate Obscures(shown: string, s: string) {
    |shown| == |s| && forall i :: 0 <= i < |s| ==> shown[i] == if i + 4 >= |s| then s[i] else 'X'
  }

  /** What is shown of a value in column `c`, rule by rule. */
  predicate ShownAs(p: Crypto, terms: Terms, c: string, v: Value, shown: Value) {
    if c !in terms.own then shown == v
    else match terms.own[c]
      case Hash => shown == p.hmac(terms.key, v)
      case Fake(category) => shown == p.fake(category, p.hmac(terms.key, v))
      case Partial => if v.None? then shown.None? else shown.Some? && Obscures(shown.value, v.value)
      case Empty => shown == None
  }

  /** The mask of a table has its rows and columns, and shows of each value what its rule says. */
  lemma MaskShows(p: Crypto, terms: Terms, base: Rows, k: int, c: string)
    ensures var masked := MaskAll(p, terms, base);
      && masked.Keys == base.Keys
      && (k in base ==> masked[k].Keys == base[k].Keys && (c in base[k] ==> ShownAs(p, terms, c, base[k][c], masked[k][c])))
  {
    if k in base && c in base[k] && c in terms.own && terms.own[c].Partial? && base[k][c].Some? {
      var s := base[k][c].value;
      forall i | 0 <= i < |s| ensures |PartialText(s)| == |s| && PartialText(s)[i] == if i + 4 >= |s| then s[i] else 'X' {
        PartialHides(s, i);
      }
    }
  }

  lemma ViewRowMasks(p: Crypto, terms: Terms, row: Row)
    ensures ViewRow(terms, row, KeptRow(p, terms, row)) == MaskRow(p, terms, row)
  {
  }

  /** A shadow with the kept mask of every row gives the view that is the mask of the whole table. */
  lemma FullViewMasks(p: Crypto, terms: Terms, base: Rows)
    ensures View(terms, base, KeepAll(p, terms, base)) == MaskAll(p, terms, base)
  {
    forall k | k in base ensures View(terms, base, KeepAll(p, terms, base))[k] == MaskAll(p, terms, base)[k] {
      ViewRowMasks(p, terms, base[k]);
    }
  }

  // The writers' statements, and the trigger each of them runs.

  /** An update names the rows it changed by their old keys and gives them anew, under keys that may differ. */
  datatype Statement =
    | Insert(rows: Rows)
    | Update(old_: set<int>, new_: Rows)
    | Delete(keys: set<int>)
    | Truncate

  /** Whether the statement goes through: an insert or a moved row must not meet a row that is there. */
  predicate Allowed(base: Rows, s: Statement) {
    match s
    case Insert(rows) => rows.Keys !! base.Keys
    case Update(o, n) => o <= base.Keys && |n| == |o| && n.Keys !! (base.Keys - o)
    case Delete(keys) => keys <= base.Keys
    case Truncate => true
  }

  function Apply(base: Rows, s: Statement): Rows {
    match s
    case Insert(rows) => base + rows
    case Update(o, n) => (base - o) + n
    case Delete(keys) => base - keys
    case Truncate => map[]
  }

  /**
   The trigger's function on one shadow, from the statement's transition tables: rows deleted or moved away
   leave it, rows written are written over what is there.
   */
  function Trigger(p: Crypto, terms: Terms, shadow: Rows, s: Statement): Rows {
    match s
    case Insert(rows) => shadow + KeepAll(p, terms, rows)
    case Update(o, n) => (shadow - (o - n.Keys)) + KeepAll(p, terms, n)
    case Delete(keys) => shadow - keys
    case Truncate => map[]
  }

  /** Every shadow row is the kept mask of its base row. */
  predicate Sound(p: Crypto, terms: Terms, base: Rows, shadow: Rows) {
    forall k :: k in shadow ==> k in base && shadow[k] == KeptRow(p, terms, base[k])
  }

  lemma TriggerSound(p: Crypto, terms: Terms, base: Rows, shadow: Rows, s: Statement)
    requires Sound(p, terms, base, shadow) && Allowed(base, s)
    ensures Sound(p, terms, Apply(base, s), Trigger(p, terms, shadow, s))
  {
    hide KeptRow, KeepAll;
    match s
    case Insert(rows) => WrittenSound(p, terms, base, shadow, rows);
    case Update(o, n) =>
      var gone := o - n.Keys;
      assert (base - o) + n == (base - gone) + n;
      RemovedSound(p, terms, base, shadow, gone);
      WrittenSound(p, terms, base - gone, shadow - gone, n);
    case Delete(keys) => RemovedSound(p, terms, base, shadow, keys);
    case Truncate =>
  }

  lemma WrittenSound(p: Crypto, terms: Terms, base: Rows, shadow: Rows, rows: Rows)
    requires Sound(p, terms, base, shadow)
    ensures Sound(p, terms, base + rows, shadow + KeepAll(p, terms, rows))
  {
    hide KeptRow;
  }

  lemma RemovedSound(p: Crypto, terms: Terms, base: Rows, shadow: Rows, keys: set<int>)
    requires Sound(p, terms, base, shadow)
    ensures Sound(p, terms, base - keys, shadow - keys)
  {
    hide KeptRow;
  }

  /** The trigger never lets a row that stays, or one just written, out of the shadow. */
  lemma TriggerKeeps(p: Crypto, terms: Terms, base: Rows, shadow: Rows, s: Statement, k: int)
    requires Allowed(base, s) && k in Apply(base, s)
    ensures k in Trigger(p, terms, shadow, s) || (k in base && k !in shadow)
  {
  }

  // The fill.

  const BATCH: nat := 10000

  /** How far a fill has come: past `last`, with the batch up to `nxt` picked but not yet written. */
  datatype Fill = Filling(last: Option<int>, nxt: Option<int>) | Full

  predicate Above(k: int, last: Option<int>) {
    last.None? || k > last.value
  }

  function Ahead(base: Rows, last: Option<int>): set<int> {
    set k | k in base && Above(k, last)
  }

  function UpTo(keys: set<int>, b: int): set<int> {
    set k | k in keys && k <= b
  }

  /** The largest of the first `n` keys in order. */
  predicate BatchEnd(keys: set<int>, n: nat, b: int) {
    && b in keys && |UpTo(keys, b)| <= n
    && (|UpTo(keys, b)| == n || UpTo(keys, b) == keys)
  }

  /** Writes the rows of a batch, leaving a row already there as it is. */
  function Fold(p: Crypto, terms: Terms, base: Rows, shadow: Rows, last: Option<int>, nxt: int): Rows {
    KeepAll(p, terms, map k | k in base && Above(k, last) && k <= nxt :: base[k]) + shadow
  }

  lemma AnyOf(keys: set<int>) returns (m: int)
    requires keys != {}
    ensures m in keys
  {
    if forall k :: k !in keys { NoneIn(keys); }
    m :| m in keys;
  }

  lemma NoneIn(keys: set<int>)
    requires forall k :: k !in keys
    ensures keys == {}
  {
    assert forall k :: k in keys ==> k in {};
  }

  lemma {:induction false} LeastExists(keys: set<int>) returns (m: int)
    requires keys != {}
    ensures m in keys && forall k :: k in keys ==> m <= k
  {
    m := AnyOf(keys);
    if keys != {m} {
      var r := LeastExists(keys - {m});
      if r < m {
        forall k | k in keys ensures r <= k {
          assert k == m || k in keys - {m};
        }
        m := r;
      } else {
        forall k | k in keys ensures m <= k {
          assert k == m || k in keys - {m};
        }
      }
    }
  }

  /** There is always a batch to take while there are keys. */
  lemma {:induction false} BatchEndExists(keys: set<int>, n: nat) returns (b: int)
    requires keys != {} && n > 0
    ensures BatchEnd(keys, n, b)
    decreases n
  {
    var m := LeastExists(keys);
    var rest := keys - {m};
    assert UpTo(keys, m) == {m};
    if n == 1 || rest == {} {
      b := m;
    } else {
      b := BatchEndExists(rest, n - 1);
      assert UpTo(keys, b) == UpTo(rest, b) + {m};
    }
  }
}
