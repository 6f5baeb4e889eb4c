/**
 Promotion: what a branch has changed is carried to another in rounds, each built from the two branches'
 records and from the requests already applied.
 */
module Promotion {
  import opened Wrappers
  import opened Decimal

  datatype Kind = Ran | Blocked | Scanned

  /** One recorded entry. `hash` is the recomputed hash of the row. */
  datatype Row = Row(id: int, kind: Kind, statement: string, item: string, session: string, hash: string)

  datatype Status = Open | Approved | Rejected | Failed

  /** `entries` are the source entries it carries, or none when they cannot be read back. */
  datatype Request = Request(id: int, source: string, target: string, status: Status, applied: nat, entries: Option<seq<int>>)

  /** White space, as Unicode has it. */
  predicate Space(c: char) {
    var n := c as int;
    || 9 <= n <= 13 || n == 0x20 || n == 0x85 || n == 0xA0 || n == 0x1680 || 0x2000 <= n <= 0x200A
    || n == 0x2028 || n == 0x2029 || n == 0x202F || n == 0x205F || n == 0x3000
  }

  predicate Blank(s: string) {
    forall i :: 0 <= i < |s| ==> Space(s[i])
  }

  // The fork.

  predicate Shared(a: Row, b: Row) {
    a.id == b.id && a.hash == b.hash
  }

  /** How many entries two records share from the start. */
  method CommonPrefix(a: seq<Row>, b: seq<Row>) returns (n: nat)
    ensures IsFork(a, b, n)
    ensures n <= |a| && n <= |b| && forall i :: 0 <= i < n ==> a[i].id == b[i].id && a[i].hash == b[i].hash
    ensures n < |a| && n < |b| ==> a[n].id != b[n].id || a[n].hash != b[n].hash
  {
    n := 0;
    while n < |a| && n < |b| && Shared(a[n], b[n])
      invariant n <= |a| && n <= |b| && forall i :: 0 <= i < n ==> Shared(a[i], b[i])
    {
      n := n + 1;
    }
  }

  predicate IsFork(a: seq<Row>, b: seq<Row>, n: nat) {
    && n <= |a| && n <= |b| && (forall i :: 0 <= i < n ==> Shared(a[i], b[i]))
    && (n < |a| && n < |b| ==> !Shared(a[n], b[n]))
  }

  lemma ForkIsUnique(a: seq<Row>, b: seq<Row>, m: nat, n: nat)
    requires IsFork(a, b, m) && IsFork(a, b, n)
    ensures m == n
  {
    assert !(m < n) && !(n < m);
  }

  /** Records only grow, so once the two have parted they part there for good. */
  lemma ForkStays(a: seq<Row>, b: seq<Row>, n: nat, c: seq<Row>, d: seq<Row>)
    requires IsFork(a, b, n) && n < |a| && n < |b|
    ensures IsFork(a + c, b + d, n)
  {
  }

  // What has been promoted.

  predicate Counts(r: Request, source: string, target: string) {
    r.source == source && r.target == target && r.status == Approved && r.applied > 0
  }

  function SessionOf(id: int): string {
    "request-" + FormatInt(id)
  }

  function EntryIds(r: Request): set<int> {
    if r.entries.None? then {} else set i | 0 <= i < |r.entries.value| :: r.entries.value[i]
  }

  function PromotedIds(history: seq<Request>, source: string, target: string): set<int> {
    if history == [] then {}
    else
      var r := history[|history| - 1];
      PromotedIds(history[..|history| - 1], source, target) + if Counts(r, source, target) then EntryIds(r) else {}
  }

  function Sessions(history: seq<Request>, source: string, target: string): set<string> {
    set i | 0 <= i < |history| && Counts(history[i], source, target) :: SessionOf(history[i].id)
  }

  /** The request, once approved and with something of it applied, carried this entry from the one branch to the other. */
  predicate Took(r: Request, source: string, target: string, id: int) {
    && r.source == source && r.target == target && r.status == Approved && r.applied > 0
    && r.entries.Some? && id in r.entries.value
  }

  /** Promoted are the entries that such a request carried. */
  lemma {:induction false} PromotedIff(history: seq<Request>, source: string, target: string, id: int)
    ensures id in PromotedIds(history, source, target) <==> exists i :: 0 <= i < |history| && Took(history[i], source, target, id)
  {
    if history != [] {
      var n := |history| - 1;
      PromotedIff(history[..n], source, target, id);
      assert forall i :: 0 <= i < n ==> history[..n][i] == history[i];
      assert Took(history[n], source, target, id) <==> Counts(history[n], source, target) && id in EntryIds(history[n]);
    }
  }

  /** And their sessions on the target are named after them. */
  lemma SessionsIff(history: seq<Request>, source: string, target: string, session: string)
    ensures session in Sessions(history, source, target) <==>
      exists i :: 0 <= i < |history| && session == "request-" + FormatInt(history[i].id) && history[i].source == source
                  && history[i].target == target && history[i].status == Approved && history[i].applied > 0
  {
    hide FormatInt;
  }

  method AlreadyPromoted(source: string, target: string, history: seq<Request>) returns (ids: set<int>, sessions: set<string>)
    ensures ids == PromotedIds(history, source, target) && sessions == Sessions(history, source, target)
  {
    hide SessionOf, Counts, Sessions;
    ids, sessions := {}, {};
    NoSessions(source, target);
    for i := 0 to |history|
      invariant ids == PromotedIds(history[..i], source, target) && sessions == Sessions(history[..i], source, target)
    {
      assert history[..i + 1][..i] == history[..i];
      var c := history[i];
      if !Counts(c, source, target) {
        SessionsSame(history, source, target, i);
        continue;
      }
      sessions := sessions + {SessionOf(c.id)};
      SessionsGrow(history, source, target, i);
      if c.entries.None? { continue; }
      ids := ids + EntryIds(c);
    }
    assert history[..|history|] == history;
  }

  lemma NoSessions(source: string, target: string)
    ensures Sessions([], source, target) == {}
  {
  }

  lemma SessionsSame(history: seq<Request>, source: string, target: string, i: nat)
    requires i < |history| && !Counts(history[i], source, target)
    ensures Sessions(history[..i + 1], source, target) == Sessions(history[..i], source, target)
  {
    hide SessionOf, Counts;
    var a, b := history[..i + 1], history[..i];
    assert a[i] == history[i] && forall k :: 0 <= k < i ==> a[k] == b[k];
  }

  lemma SessionsGrow(history: seq<Request>, source: string, target: string, i: nat)
    requires i < |history| && Counts(history[i], source, target)
    ensures Sessions(history[..i + 1], source, target) == Sessions(history[..i], source, target) + {SessionOf(history[i].id)}
  {
    hide SessionOf;
    var a, b := history[..i + 1], history[..i];
    forall s ensures s in Sessions(a, source, target) <==> s in Sessions(b, source, target) + {SessionOf(history[i].id)} {
      if s in Sessions(b, source, target) {
        var k :| 0 <= k < |b| && Counts(b[k], source, target) && s == SessionOf(b[k].id);
        assert a[k] == b[k];
      }
      if s in Sessions(a, source, target) {
        var k :| 0 <= k < |a| && Counts(a[k], source, target) && s == SessionOf(a[k].id);
        assert k < i ==> b[k] == a[k];
      }
      assert a[i] == history[i];
    }
  }

  // Building a round.

  /** An entry that can be carried over: it ran, and its statement is there to run again. */
  predicate CanReplay(r: Row) {
    r.kind == Ran && !Blank(r.statement)
  }

  function Replayable(rows: seq<Row>): seq<Row> {
    if rows == [] then []
    else
      var r := rows[|rows| - 1];
      Replayable(rows[..|rows| - 1]) + if CanReplay(r) then [r] else []
  }

  /** Those of them not promoted yet. */
  function Carry(rows: seq<Row>, promoted: set<int>): seq<Row> {
    if rows == [] then []
    else
      var r := rows[|rows| - 1];
      Carry(rows[..|rows| - 1], promoted) + if CanReplay(r) && r.id !in promoted then [r] else []
  }

  /** The code points Unicode counts as white space. */
  const WHITE: set<int> := {9, 10, 11, 12, 13, 32, 133, 160, 5760, 8192, 8193, 8194, 8195, 8196, 8197, 8198, 8199, 8200, 8201, 8202,
                            8232, 8233, 8239, 8287, 12288}

  lemma SpaceIsWhite(c: char)
    ensures Space(c) <==> c as int in WHITE
  {
  }

  /** A round carries an entry that ran, that has something other than white space to run, and that is not promoted. */
  lemma {:induction false} CarriedIff(rows: seq<Row>, promoted: set<int>, r: Row)
    ensures r in Carry(rows, promoted) <==>
      r in rows && r.kind == Ran && (exists i :: 0 <= i < |r.statement| && r.statement[i] as int !in WHITE) && r.id !in promoted
  {
    hide Space, WHITE;
    if rows != [] {
      CarriedIff(rows[..|rows| - 1], promoted, r);
      forall i | 0 <= i < |r.statement| ensures Space(r.statement[i]) <==> r.statement[i] as int in WHITE {
        SpaceIsWhite(r.statement[i]);
      }
    }
  }

  /** What the target changed on its own since the fork. */
  function Touched(rows: seq<Row>, fromUs: set<string>): set<string> {
    set i | 0 <= i < |rows| && rows[i].item != "" && rows[i].kind != Blocked && rows[i].session !in fromUs :: rows[i].item
  }

  predicate Clashes(rows: seq<Row>, touched: set<string>, item: string) {
    item != "" && item in touched && exists i :: 0 <= i < |rows| && rows[i].item == item
  }

  /** An object clashes when an entry carried and a row the target recorded, not blocked and not of our own doing, are about it. */
  lemma ClashIff(carry: seq<Row>, rows: seq<Row>, fromUs: set<string>, o: string)
    ensures Clashes(carry, Touched(rows, fromUs), o) <==>
      && o != "" && (exists i :: 0 <= i < |carry| && carry[i].item == o)
      && exists j :: 0 <= j < |rows| && rows[j].item == o && rows[j].kind != Blocked && rows[j].session !in fromUs
  {
  }

  datatype Build = Built(entries: seq<Row>, forkAfter: int) | Conflict(objects: seq<string>) | Nothing

  /**
   The entries of one round. It is refused, naming each of them once, when an entry is about an object the target
   has changed on its own, and when there is nothing left to carry.
   */
  method BuildRound(src: seq<Row>, tgt: seq<Row>, source: string, target: string, history: seq<Request>, ghost n: nat)
    returns (r: Build)
    requires IsFork(src, tgt, n)
    ensures var carry := Carry(src[n..], PromotedIds(history, source, target));
      var touched := Touched(tgt[n..], Sessions(history, source, target));
      match r
      case Conflict(objects) =>
        && objects != [] && (forall i, j :: 0 <= i < j < |objects| ==> objects[i] != objects[j])
        && forall o :: o in objects <==> Clashes(carry, touched, o)
      case Nothing => carry == []
      case Built(entries, forkAfter) =>
        && entries == carry != [] && forkAfter == (if n > 0 then src[n - 1].id else 0)
        && forall o :: !Clashes(carry, touched, o)
  {
    var f := CommonPrefix(src, tgt);
    ForkIsUnique(src, tgt, f, n);
    var forkAfter := if f > 0 then src[f - 1].id else 0;
    var promoted, fromUs := AlreadyPromoted(source, target, history);
    var touched := CollectTouched(tgt[f..], fromUs);
    var entries, conflicts := Collect(src[f..], promoted, touched);
    if conflicts != [] { return Conflict(conflicts); }
    if entries == [] { return Nothing; }
    r := Built(entries, forkAfter);
  }

  method CollectTouched(rows: seq<Row>, fromUs: set<string>) returns (touched: set<string>)
    ensures touched == Touched(rows, fromUs)
  {
    touched := {};
    for i := 0 to |rows|
      invariant touched == Touched(rows[..i], fromUs)
    {
      var r := rows[i];
      TouchedGrows(rows, fromUs, i);
      if r.item != "" && r.kind != Blocked && r.session !in fromUs {
        touched := touched + {r.item};
      }
    }
    assert rows[..|rows|] == rows;
  }

  lemma TouchedGrows(rows: seq<Row>, fromUs: set<string>, i: nat)
    requires i < |rows|
    ensures var r := rows[i];
      Touched(rows[..i + 1], fromUs) ==
        Touched(rows[..i], fromUs) + if r.item != "" && r.kind != Blocked && r.session !in fromUs then {r.item} else {}
  {
    var a, b := rows[..i + 1], rows[..i];
    var more := if rows[i].item != "" && rows[i].kind != Blocked && rows[i].session !in fromUs then {rows[i].item} else {};
    forall o ensures o in Touched(a, fromUs) <==> o in Touched(b, fromUs) + more {
      if o in Touched(b, fromUs) {
        var k :| 0 <= k < |b| && b[k].item != "" && b[k].kind != Blocked && b[k].session !in fromUs && b[k].item == o;
        assert a[k] == b[k];
      }
      if o in Touched(a, fromUs) {
        var k :| 0 <= k < |a| && a[k].item != "" && a[k].kind != Blocked && a[k].session !in fromUs && a[k].item == o;
        assert k < i ==> b[k] == a[k];
      }
      assert a[i] == rows[i];
    }
  }

  predicate Listed(rows: seq<Row>, touched: set<string>, objects: seq<string>) {
    && (forall i, j :: 0 <= i < j < |objects| ==> objects[i] != objects[j])
    && forall i :: 0 <= i < |objects| ==> Clashes(rows, touched, objects[i])
  }

  method Collect(rows: seq<Row>, promoted: set<int>, touched: set<string>) returns (entries: seq<Row>, conflicts: seq<string>)
    ensures entries == Carry(rows, promoted) && Listed(entries, touched, conflicts)
    ensures forall o :: o in conflicts <==> Clashes(entries, touched, o)
  {
    entries, conflicts := [], [];
    var seen: set<string> := {};
    for i := 0 to |rows|
      invariant entries == Carry(rows[..i], promoted) && Listed(entries, touched, conflicts)
      invariant forall o :: o in seen <==> o in conflicts
      invariant forall k :: 0 <= k < |entries| && entries[k].item != "" && entries[k].item in touched ==> entries[k].item in seen
    {
      assert rows[..i + 1][..i] == rows[..i];
      var r := rows[i];
      if r.kind == Blocked || r.kind == Scanned || r.id in promoted || Blank(r.statement) { continue; }
      ClashesGrow(entries, r, touched, conflicts);
      entries := entries + [r];
      if r.item != "" && r.item in touched && r.item !in seen {
        seen := seen + {r.item};
        assert entries[|entries| - 1].item == r.item;
        conflicts := conflicts + [r.item];
      }
    }
    assert rows[..|rows|] == rows;
  }

  lemma ClashesGrow(rows: seq<Row>, r: Row, touched: set<string>, objects: seq<string>)
    requires Listed(rows, touched, objects)
    ensures Listed(rows + [r], touched, objects)
  {
    forall i | 0 <= i < |objects| ensures Clashes(rows + [r], touched, objects[i]) {
      assert Clashes(rows, touched, objects[i]);
      var k :| 0 <= k < |rows| && rows[k].item == objects[i];
      assert (rows + [r])[k] == rows[k];
    }
  }
}
