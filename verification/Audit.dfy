/**
 The security log: each event's row hash covers the one before it. The hash is a parameter, of which it is only
 used that its text is not empty and holds no separator; that it is collision-free is never assumed. What is
 proved instead names the two colliding texts a forger would have had to find.
 */
module Audit {
  import opened Decimal

  datatype SecurityEvent = SecurityEvent(
    id: int, at: string, kind: string, actor: string, subject: string, ip: string, detail: string,
    prev: string, row: string)

  type Hash = string -> string

  // The text an event is hashed as.

  predicate Bare(s: string) {
    Without('|', s)
  }

  /** Texts joined with the separator. */
  function Join(ps: seq<string>): string {
    if ps == [] then "" else if |ps| == 1 then ps[0] else ps[0] + "|" + Join(ps[1..])
  }

  /** What a reader takes from an event. */
  function Parts(e: SecurityEvent): seq<string> {
    [e.at, e.kind, e.actor, e.subject, e.ip, e.detail]
  }

  function Fields(e: SecurityEvent): string {
    Join(Parts(e))
  }

  function Joined(e: SecurityEvent): string {
    e.prev + "|" + (FormatInt(e.id) + "|" + Fields(e))
  }

  /** The text before the first separator. */
  function Before(s: string): string {
    if s == [] || s[0] == '|' then [] else [s[0]] + Before(s[1..])
  }

  lemma {:induction false} BeforeBar(a: string, x: string)
    requires Bare(a)
    ensures Before(a + "|" + x) == a
  {
    if a == [] {
      assert a + "|" + x == "|" + x;
    } else {
      assert (a + "|" + x)[1..] == a[1..] + "|" + x;
      BeforeBar(a[1..], x);
    }
  }

  /** Two texts with the same joining have the same parts when the first parts hold no separator. */
  lemma SplitFirst(a: string, x: string, b: string, y: string)
    requires Bare(a) && Bare(b) && a + "|" + x == b + "|" + y
    ensures a == b && x == y
  {
    BeforeBar(a, x);
    BeforeBar(b, y);
    assert (a + "|" + x)[|a| + 1..] == x && (b + "|" + y)[|b| + 1..] == y;
  }

  lemma JoinedSplits(e: SecurityEvent, f: SecurityEvent)
    requires Joined(e) == Joined(f) && Bare(e.prev) && Bare(f.prev)
    ensures e.prev == f.prev && e.id == f.id && Fields(e) == Fields(f)
  {
    hide Fields, FormatInt;
    SplitFirst(e.prev, FormatInt(e.id) + "|" + Fields(e), f.prev, FormatInt(f.id) + "|" + Fields(f));
    FormatIntShape(e.id);
    FormatIntShape(f.id);
    SplitFirst(FormatInt(e.id), Fields(e), FormatInt(f.id), Fields(f));
    FormatIntInjective(e.id, f.id);
  }

  // The chain.

  ghost predicate Sane(hash: Hash) {
    forall s :: Bare(hash(s)) && hash(s) != ""
  }

  function EventHash(hash: Hash, e: SecurityEvent): string {
    hash(Joined(e))
  }

  function Head(evs: seq<SecurityEvent>): string {
    if evs == [] then "" else evs[|evs| - 1].row
  }

  /** What is wrong with an event after the events before it, in the order it is looked for. */
  datatype Fault = NoFault | Missing | Unchained | Altered

  function FaultAt(hash: Hash, evs: seq<SecurityEvent>, i: nat): Fault
    requires i < |evs|
  {
    if evs[i].id != i + 1 then Missing
    else if evs[i].prev != Head(evs[..i]) then Unchained
    else if EventHash(hash, evs[i]) != evs[i].row then Altered
    else NoFault
  }

  predicate Verifies(hash: Hash, evs: seq<SecurityEvent>) {
    forall i :: 0 <= i < |evs| ==> FaultAt(hash, evs, i) == NoFault
  }

  predicate FirstFault(hash: Hash, evs: seq<SecurityEvent>, i: nat, fault: Fault)
    requires i < |evs|
  {
    FaultAt(hash, evs, i) == fault && Verifies(hash, evs[..i])
  }

  /** Recomputes the chain: the first event that does not fit, and what is wrong with it. */
  method CheckEventChain(hash: Hash, evs: seq<SecurityEvent>) returns (bad: int, fault: Fault)
    ensures fault == NoFault <==> Verifies(hash, evs)
    ensures fault == NoFault ==> bad == 0
    ensures fault != NoFault ==> exists i :: 0 <= i < |evs| && bad == evs[i].id && FirstFault(hash, evs, i, fault)
  {
    var prev, lastId := "", 0;
    for i := 0 to |evs|
      invariant lastId == i && prev == Head(evs[..i])
      invariant forall k :: 0 <= k < i ==> FaultAt(hash, evs, k) == NoFault
    {
      var e := evs[i];
      fault := NoFault;
      if e.id != lastId + 1 {
        fault := Missing;
      } else if e.prev != prev {
        fault := Unchained;
      } else if EventHash(hash, e) != e.row {
        fault := Altered;
      }
      if fault != NoFault {
        assert FaultAt(hash, evs, i) == fault;
        PrefixVerifies(hash, evs, i);
        assert FirstFault(hash, evs, i, fault);
        return e.id, fault;
      }
      prev, lastId := e.row, e.id;
    }
    return 0, NoFault;
  }

  lemma PrefixVerifies(hash: Hash, evs: seq<SecurityEvent>, n: nat)
    requires n <= |evs| && forall k :: 0 <= k < n ==> FaultAt(hash, evs, k) == NoFault
    ensures Verifies(hash, evs[..n])
  {
    forall k | 0 <= k < n ensures FaultAt(hash, evs[..n], k) == NoFault {
      assert FaultAt(hash, evs, k) == NoFault;
      assert evs[..n][..k] == evs[..k] && evs[..n][k] == evs[k];
    }
  }

  // Appending.

  /** What an entry brings; the rest is the log's. */
  datatype Entry = Entry(at: string, kind: string, actor: string, subject: string, ip: string, detail: string)

  /** A long text is cut, and says so. */
  function Clip(s: string): string {
    if |s| > 500 then s[..500] + "\U{2026}" else s
  }

  function Draft(evs: seq<SecurityEvent>, e: Entry): SecurityEvent {
    SecurityEvent((if evs == [] then 0 else evs[|evs| - 1].id) + 1,
                  e.at, e.kind, e.actor, Clip(e.subject), e.ip, Clip(e.detail), Head(evs), "")
  }

  function Appended(hash: Hash, evs: seq<SecurityEvent>, e: Entry): seq<SecurityEvent> {
    var d := Draft(evs, e);
    evs + [d.(row := EventHash(hash, d))]
  }

  function AppendAll(hash: Hash, entries: seq<Entry>): seq<SecurityEvent> {
    if entries == [] then []
    else Appended(hash, AppendAll(hash, entries[..|entries| - 1]), entries[|entries| - 1])
  }

  class Log {
    var events: seq<SecurityEvent>

    constructor ()
      ensures events == []
    {
      events := [];
    }

    /** Chains one event onto the head, under the store's write lock. */
    method Append(hash: Hash, e: Entry)
      modifies this
      ensures events == Appended(hash, old(events), e)
      ensures Verifies(hash, old(events)) ==> Verifies(hash, events)
    {
      AppendKeeps(hash, events, e);
      var id, prev := 0, "";
      if events != [] {
        id, prev := events[|events| - 1].id, events[|events| - 1].row;
      }
      var d := SecurityEvent(id + 1, e.at, e.kind, e.actor, Clip(e.subject), e.ip, Clip(e.detail), prev, "");
      events := events + [d.(row := EventHash(hash, d))];
    }
  }

  lemma AppendKeeps(hash: Hash, evs: seq<SecurityEvent>, e: Entry)
    ensures Verifies(hash, evs) ==> Verifies(hash, Appended(hash, evs, e))
  {
    var more := Appended(hash, evs, e);
    if Verifies(hash, evs) {
      forall i | 0 <= i < |more| ensures FaultAt(hash, more, i) == NoFault {
        assert more[..i] == evs[..i];
        if i < |evs| {
          assert FaultAt(hash, evs, i) == NoFault;
        } else {
          assert evs[..i] == evs;
          assert evs != [] ==> FaultAt(hash, evs, |evs| - 1) == NoFault;
          assert Joined(more[i]) == Joined(Draft(evs, e));
        }
      }
    }
  }

  predicate Holds(e: SecurityEvent, entry: Entry) {
    && e.at == entry.at && e.kind == entry.kind && e.actor == entry.actor && e.ip == entry.ip
    && Abridges(e.subject, entry.subject) && Abridges(e.detail, entry.detail)
  }

  /** The text itself up to five hundred characters; of a longer one the first five hundred and an ellipsis. */
  predicate Abridges(c: string, s: string) {
    if |s| <= 500 then c == s else |c| == 501 && c[..500] == s[..500] && c[500] == '\U{2026}'
  }

  lemma ClipAbridges(s: string)
    ensures Abridges(Clip(s), s)
  {
  }

  /** Every log built by appending verifies, and holds the entries in order. */
  lemma {:induction false} BuiltLogVerifies(hash: Hash, entries: seq<Entry>)
    ensures Verifies(hash, AppendAll(hash, entries))
    ensures |AppendAll(hash, entries)| == |entries|
    ensures forall i :: 0 <= i < |entries| ==> Holds(AppendAll(hash, entries)[i], entries[i])
  {
    if entries != [] {
      var front := entries[..|entries| - 1];
      BuiltLogVerifies(hash, front);
      AppendKeeps(hash, AppendAll(hash, front), entries[|entries| - 1]);
      hide Verifies, FaultAt, Draft, Holds;
      AppendedHolds(hash, AppendAll(hash, front), entries[|entries| - 1]);
      var all := AppendAll(hash, entries);
      forall i | 0 <= i < |entries| ensures Holds(all[i], entries[i]) {
        assert i < |front| ==> Holds(AppendAll(hash, front)[i], front[i]);
      }
    }
  }

  lemma AppendedHolds(hash: Hash, evs: seq<SecurityEvent>, e: Entry)
    ensures var all := Appended(hash, evs, e);
      |all| == |evs| + 1 && all[..|evs|] == evs && Holds(all[|evs|], e)
  {
    ClipAbridges(e.subject);
    ClipAbridges(e.detail);
    hide EventHash, Clip, Abridges;
  }

  // Tampering.

  /** Two different texts of the same hash, one hashed in each log. */
  ghost predicate Collision(hash: Hash, a: seq<SecurityEvent>, b: seq<SecurityEvent>) {
    exists i, j :: 0 <= i < |a| && 0 <= j < |b| && Collides(hash, a[i], b[j])
  }

  predicate Collides(hash: Hash, e: SecurityEvent, f: SecurityEvent) {
    Joined(e) != Joined(f) && hash(Joined(e)) == hash(Joined(f))
  }

  /** Same number, same links, same text hashed. */
  predicate Alike(e: SecurityEvent, f: SecurityEvent) {
    e.id == f.id && e.prev == f.prev && e.row == f.row && Joined(e) == Joined(f)
  }

  predicate AllAlike(a: seq<SecurityEvent>, b: seq<SecurityEvent>) {
    |a| == |b| && forall i :: 0 <= i < |a| ==> Alike(a[i], b[i])
  }

  lemma VerifiedLast(hash: Hash, evs: seq<SecurityEvent>)
    requires Sane(hash) && Verifies(hash, evs) && evs != []
    ensures var e := evs[|evs| - 1];
      && e.id == |evs| && e.prev == Head(evs[..|evs| - 1]) && e.row == hash(Joined(e)) && Bare(e.prev) && e.row != ""
    ensures Verifies(hash, evs[..|evs| - 1])
  {
    var n := |evs| - 1;
    assert FaultAt(hash, evs, n) == NoFault;
    PrefixVerifies(hash, evs, n);
    if n > 0 {
      assert FaultAt(hash, evs, n - 1) == NoFault;
      assert Head(evs[..n]) == hash(Joined(evs[n - 1]));
    }
  }

  /**
   Two logs that verify and end in the same row hash are the same length and agree event by event on number,
   links and hashed text, or they hold two different texts with the same hash.
   */
  lemma {:induction false} SameHeadSameLog(hash: Hash, a: seq<SecurityEvent>, b: seq<SecurityEvent>)
    requires Sane(hash) && Verifies(hash, a) && Verifies(hash, b) && Head(a) == Head(b)
    ensures AllAlike(a, b) || Collision(hash, a, b)
    decreases |a|
  {
    hide Verifies, Joined, Sane;
    if a == [] || b == [] {
      EmptyHead(hash, a);
      EmptyHead(hash, b);
    } else {
      VerifiedLast(hash, a);
      VerifiedLast(hash, b);
      var e, f := a[|a| - 1], b[|b| - 1];
      if Joined(e) != Joined(f) {
        assert Collides(hash, e, f);
      } else {
        JoinedSplits(e, f);
        SameHeadSameLog(hash, a[..|a| - 1], b[..|b| - 1]);
        hide Collision, Alike;
        CollisionCarries(hash, a, b);
        AlikeCarries(a, b);
      }
    }
  }

  lemma EmptyHead(hash: Hash, evs: seq<SecurityEvent>)
    requires Sane(hash) && Verifies(hash, evs)
    ensures Head(evs) == "" <==> evs == []
  {
    if evs != [] {
      VerifiedLast(hash, evs);
    }
  }

  lemma AlikeCarries(a: seq<SecurityEvent>, b: seq<SecurityEvent>)
    requires a != [] && b != [] && Alike(a[|a| - 1], b[|b| - 1])
    ensures AllAlike(a[..|a| - 1], b[..|b| - 1]) ==> AllAlike(a, b)
  {
    hide Alike;
    if AllAlike(a[..|a| - 1], b[..|b| - 1]) {
      forall i | 0 <= i < |a| ensures Alike(a[i], b[i]) {
        assert i < |a| - 1 ==> Alike(a[..|a| - 1][i], b[..|b| - 1][i]);
      }
    }
  }

  lemma CollisionCarries(hash: Hash, a: seq<SecurityEvent>, b: seq<SecurityEvent>)
    requires a != [] && b != []
    ensures Collision(hash, a[..|a| - 1], b[..|b| - 1]) ==> Collision(hash, a, b)
  {
    if Collision(hash, a[..|a| - 1], b[..|b| - 1]) {
      var i, j :| 0 <= i < |a| - 1 && 0 <= j < |b| - 1 && Collides(hash, a[..|a| - 1][i], b[..|b| - 1][j]);
      assert Collides(hash, a[i], b[j]);
    }
  }

  /**
   Tamper evidence: change any hashed text of a verifying log, or delete or insert events, keep its head, and the
   log no longer verifies, short of a collision.
   */
  lemma TamperingIsReported(hash: Hash, a: seq<SecurityEvent>, b: seq<SecurityEvent>)
    requires Sane(hash) && Verifies(hash, a) && Head(a) == Head(b) && !Collision(hash, a, b)
    requires |a| != |b| || exists i :: 0 <= i < |a| && 0 <= i < |b| && Joined(a[i]) != Joined(b[i])
    ensures !Verifies(hash, b)
  {
    if Verifies(hash, b) {
      SameHeadSameLog(hash, a, b);
    }
  }

  // What the hashed text does and does not fix: the text, and not how it divides into fields.

  predicate AllBare(ps: seq<string>) {
    forall i :: 0 <= i < |ps| ==> Bare(ps[i])
  }

  function Bars(s: string): nat {
    if s == [] then 0 else Bars(s[1..]) + if s[0] == '|' then 1 else 0
  }

  lemma {:induction false} BarsConcat(a: string, b: string)
    ensures Bars(a + b) == Bars(a) + Bars(b)
  {
    if a == [] {
      assert a + b == b;
    } else {
      assert (a + b)[1..] == a[1..] + b;
      BarsConcat(a[1..], b);
    }
  }

  lemma {:induction false} NoBars(s: string)
    ensures Bars(s) == 0 <==> Bare(s)
  {
    if s != [] {
      NoBars(s[1..]);
      assert forall i :: 0 < i < |s| ==> s[i] == s[1..][i - 1];
    }
  }

  /** Joining puts one separator between neighbours; there are no others exactly when no part has one. */
  lemma {:induction false} BareIffFewBars(ps: seq<string>)
    requires ps != []
    ensures Bars(Join(ps)) >= |ps| - 1
    ensures Bars(Join(ps)) == |ps| - 1 <==> AllBare(ps)
  {
    NoBars(ps[0]);
    if |ps| > 1 {
      var rest := ps[1..];
      BareIffFewBars(rest);
      BarsConcat(ps[0] + "|", Join(rest));
      BarsConcat(ps[0], "|");
      assert Bars("|") == 1;
      hide Bare;
      assert forall i :: 0 < i < |ps| ==> ps[i] == rest[i - 1];
      assert AllBare(ps) <==> Bare(ps[0]) && AllBare(rest);
    }
  }

  lemma {:induction false} BareJoinsSplit(ps: seq<string>, qs: seq<string>)
    requires AllBare(ps) && AllBare(qs) && |ps| == |qs| && Join(ps) == Join(qs)
    ensures ps == qs
  {
    if |ps| > 1 {
      SplitFirst(ps[0], Join(ps[1..]), qs[0], Join(qs[1..]));
      BareJoinsSplit(ps[1..], qs[1..]);
      assert ps == [ps[0]] + ps[1..] && qs == [qs[0]] + qs[1..];
    }
  }

  lemma {:induction false} JoinOfTwo(a: seq<string>, b: seq<string>)
    requires a != [] && b != []
    ensures Join(a + b) == Join(a) + "|" + Join(b)
  {
    if |a| == 1 {
      assert (a + b)[1..] == b;
    } else {
      assert (a + b)[1..] == a[1..] + b;
      JoinOfTwo(a[1..], b);
      assert a[0] + "|" + (Join(a[1..]) + "|" + Join(b)) == a[0] + "|" + Join(a[1..]) + "|" + Join(b);
    }
  }

  /** Two neighbours divided differently, with the same text between them. */
  lemma {:induction false} Redivided(ps: seq<string>, k: nat, x: string, y: string)
    requires k + 1 < |ps| && x + "|" + y == ps[k] + "|" + ps[k + 1]
    ensures Join(ps[k := x][k + 1 := y]) == Join(ps)
  {
    var qs := ps[k := x][k + 1 := y];
    if k > 0 {
      assert ps[1..][k - 1 := x][k := y] == qs[1..];
      Redivided(ps[1..], k - 1, x, y);
    } else if |ps| == 2 {
      assert qs == [x, y] && ps == [ps[0], ps[1]];
      assert [x, y][1..] == [y] && ps[1..] == [ps[1]];
    } else {
      assert qs == [x, y] + ps[2..] && ps == [ps[0], ps[1]] + ps[2..];
      JoinOfTwo([x, y], ps[2..]);
      JoinOfTwo([ps[0], ps[1]], ps[2..]);
      assert [x, y][1..] == [y] && [ps[0], ps[1]][1..] == [ps[1]];
    }
  }

  /** Parts with a separator in one of them have a twin: as many others with the same text. */
  lemma Twin(ps: seq<string>) returns (qs: seq<string>)
    requires |ps| > 1 && !AllBare(ps)
    ensures |qs| == |ps| && qs != ps && Join(qs) == Join(ps)
  {
    var k :| 0 <= k < |ps| && !Bare(ps[k]);
    var j :| 0 <= j < |ps[k]| && ps[k][j] == '|';
    var x, y := ps[k][..j], ps[k][j + 1..];
    assert ps[k] == x + "|" + y;
    if k + 1 < |ps| {
      assert x + "|" + (y + "|" + ps[k + 1]) == ps[k] + "|" + ps[k + 1];
      Redivided(ps, k, x, y + "|" + ps[k + 1]);
      qs := ps[k := x][k + 1 := y + "|" + ps[k + 1]];
      assert |qs[k]| < |ps[k]|;
    } else {
      assert (ps[k - 1] + "|" + x) + "|" + y == ps[k - 1] + "|" + ps[k];
      Redivided(ps, k - 1, ps[k - 1] + "|" + x, y);
      qs := ps[k - 1 := ps[k - 1] + "|" + x][k := y];
      assert |qs[k]| < |ps[k]|;
    }
  }

  function WithParts(e: SecurityEvent, ps: seq<string>): SecurityEvent
    requires |ps| == 6
  {
    e.(at := ps[0], kind := ps[1], actor := ps[2], subject := ps[3], ip := ps[4], detail := ps[5])
  }

  /** The text an event is hashed as fixes its six fields exactly when none of them holds a separator. */
  lemma TextFixesFieldsIff(e: SecurityEvent)
    ensures (forall f :: Fields(f) == Fields(e) ==> Parts(f) == Parts(e)) <==> AllBare(Parts(e))
  {
    if AllBare(Parts(e)) {
      forall f | Fields(f) == Fields(e) ensures Parts(f) == Parts(e) {
        BareIffFewBars(Parts(e));
        BareIffFewBars(Parts(f));
        BareJoinsSplit(Parts(f), Parts(e));
      }
    } else {
      var qs := Twin(Parts(e));
      var f := WithParts(e, qs);
      assert Parts(f) == qs;
      assert Fields(f) == Fields(e);
    }
  }

  /** A log that differs only in how the hashed texts divide into fields verifies as the other does. */
  lemma DivisionIsNotChecked(hash: Hash, a: seq<SecurityEvent>, b: seq<SecurityEvent>)
    requires AllAlike(a, b)
    ensures Verifies(hash, a) <==> Verifies(hash, b)
  {
    hide Joined;
    forall k | 0 <= k < |a| ensures FaultAt(hash, a, k) == FaultAt(hash, b, k) {
      assert Alike(a[k], b[k]);
      assert k > 0 ==> Alike(a[k - 1], b[k - 1]);
    }
  }

  /**
   Which logs can be read field by field: of a log that verifies, every other log that passes with the same texts
   has the same fields exactly when no field of any event holds a separator. Wherever one does, the field and its
   neighbour can be divided differently and the forged log verifies as the true one does.
   */
  lemma FieldsAreProtectedIff(hash: Hash, evs: seq<SecurityEvent>)
    requires Verifies(hash, evs)
    ensures (forall b :: AllAlike(evs, b) && Verifies(hash, b) ==> b == evs) <==>
      forall i :: 0 <= i < |evs| ==> AllBare(Parts(evs[i]))
  {
    if forall i :: 0 <= i < |evs| ==> AllBare(Parts(evs[i])) {
      forall b | AllAlike(evs, b) && Verifies(hash, b) ensures b == evs {
        forall i | 0 <= i < |evs| ensures b[i] == evs[i] {
          assert Alike(evs[i], b[i]);
          SameJoined(evs[i], b[i]);
          TextFixesFieldsIff(evs[i]);
          assert Parts(b[i]) == Parts(evs[i]);
          SameParts(evs[i], b[i]);
        }
      }
    } else {
      var i :| 0 <= i < |evs| && !AllBare(Parts(evs[i]));
      var b := Forged(hash, evs, i);
    }
  }

  lemma Forged(hash: Hash, evs: seq<SecurityEvent>, i: nat) returns (b: seq<SecurityEvent>)
    requires i < |evs| && !AllBare(Parts(evs[i]))
    ensures AllAlike(evs, b) && b != evs && (Verifies(hash, b) <==> Verifies(hash, evs))
  {
    var qs := Twin(Parts(evs[i]));
    var g := WithParts(evs[i], qs);
    assert Parts(g) == qs;
    b := evs[i := g];
    assert Joined(g) == Joined(evs[i]);
    hide Joined, Fields, Verifies;
    DivisionIsNotChecked(hash, evs, b);
    assert b[i] != evs[i];
  }

  lemma SameParts(e: SecurityEvent, f: SecurityEvent)
    requires Parts(e) == Parts(f) && e.id == f.id && e.prev == f.prev && e.row == f.row
    ensures e == f
  {
    assert Parts(e)[0] == Parts(f)[0] && Parts(e)[1] == Parts(f)[1] && Parts(e)[2] == Parts(f)[2];
    assert Parts(e)[3] == Parts(f)[3] && Parts(e)[4] == Parts(f)[4] && Parts(e)[5] == Parts(f)[5];
  }

  lemma SameJoined(e: SecurityEvent, f: SecurityEvent)
    requires Joined(e) == Joined(f) && e.prev == f.prev && e.id == f.id
    ensures Fields(e) == Fields(f)
  {
    hide Fields, FormatInt;
    var head := e.prev + "|" + (FormatInt(e.id) + "|");
    assert Joined(e) == head + Fields(e) && Joined(f) == head + Fields(f);
    assert Joined(e)[|head|..] == Fields(e) && Joined(f)[|head|..] == Fields(f);
  }
}
