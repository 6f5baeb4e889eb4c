/** Rounds of promotion, one after the other, and the deciding of a request. */
module PromotionRounds {
  import opened Wrappers
  import opened Promotion

  // Deciding.

  datatype Decision = Done | NotOpen | NoSuchRequest | NotADecision

  /** The requests as the store keeps them; each update is one statement, whoever else is writing. */
  class Requests {
    var rows: map<int, Request>
    var decidedBy: map<int, int>

    constructor (rows: map<int, Request>)
      ensures this.rows == rows && decidedBy == map[]
    {
      this.rows, decidedBy := rows, map[];
    }

    /** Moves an open request to a decided state; of callers that race, the first to get here. */
    method Claim(id: int, user: int, status: Status) returns (d: Decision)
      modifies this
      ensures (rows, decidedBy, d) == Claimed(old(rows), old(decidedBy), id, user, status)
    {
      if status != Approved && status != Rejected { return NotADecision; }
      if id !in rows { return NoSuchRequest; }
      if rows[id].status != Open { return NotOpen; }
      rows, decidedBy := rows[id := rows[id].(status := status)], decidedBy[id := user];
      d := Done;
    }

    /** Records how applying went. */
    method Finish(id: int, applied: nat, failed: bool)
      modifies `rows
      ensures rows == Finished(old(rows), id, applied, failed)
    {
      if id in rows {
        rows := rows[id := rows[id].(status := if failed then Failed else Approved, applied := applied)];
      }
    }
  }

  function Claimed(rows: map<int, Request>, decidedBy: map<int, int>, id: int, user: int, status: Status)
    : (map<int, Request>, map<int, int>, Decision)
  {
    if status != Approved && status != Rejected then (rows, decidedBy, NotADecision)
    else if id !in rows then (rows, decidedBy, NoSuchRequest)
    else if rows[id].status != Open then (rows, decidedBy, NotOpen)
    else (rows[id := rows[id].(status := status)], decidedBy[id := user], Done)
  }

  /**
   A claim is done exactly when it is a decision on a request that is open, and then only that request changes: its
   status, and who decided it. Each other answer changes nothing and says why.
   */
  lemma ClaimedIff(rows: map<int, Request>, decidedBy: map<int, int>, id: int, user: int, status: Status)
    ensures var (after, who, d) := Claimed(rows, decidedBy, id, user, status);
      var decision := status == Approved || status == Rejected;
      && (d == Done <==> decision && id in rows && rows[id].status == Open)
      && (d == NotADecision <==> !decision) && (d == NoSuchRequest <==> decision && id !in rows)
      && (d != Done ==> after == rows && who == decidedBy)
      && (d == Done ==> id in after && id in who && after[id] == rows[id].(status := status) && who[id] == user
                        && after - {id} == rows - {id} && who - {id} == decidedBy - {id})
  {
  }

  /** Finishing records on a request that is there, and on no other, whether it was applied and how much of it. */
  lemma FinishedIs(rows: map<int, Request>, id: int, applied: nat, failed: bool)
    ensures var after := Finished(rows, id, applied, failed);
      && after.Keys == rows.Keys && after - {id} == rows - {id}
      && (id in rows ==> after[id] == rows[id].(status := after[id].status, applied := applied)
                         && (after[id].status == Failed <==> failed) && (after[id].status == Approved <==> !failed))
  {
  }

  function Finished(rows: map<int, Request>, id: int, applied: nat, failed: bool): map<int, Request> {
    if id !in rows then rows
    else rows[id := rows[id].(status := if failed then Failed else Approved, applied := applied)]
  }

  datatype Call = ClaimCall(id: int, user: int, status: Status) | FinishCall(id: int, applied: nat, failed: bool)

  /** How many claims of one request succeed over a whole history of calls, in whatever order they came. */
  function Wins(rows: map<int, Request>, calls: seq<Call>, id: int): nat
    decreases |calls|
  {
    if calls == [] then 0
    else match calls[0]
      case ClaimCall(x, user, status) =>
        var (rows2, _, d) := Claimed(rows, map[], x, user, status);
        (if x == id && d == Done then 1 else 0) + Wins(rows2, calls[1..], id)
      case FinishCall(x, applied, failed) => Wins(Finished(rows, x, applied, failed), calls[1..], id)
  }

  /** Any one request is claimed at most once, and not at all if it was not open to begin with. */
  lemma {:induction false} ClaimedAtMostOnce(rows: map<int, Request>, calls: seq<Call>, id: int)
    ensures Wins(rows, calls, id) <= if id in rows && rows[id].status == Open then 1 else 0
    decreases |calls|
  {
    if calls != [] {
      match calls[0]
      case ClaimCall(x, user, status) =>
        ClaimedAtMostOnce(Claimed(rows, map[], x, user, status).0, calls[1..], id);
      case FinishCall(x, applied, failed) =>
        ClaimedAtMostOnce(Finished(rows, x, applied, failed), calls[1..], id);
    }
  }

  // Rounds.

  datatype Outcome = Applies | Refused | Fails

  /** The two records, the requests so far, and what the rounds that were applied have carried. */
  datatype World = World(src: seq<Row>, tgt: seq<Row>, requests: seq<Request>, carried: seq<Row>)

  /**
   A branch records more, or a round is built from all requests so far, decided and finished. `rows` are what
   the target records meanwhile.
   */
  datatype Step =
    | SourceGrows(rows: seq<Row>)
    | TargetGrows(rows: seq<Row>)
    | Round(outcome: Outcome, rows: seq<Row>)

  predicate Increasing(rows: seq<Row>) {
    forall i, j :: 0 <= i < j < |rows| ==> rows[i].id < rows[j].id
  }

  function Ids(rows: seq<Row>): seq<int> {
    seq(|rows|, i requires 0 <= i < |rows| => rows[i].id)
  }

  const SOURCE := "source"
  const TARGET := "target"

  function Pending(w: World, n: nat): seq<Row>
    requires n <= |w.src|
  {
    Carry(w.src[n..], PromotedIds(w.requests, SOURCE, TARGET))
  }

  /** A round's request once it is finished. */
  function Settled(w: World, entries: seq<Row>, outcome: Outcome): Request {
    var ids := Some(Ids(entries));
    match outcome
    case Applies => Request(|w.requests| + 1, SOURCE, TARGET, Approved, |entries|, ids)
    case Refused => Request(|w.requests| + 1, SOURCE, TARGET, Rejected, 0, ids)
    case Fails => Request(|w.requests| + 1, SOURCE, TARGET, Failed, 0, ids)
  }

  /** The records keep their numbering and the place they parted at; a round needs something to carry. */
  predicate Enabled(w: World, n: nat, s: Step)
    requires n <= |w.src|
  {
    match s
    case SourceGrows(rows) => Increasing(w.src + rows) && IsFork(w.src + rows, w.tgt, n)
    case TargetGrows(rows) => IsFork(w.src, w.tgt + rows, n)
    case Round(_, rows) => IsFork(w.src, w.tgt + rows, n) && Pending(w, n) != []
  }

  function Next(w: World, n: nat, s: Step): World
    requires n <= |w.src| && Enabled(w, n, s)
  {
    match s
    case SourceGrows(rows) => w.(src := w.src + rows)
    case TargetGrows(rows) => w.(tgt := w.tgt + rows)
    case Round(outcome, rows) =>
      var entries := Pending(w, n);
      World(w.src, w.tgt + rows, w.requests + [Settled(w, entries, outcome)],
            if outcome == Applies then w.carried + entries else w.carried)
  }

  /** A run; a step that cannot be taken is left out. */
  function Run(w: World, n: nat, steps: seq<Step>): World {
    if steps == [] then w
    else
      var v := Run(w, n, steps[..|steps| - 1]);
      if n <= |v.src| && Enabled(v, n, steps[|steps| - 1]) then Next(v, n, steps[|steps| - 1]) else v
  }

  function IdSet(rows: seq<Row>): set<int> {
    set i | 0 <= i < |rows| :: rows[i].id
  }

  /** What has been carried is the first part of what can be, and the history knows exactly that. */
  predicate Inv(w: World, n: nat) {
    && n <= |w.src| && Increasing(w.src) && IsFork(w.src, w.tgt, n)
    && PromotedIds(w.requests, SOURCE, TARGET) == IdSet(w.carried)
    && |w.carried| <= |Replayable(w.src[n..])| && w.carried == Replayable(w.src[n..])[..|w.carried|]
  }

  lemma {:induction false} ReplayableFrom(rows: seq<Row>, k: nat)
    requires k < |Replayable(rows)|
    ensures Replayable(rows)[k] in rows
  {
    hide CanReplay;
    if k < |Replayable(rows[..|rows| - 1])| {
      ReplayableFrom(rows[..|rows| - 1], k);
    }
  }

  lemma {:induction false} ReplayableInOrder(rows: seq<Row>)
    requires Increasing(rows)
    ensures Increasing(Replayable(rows))
  {
    hide CanReplay;
    if rows != [] {
      var front, r := rows[..|rows| - 1], rows[|rows| - 1];
      ReplayableInOrder(front);
      forall k | 0 <= k < |Replayable(front)| ensures Replayable(front)[k].id < r.id {
        ReplayableFrom(front, k);
      }
    }
  }

  lemma {:induction false} ReplayableGrows(a: seq<Row>, b: seq<Row>)
    ensures Replayable(a + b) == Replayable(a) + Replayable(b)
  {
    hide CanReplay;
    if b == [] {
      assert a + b == a;
    } else {
      assert (a + b)[..|a + b| - 1] == a + b[..|b| - 1];
      ReplayableGrows(a, b[..|b| - 1]);
    }
  }

  lemma {:induction false} NoneLeft(rows: seq<Row>, ids: set<int>)
    requires forall k :: 0 <= k < |Replayable(rows)| ==> Replayable(rows)[k].id in ids
    ensures Carry(rows, ids) == []
  {
    hide CanReplay;
    if rows != [] {
      var front := rows[..|rows| - 1];
      forall k | 0 <= k < |Replayable(front)| ensures Replayable(front)[k].id in ids {
        assert Replayable(front)[k] == Replayable(rows)[k];
      }
      NoneLeft(front, ids);
      var r := rows[|rows| - 1];
      assert CanReplay(r) ==> Replayable(rows)[|Replayable(front)|] == r;
    }
  }

  /** A round carries exactly what is left: the first part and it make the whole. */
  lemma {:induction false} CarryIsTheRest(rows: seq<Row>, m: nat)
    requires Increasing(rows) && m <= |Replayable(rows)|
    ensures Replayable(rows) == Replayable(rows)[..m] + Carry(rows, IdSet(Replayable(rows)[..m]))
  {
    hide CanReplay;
    var all := Replayable(rows);
    var first := all[..m];
    if m == |all| {
      assert first == all;
      NoneLeft(rows, IdSet(first));
    } else {
      var front, r := rows[..|rows| - 1], rows[|rows| - 1];
      assert first == Replayable(front)[..m];
      CarryIsTheRest(front, m);
      if CanReplay(r) {
        assert r.id !in IdSet(first) by {
          forall k | 0 <= k < m ensures first[k].id < r.id {
            ReplayableFrom(front, k);
            assert first[k] == Replayable(front)[k];
          }
        }
      }
    }
  }

  lemma IdsSet(rows: seq<Row>)
    ensures (set i | 0 <= i < |Ids(rows)| :: Ids(rows)[i]) == IdSet(rows)
  {
    forall x ensures x in (set i | 0 <= i < |Ids(rows)| :: Ids(rows)[i]) <==> x in IdSet(rows) {
      if x in IdSet(rows) {
        var i :| 0 <= i < |rows| && rows[i].id == x;
        assert Ids(rows)[i] == x;
      }
    }
  }

  lemma IdSetConcat(a: seq<Row>, b: seq<Row>)
    ensures IdSet(a + b) == IdSet(a) + IdSet(b)
  {
    forall x ensures x in IdSet(a + b) <==> x in IdSet(a) + IdSet(b) {
      if x in IdSet(a) {
        var i :| 0 <= i < |a| && a[i].id == x;
        assert (a + b)[i].id == x;
      }
      if x in IdSet(b) {
        var i :| 0 <= i < |b| && b[i].id == x;
        assert (a + b)[|a| + i].id == x;
      }
    }
  }

  lemma PromotedGrows(w: World, entries: seq<Row>, outcome: Outcome)
    requires entries != []
    ensures PromotedIds(w.requests + [Settled(w, entries, outcome)], SOURCE, TARGET) ==
      PromotedIds(w.requests, SOURCE, TARGET) + if outcome == Applies then IdSet(entries) else {}
  {
    var r := Settled(w, entries, outcome);
    assert (w.requests + [r])[..|w.requests|] == w.requests;
    IdsSet(entries);
  }

  lemma RoundInv(w: World, n: nat, outcome: Outcome, rows: seq<Row>)
    requires Inv(w, n) && Enabled(w, n, Round(outcome, rows))
    ensures Inv(Next(w, n, Round(outcome, rows)), n)
    ensures outcome == Applies ==> Next(w, n, Round(outcome, rows)).carried == Replayable(w.src[n..])
  {
    hide Replayable, Carry, PromotedIds;
    var entries := Pending(w, n);
    PromotedGrows(w, entries, outcome);
    CarryIsTheRest(w.src[n..], |w.carried|);
    IdSetConcat(w.carried, entries);
  }

  lemma GrowInv(w: World, n: nat, rows: seq<Row>)
    requires Inv(w, n) && Enabled(w, n, SourceGrows(rows))
    ensures Inv(Next(w, n, SourceGrows(rows)), n)
  {
    assert (w.src + rows)[n..] == w.src[n..] + rows;
    ReplayableGrows(w.src[n..], rows);
    hide Replayable, PromotedIds;
  }

  predicate Fresh(w: World, n: nat) {
    n <= |w.src| && Increasing(w.src) && IsFork(w.src, w.tgt, n) && w.requests == [] && w.carried == []
  }

  lemma {:induction false} RunInv(w: World, n: nat, steps: seq<Step>)
    requires Fresh(w, n)
    ensures Inv(Run(w, n, steps), n)
  {
    if steps == [] {
      assert PromotedIds([], SOURCE, TARGET) == {};
    } else {
      RunInv(w, n, steps[..|steps| - 1]);
      Unfold(w, n, steps);
      var v, s := Run(w, n, steps[..|steps| - 1]), steps[|steps| - 1];
      hide Replayable, PromotedIds, Increasing, Run;
      if Enabled(v, n, s) {
        match s
        case SourceGrows(rows) => GrowInv(v, n, rows);
        case TargetGrows(rows) =>
        case Round(outcome, rows) => RoundInv(v, n, outcome, rows);
      }
    }
  }

  lemma Unfold(w: World, n: nat, steps: seq<Step>)
    requires steps != []
    ensures var v, s := Run(w, n, steps[..|steps| - 1]), steps[|steps| - 1];
      Run(w, n, steps) == if n <= |v.src| && Enabled(v, n, s) then Next(v, n, s) else v
  {
  }

  /**
   Over any run of rounds, applied, refused or failed, with both records growing in between: what has been carried
   is distinct and in the order it was recorded, it is the first part of the source's replayable entries after the
   fork, and a round that is applied completes it.
   */
  lemma RoundsCarryEverythingOnce(w: World, n: nat, steps: seq<Step>, rows: seq<Row>)
    requires Fresh(w, n)
    ensures var v := Run(w, n, steps);
      && n <= |v.src| && Increasing(v.carried)
      && |v.carried| <= |Replayable(v.src[n..])| && v.carried == Replayable(v.src[n..])[..|v.carried|]
      && (Enabled(v, n, Round(Applies, rows)) ==> Next(v, n, Round(Applies, rows)).carried == Replayable(v.src[n..]))
  {
    RunInv(w, n, steps);
    var v := Run(w, n, steps);
    hide Run;
    ReplayableInOrder(v.src[n..]);
    if Enabled(v, n, Round(Applies, rows)) {
      RoundInv(v, n, Applies, rows);
    }
  }

  // What the store's history leaves out.

  const HISTORY_LIMIT: nat := 500

  function ApprovedTo(requests: seq<Request>, target: string): seq<Request> {
    if requests == [] then []
    else
      var r := requests[|requests| - 1];
      ApprovedTo(requests[..|requests| - 1], target) + if r.status == Approved && r.target == target then [r] else []
  }

  /** The store's answer: the newest five hundred approved requests to the target, requests being in order. */
  function Newest(requests: seq<Request>, target: string): seq<Request> {
    var all := ApprovedTo(requests, target);
    if |all| <= HISTORY_LIMIT then all else all[|all| - HISTORY_LIMIT..]
  }

  /** Those of them from the source, which is what a round is built with. */
  function HistoryOf(requests: seq<Request>, source: string, target: string): seq<Request> {
    FromSource(Newest(requests, target), source)
  }

  function FromSource(requests: seq<Request>, source: string): seq<Request> {
    if requests == [] then []
    else
      var r := requests[|requests| - 1];
      FromSource(requests[..|requests| - 1], source) + if r.source == source then [r] else []
  }

  /** What the store is asked for: the approved requests to the target, in order. */
  lemma {:induction false} ApprovedIff(requests: seq<Request>, target: string, r: Request)
    ensures r in ApprovedTo(requests, target) <==> r in requests && r.status == Approved && r.target == target
    ensures InOrder(requests) ==> InOrder(ApprovedTo(requests, target))
  {
    if requests != [] {
      var front := requests[..|requests| - 1];
      ApprovedIff(front, target, r);
      forall i | 0 <= i < |ApprovedTo(front, target)| ensures ApprovedTo(front, target)[i] in front {
        ApprovedIff(front, target, ApprovedTo(front, target)[i]);
      }
    }
  }

  predicate InOrder(requests: seq<Request>) {
    forall i, j :: 0 <= i < j < |requests| ==> requests[i].id < requests[j].id
  }

  lemma {:induction false} FromSourceIff(requests: seq<Request>, source: string, r: Request)
    ensures r in FromSource(requests, source) <==> r in requests && r.source == source
  {
    if requests != [] {
      FromSourceIff(requests[..|requests| - 1], source, r);
    }
  }

  /** What it answers with: five hundred of them, or all there are, and none left out is newer than one that is there. */
  lemma NewestIs(requests: seq<Request>, target: string)
    ensures var all, newest := ApprovedTo(requests, target), Newest(requests, target);
      |newest| == (if |all| < 500 then |all| else 500) && newest == all[|all| - |newest|..]
  {
    hide ApprovedTo;
  }

  lemma {:induction false} PromotedConcat(a: seq<Request>, b: seq<Request>, source: string, target: string)
    ensures PromotedIds(a + b, source, target) == PromotedIds(a, source, target) + PromotedIds(b, source, target)
  {
    hide EntryIds, Counts;
    if b == [] {
      assert a + b == a;
    } else {
      assert (a + b)[..|a + b| - 1] == a + b[..|b| - 1];
      PromotedConcat(a, b[..|b| - 1], source, target);
    }
  }

  lemma {:induction false} PromotedApproved(requests: seq<Request>, source: string, target: string)
    ensures PromotedIds(ApprovedTo(requests, target), source, target) == PromotedIds(requests, source, target)
  {
    hide EntryIds;
    if requests != [] {
      var front, r := requests[..|requests| - 1], requests[|requests| - 1];
      PromotedApproved(front, source, target);
      if r.status == Approved && r.target == target {
        assert (ApprovedTo(front, target) + [r])[..|ApprovedTo(front, target)|] == ApprovedTo(front, target);
      } else {
        assert ApprovedTo(front, target) + [] == ApprovedTo(front, target);
      }
    }
  }

  lemma {:induction false} PromotedFromSource(requests: seq<Request>, source: string, target: string)
    ensures PromotedIds(FromSource(requests, source), source, target) == PromotedIds(requests, source, target)
  {
    hide EntryIds;
    if requests != [] {
      var front, r := requests[..|requests| - 1], requests[|requests| - 1];
      PromotedFromSource(front, source, target);
      if r.source == source {
        assert (FromSource(front, source) + [r])[..|FromSource(front, source)|] == FromSource(front, source);
      } else {
        assert FromSource(front, source) + [] == FromSource(front, source);
      }
    }
  }

  /** What the requests beyond the limit promoted, the oldest ones. */
  function CutOff(requests: seq<Request>, source: string, target: string): set<int> {
    var all := ApprovedTo(requests, target);
    if |all| <= HISTORY_LIMIT then {} else PromotedIds(all[..|all| - HISTORY_LIMIT], source, target)
  }

  /** The history knows everything promoted but what only the requests beyond the limit promoted. */
  lemma HistoryKnows(requests: seq<Request>, source: string, target: string)
    ensures PromotedIds(requests, source, target) ==
      PromotedIds(HistoryOf(requests, source, target), source, target) + CutOff(requests, source, target)
  {
    hide PromotedIds;
    PromotedApproved(requests, source, target);
    PromotedFromSource(Newest(requests, target), source, target);
    var all := ApprovedTo(requests, target);
    if |all| > HISTORY_LIMIT {
      var k := |all| - HISTORY_LIMIT;
      assert all == all[..k] + all[k..];
      PromotedConcat(all[..k], all[k..], source, target);
    }
  }

  /** The replayable rows whose id is among `ids`, in order. */
  function ReplayableIn(rows: seq<Row>, ids: set<int>): seq<Row> {
    if rows == [] then []
    else
      var r := rows[|rows| - 1];
      ReplayableIn(rows[..|rows| - 1], ids) + if CanReplay(r) && r.id in ids then [r] else []
  }

  /** Those of a round's entries that an earlier request carried already. */
  function Again(entries: seq<Row>, promoted: set<int>): seq<Row> {
    if entries == [] then []
    else
      var r := entries[|entries| - 1];
      Again(entries[..|entries| - 1], promoted) + if r.id in promoted then [r] else []
  }

  lemma {:induction false} CarriedAgainIs(rows: seq<Row>, known: set<int>, promoted: set<int>)
    ensures Again(Carry(rows, known), promoted) == ReplayableIn(rows, promoted - known)
  {
    hide CanReplay;
    if rows != [] {
      var front, r := rows[..|rows| - 1], rows[|rows| - 1];
      CarriedAgainIs(front, known, promoted);
      if CanReplay(r) && r.id !in known {
        assert (Carry(front, known) + [r])[..|Carry(front, known)|] == Carry(front, known);
      } else {
        assert Carry(front, known) + [] == Carry(front, known);
      }
    }
  }

  lemma {:induction false} NoneReplayableIn(rows: seq<Row>, ids: set<int>)
    ensures ReplayableIn(rows, ids) == [] <==> NoneIn(rows, ids)
  {
    hide CanReplay, NoneIn;
    if rows == [] {
      assert NoneIn(rows, ids) by { NoneOfOne([], rows, ids); }
    } else {
      NoneReplayableIn(rows[..|rows| - 1], ids);
      NoneOfOne(rows[..|rows| - 1], rows, ids);
    }
  }

  /** No replayable row has an id among `ids`. */
  predicate NoneIn(rows: seq<Row>, ids: set<int>) {
    forall i :: 0 <= i < |rows| && CanReplay(rows[i]) ==> rows[i].id !in ids
  }

  lemma NoneOfOne(front: seq<Row>, rows: seq<Row>, ids: set<int>)
    requires rows == [] || front == rows[..|rows| - 1]
    ensures NoneIn(rows, ids) <==>
      rows == [] || (NoneIn(front, ids) && !(CanReplay(rows[|rows| - 1]) && rows[|rows| - 1].id in ids))
  {
    hide CanReplay;
    if rows != [] {
      assert forall i :: 0 <= i < |front| ==> rows[i] == front[i];
    }
  }

  /**
   A round built with any history, against all the requests there are: it carries again exactly the replayable
   entries that some request promoted and the history does not know of, and so nothing twice exactly when there is
   no such entry.
   */
  lemma ForgottenRequestIsCarriedAgain(
      rows: seq<Row>, history: seq<Request>, all: seq<Request>, source: string, target: string)
    ensures var known, promoted := PromotedIds(history, source, target), PromotedIds(all, source, target);
      && Again(Carry(rows, known), promoted) == ReplayableIn(rows, promoted - known)
      && (Again(Carry(rows, known), promoted) == [] <==> NoneIn(rows, promoted - known))
  {
    hide PromotedIds, NoneIn;
    var known, promoted := PromotedIds(history, source, target), PromotedIds(all, source, target);
    CarriedAgainIs(rows, known, promoted);
    NoneReplayableIn(rows, promoted - known);
  }

  /**
   A round built with the store's own history, cut at five hundred requests to the target: it carries again exactly
   the replayable entries that only requests beyond the limit promoted. So nothing is carried twice exactly when no
   entry after the fork is one of those, and certainly while there are no more than five hundred.
   */
  lemma StoreCutCarriesAgain(requests: seq<Request>, source: string, target: string, rows: seq<Row>)
    ensures var known := PromotedIds(HistoryOf(requests, source, target), source, target);
      var promoted := PromotedIds(requests, source, target);
      var again := Again(Carry(rows, known), promoted);
      && again == ReplayableIn(rows, CutOff(requests, source, target) - known)
      && (again == [] <==> NoneIn(rows, CutOff(requests, source, target) - known))
      && (|ApprovedTo(requests, target)| <= HISTORY_LIMIT ==> again == [])
  {
    var known := PromotedIds(HistoryOf(requests, source, target), source, target);
    var promoted := PromotedIds(requests, source, target);
    var cut := CutOff(requests, source, target);
    HistoryKnows(requests, source, target);
    hide PromotedIds, CutOff, HistoryOf, CanReplay, NoneIn;
    assert promoted - known == cut - known;
    CarriedAgainIs(rows, known, promoted);
    NoneReplayableIn(rows, cut - known);
    NothingCutOff(requests, source, target);
    assert |ApprovedTo(requests, target)| <= HISTORY_LIMIT ==> NoneIn(rows, cut - known) by { NoneInNone(rows); }
  }

  lemma NoneInNone(rows: seq<Row>)
    ensures forall known: set<int> :: NoneIn(rows, {} - known)
  {
    hide CanReplay;
  }

  lemma NothingCutOff(requests: seq<Request>, source: string, target: string)
    ensures |ApprovedTo(requests, target)| <= HISTORY_LIMIT ==> CutOff(requests, source, target) == {}
  {
    hide ApprovedTo;
  }

  /** Five hundred later requests push an applied one out of the history, and its entry is carried again. */
  lemma OldRequestIsCarriedAgain(old_: Request, later: seq<Request>, row: Row)
    requires Counts(old_, SOURCE, TARGET) && old_.entries == Some([row.id]) && CanReplay(row)
    requires |later| == HISTORY_LIMIT
    requires forall i :: 0 <= i < |later| ==>
      later[i].status == Approved && later[i].target == TARGET && later[i].entries == Some([row.id + 1 + i])
    ensures var requests := [old_] + later;
      && row.id in PromotedIds(requests, SOURCE, TARGET)
      && Carry([row], PromotedIds(HistoryOf(requests, SOURCE, TARGET), SOURCE, TARGET)) == [row]
  {
    hide CanReplay, PromotedIds;
    var requests := [old_] + later;
    AllApproved(requests, TARGET);
    assert requests[1..] == later && Newest(requests, TARGET) == later;
    hide ApprovedTo;
    PromotedConcat([old_], later, SOURCE, TARGET);
    OnePromotes(old_, row.id);
    PromotedFromSource(later, SOURCE, TARGET);
    Above(later, row.id);
    CarriesOne(row, PromotedIds(HistoryOf(requests, SOURCE, TARGET), SOURCE, TARGET));
  }

  lemma OnePromotes(r: Request, id: int)
    requires Counts(r, SOURCE, TARGET) && r.entries == Some([id])
    ensures id in PromotedIds([r], SOURCE, TARGET)
  {
    assert [r][..0] == [] && r.entries.value[0] == id;
  }

  lemma CarriesOne(row: Row, known: set<int>)
    requires CanReplay(row) && row.id !in known
    ensures Carry([row], known) == [row]
  {
    hide CanReplay;
    assert [row][..0] == [] && Carry([], known) == [];
  }

  lemma {:induction false} AllApproved(requests: seq<Request>, target: string)
    requires forall i :: 0 <= i < |requests| ==> requests[i].status == Approved && requests[i].target == target
    ensures ApprovedTo(requests, target) == requests
  {
    if requests != [] {
      AllApproved(requests[..|requests| - 1], target);
    }
  }

  lemma {:induction false} Above(requests: seq<Request>, id: int)
    requires forall i :: 0 <= i < |requests| ==> requests[i].entries == Some([id + 1 + i])
    ensures id !in PromotedIds(requests, SOURCE, TARGET)
  {
    if requests != [] {
      Above(requests[..|requests| - 1], id);
    }
  }
}
