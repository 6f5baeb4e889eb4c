/** What travels on the change feed: log positions, events, and the notices a stream ends with. */
module FeedEvents {
  import opened Wire

  /** A write-ahead log position. Only compared, never computed with, so its width does not matter. */
  type Lsn = nat

  datatype Code = Overflow | DecoderFailed | SlotLost | MaxDuration | CursorExpired | TxTooLarge

  /** `NoNotice` is the zero notice, the one with an empty type. */
  datatype Notice = NoNotice | Resync(code: Code) | Error(code: Code)

  datatype Event =
    | Begin(xid: nat, commit: Lsn)
    | Change(xid: nat, commit: Lsn, record: Lsn, body: RowChange)
    | Commit(xid: nat, commit: Lsn, changes: nat)
    | Schema(table: string, columns: seq<Column>)

  /** The events of a sequence other than schema announcements. */
  function Rows(evs: seq<Event>): seq<Event> {
    if evs == [] then []
    else if evs[|evs| - 1].Schema? then Rows(evs[..|evs| - 1])
    else Rows(evs[..|evs| - 1]) + [evs[|evs| - 1]]
  }

  lemma {:induction false} RowsConcat(a: seq<Event>, b: seq<Event>)
    ensures Rows(a + b) == Rows(a) + Rows(b)
  {
    if b == [] {
      assert a + b == a;
    } else {
      var last := b[|b| - 1];
      assert (a + b)[..|a + b| - 1] == a + b[..|b| - 1];
      RowsConcat(a, b[..|b| - 1]);
    }
  }

  /** Whether a transaction is open after these events: a begin with no commit after it. */
  predicate Open(evs: seq<Event>) {
    evs != [] &&
    match evs[|evs| - 1]
    case Begin(_, _) => true
    case Commit(_, _, _) => false
    case _ => Open(evs[..|evs| - 1])
  }
}
