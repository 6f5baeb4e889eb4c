/**
 The fan-out as a value: what each operation of the hub does to the streams it holds.

 `streams` holds every stream ever opened; the attached ones are those not done, which
 is exactly the hub's own table (the `Hub` class keeps that table and proves it).
 */
module HubSpec {
  import opened FeedEvents

  datatype Stream = Stream(
    buffer: seq<Event>, capacity: nat, done: bool, reason: Notice, pending: Notice)

  datatype HubState = HubState(
    streams: map<nat, Stream>, nextId: nat, closed: bool, why: Notice,
    floor: Lsn, inTx: bool, txChanges: nat, releasable: bool)

  function NewHub(): HubState {
    HubState(map[], 0, false, NoNotice, 0, false, 0, false)
  }

  // One stream.

  /** A stream ends once; a later end changes nothing. */
  function End(s: Stream, n: Notice): Stream {
    if s.done then s
    else s.(done := true, reason := if n.NoNotice? then s.reason else n)
  }

  function Pend(s: Stream, n: Notice): Stream {
    if s.pending.NoNotice? then s.(pending := n) else s
  }

  /** One attempt to send without blocking, and what a full buffer leads to. */
  function Offer(s: Stream, ev: Event, full: Notice): Stream {
    if |s.buffer| < s.capacity then s.(buffer := s.buffer + [ev])
    else if !s.pending.NoNotice? then s
    else if full == Resync(TxTooLarge) then Pend(s, full)
    else End(s, full)
  }

  predicate Waiting(s: Stream) {
    !s.done && !s.pending.NoNotice?
  }

  function Release(s: Stream): Stream {
    if Waiting(s) then End(s.(pending := NoNotice), s.pending) else s
  }

  // The hub.

  /** Where the stream is after an event: floor, open transaction, changes so far. */
  function Note(h: HubState, ev: Event): HubState {
    match ev
    case Begin(_, commit) => h.(inTx := true, txChanges := 0, floor := if commit > h.floor then commit else h.floor)
    case Change(_, _, _, _) => h.(txChanges := h.txChanges + 1)
    case Commit(_, _, _) => h.(inTx := false, txChanges := 0)
    case Schema(_, _) => h
  }

  /** Inside a transaction the only honest answer is to refetch; between two, resuming is sound. */
  function OverflowNotice(inTx: bool): Notice {
    if inTx then Resync(TxTooLarge) else Error(Overflow)
  }

  function OfferAll(streams: map<nat, Stream>, ev: Event, full: Notice): map<nat, Stream> {
    map id | id in streams :: if streams[id].done then streams[id] else Offer(streams[id], ev, full)
  }

  predicate AnyWaiting(streams: map<nat, Stream>) {
    exists id :: id in streams && Waiting(streams[id])
  }

  function Publish(h: HubState, ev: Event): HubState {
    var h1 := Note(h, ev);
    var streams := OfferAll(h.streams, ev, OverflowNotice(h1.inTx));
    h1.(streams := streams, releasable := if ev.Commit? then AnyWaiting(streams) else h.releasable)
  }

  function PublishAll(h: HubState, evs: seq<Event>): HubState {
    if evs == [] then h else Publish(PublishAll(h, evs[..|evs| - 1]), evs[|evs| - 1])
  }

  function StartedAt(h: HubState, at: Lsn): HubState {
    h.(floor := at)
  }

  function ReleasePending(h: HubState): HubState {
    h.(streams := map id | id in h.streams :: Release(h.streams[id]), releasable := false)
  }

  function Close(h: HubState, n: Notice): HubState {
    h.(closed := true, why := n, streams := map id | id in h.streams :: End(h.streams[id], n))
  }

  function Subscribe(h: HubState, capacity: nat): HubState {
    var s := Stream([], capacity, h.closed, if h.closed then h.why else NoNotice, NoNotice);
    h.(nextId := h.nextId + 1, streams := h.streams[h.nextId + 1 := s])
  }

  function CloseStream(h: HubState, id: nat): HubState
    requires id in h.streams
  {
    h.(streams := h.streams[id := End(h.streams[id], NoNotice)])
  }

  function Read(h: HubState, id: nat): HubState
    requires id in h.streams && h.streams[id].buffer != []
  {
    h.(streams := h.streams[id := h.streams[id].(buffer := h.streams[id].buffer[1..])])
  }

  lemma PublishAllNone(h: HubState)
    ensures PublishAll(h, []) == h
  {
  }

  lemma {:induction false} PublishAllConcat(h: HubState, a: seq<Event>, b: seq<Event>)
    ensures PublishAll(h, a + b) == PublishAll(PublishAll(h, a), b)
  {
    if b == [] {
      assert a + b == a;
    } else {
      assert (a + b)[..|a + b| - 1] == a + b[..|b| - 1];
      PublishAllConcat(h, a, b[..|b| - 1]);
    }
  }
}
