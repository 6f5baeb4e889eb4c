/** The steps in which the hub and its streams move: publishing, releasing, joining, reading, leaving. */
module FeedPublish {
  import opened FeedEvents
  import opened HubSpec
  import opened Feed
  import opened FeedInvariant
  import opened FeedReceive

  // One stream, one event.

  lemma OpenAfter(evs: seq<Event>, n: nat)
    requires n < |evs|
    ensures Open(evs[..n + 1]) == (evs[n].Begin? || (!evs[n].Commit? && Open(evs[..n])))
  {
    assert evs[..n + 1][..n] == evs[..n];
  }

  lemma OfferKept(s: Stream, w: Watch, emitted: seq<Event>, n: nat, full: Notice, hole: nat, pendedIn: nat)
    requires n < |emitted| && Kept(s, w, emitted, n) && ChangesInside(emitted)
    requires full == OverflowNotice(Open(emitted[..n + 1]))
    ensures Kept(if s.done then s else Offer(s, emitted[n], full),
                 WatchOffer(w, s, emitted[n], full, n, hole, pendedIn), emitted, n + 1)
  {
    OpenAfter(emitted, n);
    assert emitted[n].Change? ==> Open(emitted[..n + 1]);
    hide Open, ChangesInside;
    if s.done || (|s.buffer| >= s.capacity && !s.pending.NoNotice?) {
      KeptIdles(s, w, emitted, n);
    } else if |s.buffer| < s.capacity {
      hide Kept;
      OfferTaken(s, w, emitted, n);
    } else {
      OfferMissed(s, w, emitted, n, full, hole, pendedIn);
    }
  }

  /** A stream that takes nothing stays as it was. */
  lemma KeptIdles(s: Stream, w: Watch, emitted: seq<Event>, n: nat)
    requires n < |emitted| && Kept(s, w, emitted, n) && (s.done || !s.pending.NoNotice?)
    ensures Kept(s, w, emitted, n + 1)
  {
    hide Open;
  }

  lemma OfferMissed(s: Stream, w: Watch, emitted: seq<Event>, n: nat, full: Notice, hole: nat, pendedIn: nat)
    requires n < |emitted| && Kept(s, w, emitted, n) && !s.done && s.pending.NoNotice? && |s.buffer| >= s.capacity
    requires full == OverflowNotice(Open(emitted[..n + 1])) && (emitted[n].Change? ==> Open(emitted[..n + 1]))
    ensures Kept(Offer(s, emitted[n], full), WatchOffer(w, s, emitted[n], full, n, hole, pendedIn), emitted, n + 1)
  {
    hide Open;
    assert w.lost.None?;
    assert w.got[..n - w.from] == w.got;
  }

  lemma OfferTaken(s: Stream, w: Watch, emitted: seq<Event>, n: nat)
    requires n < |emitted| && Kept(s, w, emitted, n) && !s.done
    ensures Kept(s.(buffer := s.buffer + [emitted[n]]), w.(got := w.got + [emitted[n]]), emitted, n + 1)
  {
    hide Open;
    var ev := emitted[n];
    var got, buffer := w.got + [ev], s.buffer + [ev];
    assert buffer == got[|got| - |buffer|..];
    if w.lost.None? {
      assert got == emitted[w.from..n + 1];
    } else {
      assert got[..w.lost.value - w.from] == w.got[..w.lost.value - w.from];
    }
  }

  // Publishing.

  function FullAt(f: State): Notice
    requires f.shown < |f.emitted|
  {
    OverflowNotice(Note(f.hub, f.emitted[f.shown]).inTx)
  }

  predicate PublishRel(f: State, g: State) {
    && f.conn.Up? && f.shown < |f.emitted| && f.hub.streams.Keys == f.watches.Keys
    && g == f.(hub := g.hub, shown := f.shown + 1, watches := g.watches)
    && g.hub == Note(f.hub, f.emitted[f.shown]).(streams := g.hub.streams, releasable := g.hub.releasable)
    && g.hub.streams == OfferAll(f.hub.streams, f.emitted[f.shown], FullAt(f))
    && (g.hub.releasable == if f.emitted[f.shown].Commit? then AnyWaiting(g.hub.streams) else f.hub.releasable)
    && g.watches.Keys == f.watches.Keys
    && forall id :: id in g.watches ==>
         g.watches[id] == WatchOffer(f.watches[id], f.hub.streams[id], f.emitted[f.shown], FullAt(f), f.shown, HoleOf(f), f.openIn)
  }

  lemma PublishIsRel(f: State)
    requires Shape(f) && Enabled(f, PublishNext)
    ensures PublishRel(f, OnPublish(f)) && Shape(OnPublish(f))
  {
    hide Offer, WatchOffer;
  }

  lemma PublishHub(f: State, g: State)
    requires Shape(f) && HubOk(f) && PublishRel(f, g) && Shape(g)
    ensures HubOk(g) && FullAt(f) == OverflowNotice(Open(f.emitted[..f.shown + 1]))
  {
    hide Offer, WatchOffer, ChangesInside;
    OpenAfter(f.emitted, f.shown);
    hide Open;
  }

  lemma PublishConn(f: State, g: State)
    requires Shape(f) && ConnOk(f) && PublishRel(f, g) && Shape(g)
    ensures ConnOk(g)
  {
    hide Rows, Progress, RowEvents, Offer, WatchOffer, AnyWaiting, OfferAll;
    assert TxOk(g);
    assert OutboxOk(g);
    hide TxOk;
  }

  lemma PublishFrames(f: State, g: State)
    requires Shape(f) && FramesOk(f) && PublishRel(f, g) && Shape(g)
    ensures FramesOk(g)
  {
    hide Rows, FrameOf, Offer, WatchOffer, AnyWaiting, OfferAll;
    forall i | 0 <= i < |g.frames| ensures FrameAt(g, i) {
      assert FrameAt(f, i);
    }
  }

  /** What a stream that is dropped by this event was dropped in. */
  lemma DropsInside(f: State)
    requires Shape(f) && ConnOk(f) && OpenOk(f) && f.conn.Up? && f.shown < |f.emitted|
    requires Open(f.emitted[..f.shown + 1])
    ensures !f.emitted[f.shown].Commit? && HoleOf(f) == f.openTx && Open(f.emitted)
  {
    OpenAfter(f.emitted, f.shown);
    hide Open, TxOk, OpenOk;
    assert OutboxOk(f);
    var before, more := f.emitted[..f.shown + 1], f.emitted[f.shown + 1..];
    assert before + more == f.emitted;
    OpenThroughChanges(before, more);
  }

  lemma PublishWhole(f: State, g: State, id: nat)
    requires Shape(f) && FramesOk(f) && PublishRel(f, g) && Shape(g) && id in f.watches && WholeBut(f, f.watches[id])
    requires FullAt(f) == Resync(TxTooLarge) ==> !f.emitted[f.shown].Commit?
    requires f.watches[id].lost.Some? ==> f.watches[id].lost.value < f.shown
    ensures WholeBut(g, g.watches[id])
  {
    hide Rows, FrameOf, Offer, OfferAll, Visible, Note, OverflowNotice;
    var w, w' := f.watches[id], g.watches[id];
    if w'.lost != w.lost {
      forall i | 0 <= i < |g.frames| && i != w'.hole && Visible(g.log[i]) && g.frames[i].1 <= EndOf(w', |g.emitted|)
        ensures g.frames[i].1 <= w'.lost.value
      {
        assert FrameAt(f, i);
      }
    }
  }

  /** A stream that was already waiting waits on, and a commit makes it releasable. */
  lemma StillWaiting(f: State, g: State, w: Watch)
    requires Shape(f) && PublishRel(f, g) && Shape(g) && OutboxOk(f) && f.conn.pc == Checking
    requires f.emitted[f.shown].Commit? ==> g.hub.releasable
    requires Anchored(f, w.hole) && PendOk(f, w)
    ensures Anchored(g, w.hole) && PendOk(g, w)
  {
    hide Visible, OfferAll, AnyWaiting, WatchOffer, Note, FullAt;
    assert Settling(f) ==> Settling(g);
  }

  lemma NewlyWaiting(f: State, g: State, w: Watch)
    requires Shape(f) && PublishRel(f, g) && Shape(g) && OpenOk(f) && Open(f.emitted)
    requires w.hole == f.openTx && w.pendedIn == f.openIn
    ensures Anchored(g, w.hole) && PendOk(g, w)
  {
    hide Visible, OfferAll, AnyWaiting, WatchOffer, Note, FullAt, Open;
  }

  /** How a stream comes to be waiting after an event: it was, or this event found it full inside a transaction. */
  lemma BecomesWaiting(f: State, g: State, id: nat)
    requires PublishRel(f, g) && id in g.watches && Shape(f) && Shape(g)
    requires g.watches[id].lost.Some? && !g.hub.streams[id].done
    requires f.watches[id].lost.None? && !f.hub.streams[id].done ==> f.hub.streams[id].pending.NoNotice?
    ensures !IsWaiting(f, id) ==>
      FullAt(f) == Resync(TxTooLarge) && g.watches[id].hole == HoleOf(f) && g.watches[id].pendedIn == f.openIn
    ensures IsWaiting(f, id) && !f.hub.streams[id].pending.NoNotice? ==>
      g.watches[id].hole == f.watches[id].hole && g.watches[id].pendedIn == f.watches[id].pendedIn
  {
    hide Note, OverflowNotice, AnyWaiting, FullAt, HoleOf;
  }

  lemma PublishWaiting(f: State, g: State, id: nat)
    requires Inv(f) && PublishRel(f, g) && Shape(g) && id in g.watches
    requires FullAt(f) == OverflowNotice(Open(f.emitted[..f.shown + 1]))
    requires g.watches[id].lost.Some? && Waiting(g.hub.streams[id])
    ensures Anchored(g, g.watches[id].hole) && PendOk(g, g.watches[id])
  {
    assert StreamOk(f, id) && OutboxOk(f);
    var s, w := f.hub.streams[id], f.watches[id];
    assert w.lost.None? && !s.done ==> s.pending.NoNotice?;
    assert IsWaiting(f, id) ==> !s.pending.NoNotice?;
    BecomesWaiting(f, g, id);
    assert AnyWaiting(g.hub.streams);
    if IsWaiting(f, id) {
      WaitingIsAnchored(f, id);
      hide LogOk, ConnOk, OpenOk, FramesOk, HubOk, StreamsOk, Kept, WholeBut, Anchored, PendOk, OutboxOk, OfferAll, WatchOffer, Open;
      StillWaiting(f, g, w);
      SameHole(g, w, g.watches[id]);
    } else {
      DropsInside(f);
      hide LogOk, ConnOk, OpenOk, FramesOk, HubOk, StreamsOk, Kept, WholeBut, Anchored, PendOk, OutboxOk, OfferAll, WatchOffer, Open;
      NewlyWaiting(f, g, g.watches[id]);
    }
  }

  lemma SameHole(g: State, w: Watch, v: Watch)
    requires Shape(g) && w.hole == v.hole && w.pendedIn == v.pendedIn && PendOk(g, w)
    ensures PendOk(g, v)
  {
  }

  lemma KeptFacts(s: Stream, w: Watch, emitted: seq<Event>, n: nat)
    requires n <= |emitted| && Kept(s, w, emitted, n)
    ensures w.lost.Some? && !s.done ==> !s.pending.NoNotice?
    ensures w.lost.Some? ==> w.lost.value < n
  {
    hide Open;
  }

  lemma PublishedPair(f: State, g: State, id: nat)
    requires Shape(f) && PublishRel(f, g) && id in g.watches && Shape(g)
    ensures g.hub.streams[id] ==
      if f.hub.streams[id].done then f.hub.streams[id] else Offer(f.hub.streams[id], f.emitted[f.shown], FullAt(f))
    ensures g.watches[id] ==
      WatchOffer(f.watches[id], f.hub.streams[id], f.emitted[f.shown], FullAt(f), f.shown, HoleOf(f), f.openIn)
    ensures g.watches[id].admitted == f.watches[id].admitted && g.watches[id].since == f.watches[id].since
    ensures g.watches[id].from == f.watches[id].from
  {
    hide Offer, FullAt, HoleOf, Note, AnyWaiting;
  }

  lemma PublishKept(f: State, g: State, id: nat)
    requires Shape(f) && HubOk(f) && PublishRel(f, g) && Shape(g) && id in g.watches && StreamOk(f, id)
    requires FullAt(f) == OverflowNotice(Open(f.emitted[..f.shown + 1]))
    ensures Kept(g.hub.streams[id], g.watches[id], g.emitted, g.shown)
    ensures g.watches[id].admitted ==> g.watches[id].since >= g.start && BeginsUpTo(g.emitted, g.watches[id].from, g.watches[id].since)
    ensures f.watches[id].lost.Some? ==> f.watches[id].lost.value < f.shown
    ensures g.watches[id].lost.Some? && !g.hub.streams[id].done ==> Waiting(g.hub.streams[id])
  {
    hide Anchored, PendOk, WholeBut, Offer, WatchOffer, OfferAll, AnyWaiting, Note, FullAt, HoleOf, Open, ChangesInside, Kept;
    PublishedPair(f, g, id);
    KeptFacts(f.hub.streams[id], f.watches[id], f.emitted, f.shown);
    OfferKept(f.hub.streams[id], f.watches[id], f.emitted, f.shown, FullAt(f), HoleOf(f), f.openIn);
    KeptFacts(g.hub.streams[id], g.watches[id], g.emitted, g.shown);
  }

  lemma PublishStream(f: State, g: State, id: nat)
    requires Inv(f) && PublishRel(f, g) && Shape(g) && id in g.watches
    requires FullAt(f) == OverflowNotice(Open(f.emitted[..f.shown + 1]))
    ensures StreamOk(g, id)
  {
    assert StreamOk(f, id);
    hide LogOk, FramesOk, HubOk, StreamsOk, Kept, Anchored, PendOk, WholeBut, Open, ChangesInside, PublishRel;
    if FullAt(f) == Resync(TxTooLarge) {
      DropsInside(f);
    }
    hide ConnOk, OpenOk, Note, OverflowNotice, BeginsUpTo;
    PublishKept(f, g, id);
    PublishWhole(f, g, id);
    if g.watches[id].lost.Some? && !g.hub.streams[id].done {
      PublishWaiting(f, g, id);
    }
  }

  lemma PublishStep(f: State, g: State)
    requires Inv(f) && PublishRel(f, g) && Shape(g)
    ensures Inv(g)
  {
    PublishHub(f, g);
    PublishConn(f, g);
    PublishFrames(f, g);
    forall id | id in g.watches ensures StreamOk(g, id) {
      PublishStream(f, g, id);
    }
    hide LogOk, ConnOk, FramesOk, HubOk, StreamOk, Visible, Open, Note, OfferAll, WatchOffer, AnyWaiting;
    LogCarries(f, g);
    assert OpenOk(g);
  }

  lemma PublishInv(f: State)
    requires Inv(f) && Enabled(f, PublishNext)
    ensures Inv(OnPublish(f))
  {
    hide LogOk, ConnOk, OpenOk, FramesOk, HubOk, StreamsOk, PublishRel;
    PublishIsRel(f);
    PublishStep(f, OnPublish(f));
  }
}
