/** Keeping a decoder alive for as long as somebody is listening. */
module Supervisor {
  import opened FeedEvents
  import opened SessionSpec
  import HubSpec
  import Hub
  import Decoder

  method RunOnce(hub: Hub.Hub, a: Attempt, since: Lsn) returns (failure: Failure)
    requires hub.Valid()
    modifies hub, hub.all.Values
    ensures hub.Valid() && hub.all == old(hub.all)
    ensures hub.View() == HubOnce(old(hub.View()), a, since)
    ensures failure == Outcome(old(hub.View()), a, since)
  {
    hide Hub.Hub.View, Hub.Hub.Valid, TakeTurns;
    if a.setup.Some? { return Failed(a.setup.value); }
    var d := new Decoder.Decoder(hub);
    var reports;
    reports, failure := d.Run(since, a);
  }

  /**
   Runs attempts until one is final, and says what the hub was closed with. `used` is the position each
   attempt started from. The failures counted are those of the feed's whole life: no attempt ends
   otherwise, so the count is never set back.
   */
  method Supervise(hub: Hub.Hub, since: Lsn, attempts: seq<Attempt>) returns (used: seq<Lsn>, last: Notice)
    requires hub.Valid()
    modifies hub, hub.all.Values
    ensures hub.Valid() && hub.all == old(hub.all)
    ensures |used| <= |attempts| && |used| <= MAX_FAILURES
    ensures forall i :: 0 <= i < |used| ==> used[i] == SinceAt(since, i)
    ensures forall i :: 0 <= i < |used| - 1 ==> !Final(old(hub.View()), since, attempts, i)
    ensures |used| < |attempts| ==> |used| > 0 && Final(old(hub.View()), since, attempts, |used| - 1)
    ensures last == if used == [] then NoNotice else LastWord(old(hub.View()), since, attempts, |used| - 1)
    ensures hub.View() ==
      var h := HubAfter(old(hub.View()), since, attempts, |used|);
      if last.NoNotice? then h else HubSpec.Close(h, last)
    ensures used != [] ==> EndsWith(old(hub.View()), since, attempts, |used| - 1, last)
    ensures last.NoNotice? ==> hub.View().closed == old(hub.View()).closed
    ensures !last.NoNotice? ==> ToldAll(HubAfter(old(hub.View()), since, attempts, |used|), hub.View(), last)
  {
    ghost var h0 := hub.View();
    hide Hub.Hub.View, Hub.Hub.Valid, HubOnce, Outcome, EndsWith, ToldAll;
    used, last := [], NoNotice;
    var failures, from := 0, since;
    for i := 0 to |attempts|
      invariant hub.Valid() && hub.all == old(hub.all)
      invariant hub.View() == HubAfter(h0, since, attempts, i)
      invariant |used| == i == failures < MAX_FAILURES && last == NoNotice && from == SinceAt(since, i)
      invariant forall k :: 0 <= k < i ==> used[k] == SinceAt(since, k)
      invariant forall k :: 0 <= k < i ==> !Final(h0, since, attempts, k)
      invariant i > 0 ==> LastWord(h0, since, attempts, i - 1) == NoNotice
      invariant i > 0 ==> EndsWith(h0, since, attempts, i - 1, NoNotice) && hub.View().closed == h0.closed
    {
      var failure := RunOnce(hub, attempts[i], from);
      assert failure == OutcomeAt(h0, since, attempts, i);
      used, from := used + [from], 0;
      LastWordIff(h0, since, attempts, i);
      AttemptsKeepOpen(h0, since, attempts, i + 1);
      if attempts[i].cancelled { return; }
      failures := failures + 1;
      if failure == Ahead {
        last := Resync(CursorExpired);
      } else if failure == Failed(SlotInvalidated) {
        last := Resync(SlotLost);
      } else if failures >= MAX_FAILURES {
        last := Error(DecoderFailed);
      }
      if !last.NoNotice? {
        CloseTellsAll(hub.View(), last);
        hub.Close(last);
        return;
      }
    }
  }
}
