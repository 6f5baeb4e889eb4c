/**
 The fan-out as the program keeps it: a hub with a table of attached subscribers, each an
 object with its own bounded buffer. Every method is proved to do to `View()` what the
 operation of the same name does in `HubSpec`.

 `all` remembers every subscriber ever opened, so that what a detached one was told can
 still be spoken of.
 */
module Hub {
  import opened FeedEvents
  import HubSpec

  class Subscriber {
    const id: nat
    const hub: Hub
    const capacity: nat
    var ch: seq<Event>
    var done: bool
    var reason: Notice
    var pending: Notice

    constructor (id: nat, hub: Hub, capacity: nat, done: bool, reason: Notice)
      ensures this.id == id && this.hub == hub && this.capacity == capacity
      ensures View() == HubSpec.Stream([], capacity, done, reason, NoNotice)
    {
      this.id, this.hub, this.capacity := id, hub, capacity;
      ch, this.done, this.reason, pending := [], done, reason, NoNotice;
    }

    function View(): HubSpec.Stream
      reads this
    {
      HubSpec.Stream(ch, capacity, done, reason, pending)
    }

    /** The send of a `select` with a default: it either takes the event or it does not. */
    method TrySend(ev: Event) returns (sent: bool)
      modifies `ch
      ensures sent <==> |old(ch)| < capacity
      ensures ch == if sent then old(ch) + [ev] else old(ch)
    {
      sent := |ch| < capacity;
      if sent {
        ch := ch + [ev];
      }
    }

    method IsPending() returns (r: bool)
      ensures r <==> !pending.NoNotice?
    {
      r := !pending.NoNotice?;
    }

    method Pend(n: Notice)
      modifies `pending
      ensures View() == HubSpec.Pend(old(View()), n)
    {
      if pending.NoNotice? {
        pending := n;
      }
    }

    method TakePending() returns (n: Notice)
      modifies `pending
      ensures n == old(pending) && pending.NoNotice?
    {
      n := pending;
      pending := NoNotice;
    }

    /** Ends the stream: the reason recorded, the subscriber out of the hub's table. */
    method Finish(n: Notice)
      modifies `done, `reason, hub`subs
      ensures View() == HubSpec.End(old(View()), n)
      ensures hub.subs == if old(done) then old(hub.subs) else old(hub.subs) - {id}
    {
      if !done {
        if !n.NoNotice? {
          reason := n;
        }
        hub.subs := hub.subs - {id};
        done := true;
      }
    }

    /** Takes the next event, for a reader that has one waiting. */
    method Next() returns (ev: Event)
      requires ch != []
      modifies `ch
      ensures ev == old(ch)[0] && ch == old(ch)[1..]
    {
      ev := ch[0];
      ch := ch[1..];
    }
  }

  class Hub {
    var subs: map<nat, Subscriber>
    var nextId: nat
    var closed: bool
    var why: Notice
    var floor: Lsn
    var inTx: bool
    var txChanges: nat
    var releasable: bool
    ghost var all: map<nat, Subscriber>

    constructor ()
      ensures Valid() && View() == HubSpec.NewHub() && all == map[]
    {
      subs, nextId, closed, why := map[], 0, false, NoNotice;
      floor, inTx, txChanges, releasable := 0, false, 0, false;
      all := map[];
    }

    ghost predicate Known()
      reads `all, `nextId
    {
      forall id :: id in all ==> all[id].id == id && all[id].hub == this && id <= nextId
    }

    /** The table holds exactly the streams that have not ended. */
    ghost predicate Valid()
      reads `all, `subs, `nextId, all.Values
    {
      && Known()
      && (forall id :: id in subs ==> id in all && subs[id] == all[id])
      && (forall id :: id in all ==> (id in subs <==> !all[id].done))
    }

    ghost function Streams(): map<nat, HubSpec.Stream>
      reads `all, all.Values
    {
      map id | id in all :: all[id].View()
    }

    ghost function View(): HubSpec.HubState
      reads this, all.Values
    {
      HubSpec.HubState(Streams(), nextId, closed, why, floor, inTx, txChanges, releasable)
    }

    method StartedAt(at: Lsn)
      requires Valid()
      modifies `floor
      ensures Valid() && View() == HubSpec.StartedAt(old(View()), at)
    {
      floor := at;
    }

    method Subscribe(capacity: nat) returns (s: Subscriber)
      requires Valid()
      modifies this
      ensures Valid() && fresh(s)
      ensures all == old(all)[nextId := s] && nextId == old(nextId) + 1
      ensures View() == HubSpec.Subscribe(old(View()), capacity)
    {
      s := new Subscriber(nextId + 1, this, capacity, closed, if closed then why else NoNotice);
      Attach(s);
    }

    method Attach(s: Subscriber)
      requires Valid() && s.id == nextId + 1 && s.hub == this && s.done == closed
      modifies this
      ensures Valid() && nextId == s.id && all == old(all)[s.id := s]
      ensures View() == old(View()).(nextId := s.id, streams := old(Streams())[s.id := s.View()])
    {
      nextId := nextId + 1;
      if !closed {
        subs := subs[nextId := s];
      }
      all := all[nextId := s];
      assert Streams() == old(Streams())[s.id := s.View()];
    }

    /** Sends to every attached subscriber without blocking on any of them. */
    method Publish(ev: Event)
      requires Valid()
      modifies this, all.Values
      ensures Valid() && all == old(all)
      ensures View() == HubSpec.Publish(old(View()), ev)
    {
      hide HubSpec.OfferAll, Known;
      NoteEvent(ev);
      FanOut(ev, HubSpec.OverflowNotice(inTx));
      if ev.Commit? {
        MarkReleasable();
      }
    }

    method FanOut(ev: Event, full: Notice)
      requires Valid()
      modifies `subs, all.Values
      ensures Valid()
      ensures View() == old(View()).(streams := HubSpec.OfferAll(old(Streams()), ev, full))
    {
      hide HubSpec.Offer;
      ghost var before := Streams();
      SendAll(ev, full);
      assert Streams() == HubSpec.OfferAll(before, ev, full);
    }

    method MarkReleasable()
      requires Valid()
      modifies `releasable
      ensures Valid() && View() == old(View()).(releasable := HubSpec.AnyWaiting(old(Streams())))
    {
      var waiting := PendingSubs();
      releasable := waiting != {};
    }

    /** Where the stream is, for a subscriber that joins later and for the notice an overflow carries. */
    method NoteEvent(ev: Event)
      requires Valid()
      modifies `inTx, `txChanges, `floor
      ensures Valid() && View() == HubSpec.Note(old(View()), ev)
    {
      hide Valid, Streams;
      match ev {
        case Begin(_, commit) =>
          inTx, txChanges := true, 0;
          if commit > floor {
            floor := commit;
          }
        case Change(_, _, _, _) =>
          txChanges := txChanges + 1;
        case Commit(_, _, _) =>
          inTx, txChanges := false, 0;
        case Schema(_, _) =>
      }
    }

    method SendAll(ev: Event, full: Notice)
      requires Valid()
      modifies `subs, all.Values
      ensures Valid()
      ensures forall id :: id in all ==>
        all[id].View() == if old(all[id].done) then old(all[id].View()) else HubSpec.Offer(old(all[id].View()), ev, full)
    {
      hide HubSpec.Offer, Subscriber.View;
      var todo := subs.Keys;
      while todo != {}
        invariant Valid()
        invariant todo <= subs.Keys
        invariant forall id :: id in all ==>
          all[id].View() == if id in todo || old(all[id].done) then old(all[id].View())
                            else HubSpec.Offer(old(all[id].View()), ev, full)
      {
        var id :| id in todo;
        SendOne(subs[id], ev, full);
        todo := todo - {id};
      }
    }

    method SendOne(s: Subscriber, ev: Event, full: Notice)
      requires Valid() && s.id in subs && subs[s.id] == s
      modifies `subs, s
      ensures Valid() && s.View() == HubSpec.Offer(old(s.View()), ev, full)
      ensures subs == old(subs) || subs == old(subs) - {s.id}
    {
      var sent := s.TrySend(ev);
      if !sent {
        var doomed := s.IsPending();
        if !doomed {
          if full == Resync(TxTooLarge) {
            s.Pend(full);
          } else {
            s.Finish(full);
          }
        }
      }
    }

    /** The ids of the attached subscribers waiting to be told. */
    method PendingSubs() returns (ids: set<nat>)
      requires Valid()
      ensures ids == (set id | id in all && HubSpec.Waiting(all[id].View())) && ids <= subs.Keys
      ensures ids != {} <==> HubSpec.AnyWaiting(Streams())
    {
      ids := set id | id in subs && !subs[id].pending.NoNotice?;
      if id :| id in ids {
        assert HubSpec.Waiting(Streams()[id]);
      }
      assert forall id :: id in all && HubSpec.Waiting(Streams()[id]) ==> id in ids;
    }

    method Releasable() returns (r: bool)
      requires Valid()
      ensures r == View().releasable
    {
      r := releasable;
    }

    method ReleasePending()
      requires Valid()
      modifies this, all.Values
      ensures Valid() && all == old(all)
      ensures View() == HubSpec.ReleasePending(old(View()))
    {
      hide HubSpec.Release, Known;
      releasable := false;
      ReleaseEach();
    }

    method ReleaseEach()
      requires Valid()
      modifies `subs, all.Values
      ensures Valid()
      ensures forall id :: id in all ==> all[id].View() == HubSpec.Release(old(all[id].View()))
    {
      hide Subscriber.View;
      var todo := PendingSubs();
      ghost var ids := todo;
      while todo != {}
        invariant Valid()
        invariant todo <= subs.Keys && todo <= ids
        invariant forall id :: id in all ==>
          all[id].View() == if id in todo then old(all[id].View()) else HubSpec.Release(old(all[id].View()))
      {
        var id :| id in todo;
        ReleaseOne(subs[id]);
        todo := todo - {id};
      }
    }

    method ReleaseOne(s: Subscriber)
      requires Valid() && s.id in subs && subs[s.id] == s && HubSpec.Waiting(s.View())
      modifies `subs, s
      ensures Valid() && s.View() == HubSpec.Release(old(s.View()))
      ensures subs == old(subs) - {s.id}
    {
      var n := s.TakePending();
      s.Finish(n);
    }

    method Close(n: Notice)
      requires Valid()
      modifies this, all.Values
      ensures Valid() && all == old(all) && subs == map[]
      ensures View() == HubSpec.Close(old(View()), n)
    {
      hide HubSpec.End, Known, Subscriber.View;
      closed, why := true, n;
      EndEach(n);
    }

    method EndEach(n: Notice)
      requires Valid()
      modifies `subs, all.Values
      ensures Valid() && subs == map[]
      ensures forall id :: id in all ==> all[id].View() == HubSpec.End(old(all[id].View()), n)
    {
      var todo := subs.Keys;
      while todo != {}
        invariant Valid()
        invariant todo == subs.Keys
        invariant forall id :: id in all ==>
          all[id].View() == if id in todo then old(all[id].View()) else HubSpec.End(old(all[id].View()), n)
      {
        var id :| id in todo;
        EndOne(subs[id], n);
        todo := todo - {id};
      }
    }

    method EndOne(s: Subscriber, n: Notice)
      requires Valid() && s.id in subs && subs[s.id] == s
      modifies `subs, s
      ensures Valid() && s.View() == HubSpec.End(old(s.View()), n)
      ensures subs == old(subs) - {s.id}
    {
      s.Finish(n);
    }
  }
}
