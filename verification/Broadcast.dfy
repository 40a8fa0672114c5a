/** The publish-subscribe hub of broadcaster.go: bounded channels, and sends that never wait. */
module Broadcast {
  import opened SudoTypes

  const STREAM_CAPACITY := 8
  const DASHBOARD_CAPACITY := 32

  datatype Event = Event(uid: Uid, phase: Phase)

  /** A buffered Go channel as its one reader and its senders use it. */
  class Channel {
    const capacity: nat
    var buffer: seq<Event>

    constructor (capacity: nat)
      ensures this.capacity == capacity && buffer == []
    {
      this.capacity, buffer := capacity, [];
    }

    /** A send that gives up at once when the channel is full. */
    method TrySend(e: Event)
      modifies this
      ensures buffer == Offered(old(buffer), capacity, e)
    {
      if |buffer| < capacity {
        buffer := buffer + [e];
      }
    }

    method Receive() returns (e: Event)
      requires buffer != []
      modifies this
      ensures [e] + buffer == old(buffer)
    {
      e, buffer := buffer[0], buffer[1..];
    }
  }

  function Offered(buffer: seq<Event>, capacity: nat, e: Event): seq<Event> {
    if |buffer| < capacity then buffer + [e] else buffer
  }

  /** A publication begun: its event, and the channels of its snapshot still to be offered it. */
  datatype Sending = Sending(event: Event, to: set<Channel>)

  class Broadcaster {
    var subs: map<Uid, set<Channel>>
    var all: set<Channel>
    var begun: seq<Sending>   // the local state of every call of Publish

    /** No empty set of subscribers is kept. */
    ghost predicate Valid()
      reads this
    {
      forall u :: u in subs ==> subs[u] != {}
    }

    function Listeners(uid: Uid): set<Channel>
      reads this
    {
      (if uid in subs then subs[uid] else {}) + all
    }

    constructor ()
      ensures Valid() && subs == map[] && all == {} && begun == []
    {
      subs, all, begun := map[], {}, [];
    }

    method SubscribeAll() returns (ch: Channel)
      requires Valid()
      modifies this`subs, this`all
      ensures Valid() && fresh(ch) && ch.capacity == 32 && ch.buffer == []
      ensures all == old(all) + {ch} && subs == old(subs)
      ensures forall u :: Listeners(u) == old(Listeners(u)) + {ch}
    {
      ch := new Channel(DASHBOARD_CAPACITY);
      all := all + {ch};
    }

    method CancelAll(ch: Channel)
      requires Valid()
      modifies this`all
      ensures Valid() && all == old(all) - {ch} && subs == old(subs)
    {
      all := all - {ch};
    }

    method Subscribe(uid: Uid) returns (ch: Channel)
      requires Valid()
      modifies this`subs, this`all
      ensures Valid() && fresh(ch) && ch.capacity == 8 && ch.buffer == []
      ensures all == old(all)
      ensures forall u :: Listeners(u) == if u == uid then old(Listeners(u)) + {ch} else old(Listeners(u))
    {
      ch := new Channel(STREAM_CAPACITY);
      var others := if uid in subs then subs[uid] else {};
      subs := subs[uid := others + {ch}];
    }

    /** The closure Subscribe returns. The channel is not closed: a send under way may still hold it. */
    method Cancel(uid: Uid, ch: Channel)
      requires Valid() && ch !in all
      modifies this`subs
      ensures Valid() && all == old(all)
      ensures forall u :: Listeners(u) == if u == uid then old(Listeners(u)) - {ch} else old(Listeners(u))
    {
      if uid in subs {
        var rest := subs[uid] - {ch};
        subs := if rest == {} then subs - {uid} else subs[uid := rest];
      }
    }

    /** The first half of Publish, under the lock. */
    method Snapshot(uid: Uid, phase: Phase)
      requires Valid()
      modifies this`begun
      ensures Valid() && begun == old(begun) + [Sending(Event(uid, phase), Listeners(uid))]
    {
      begun := begun + [Sending(Event(uid, phase), Listeners(uid))];
    }

    /** One send of the second half, without the lock: the channel may have been cancelled by now. */
    method SendTo(k: nat, c: Channel)
      requires Valid() && k < |begun| && c in begun[k].to
      modifies this`begun, c
      ensures Valid() && c.buffer == Offered(old(c.buffer), c.capacity, old(begun)[k].event)
      ensures begun == SentTo(old(begun), k, c)
    {
      c.TrySend(begun[k].event);
      begun := SentTo(begun, k, c);
    }

    /** Undisturbed, every listener is offered the event once; only a full one misses it; nobody else gets it. */
    method Publish(uid: Uid, phase: Phase)
      requires Valid()
      modifies this`begun, Listeners(uid)
      ensures Valid() && begun == old(begun) + [Sending(Event(uid, phase), {})]
      ensures forall c :: c in Listeners(uid) ==> c.buffer == Offered(old(c.buffer), c.capacity, Event(uid, phase))
    {
      var k := |begun|;
      Snapshot(uid, phase);
      while begun[k].to != {}
        invariant Valid() && |begun| == k + 1 && begun[..k] == old(begun)
        invariant begun[k].event == Event(uid, phase) && begun[k].to <= Listeners(uid)
        invariant forall c :: c in Listeners(uid) ==>
                    c.buffer == if c in begun[k].to then old(c.buffer) else Offered(old(c.buffer), c.capacity, Event(uid, phase))
        decreases begun[k].to
      {
        var c :| c in begun[k].to;
        SendTo(k, c);
      }
    }
  }

  function SentTo(begun: seq<Sending>, k: nat, c: Channel): seq<Sending>
    requires k < |begun|
  {
    begun[k := Sending(begun[k].event, begun[k].to - {c})]
  }

  /** How often the channel is still to be offered something. */
  function UnderWay(begun: seq<Sending>, ch: Channel): nat {
    if begun == [] then 0
    else UnderWay(begun[..|begun| - 1], ch) + if ch in begun[|begun| - 1].to then 1 else 0
  }

  lemma {:induction false} SendingSettlesOne(begun: seq<Sending>, k: nat, c: Channel, ch: Channel)
    requires k < |begun| && c in begun[k].to
    ensures UnderWay(SentTo(begun, k, c), ch) == UnderWay(begun, ch) - if c == ch then 1 else 0
  {
    var n := |begun| - 1;
    var after := SentTo(begun, k, c);
    if k == n {
      assert after[..n] == begun[..n];
    } else {
      SendingSettlesOne(begun[..n], k, c, ch);
      assert after[..n] == SentTo(begun[..n], k, c);
    }
  }

  lemma {:induction false} NewcomerAwaitsNothing(begun: seq<Sending>, ch: Channel)
    requires forall s :: s in begun ==> ch !in s.to
    ensures UnderWay(begun, ch) == 0
  {
    if begun != [] {
      assert begun[|begun| - 1] in begun;
      NewcomerAwaitsNothing(begun[..|begun| - 1], ch);
    }
  }
}
