/** Subscribe, then read, then listen (serveEvents in api.go): why no terminal event is lost although
    publishing never waits. Requests without a playbook, whose phases move along the machine's edges. */
module EventStream {
  import opened Prelude
  import opened SudoTypes
  import opened Broadcast
  import opened Stability
  import Runs

  /** One request: its stored phase, and the changes whose writers have yet to publish them. Writers tell
      the truth: each stored change is published once, in no particular order, each publication first taking
      its snapshot of the listeners and then sending to them one by one, anybody moving in between. */
  class RequestEvents {
    const uid: Uid
    const hub: Broadcaster
    var phase: Phase
    var unpublished: multiset<Phase>

    /** A request changes phase no more often than it climbs the machine, and a terminal phase is last. */
    ghost predicate Valid()
      reads this, hub
    {
      && hub.Valid()
      && |unpublished| <= Runs.Rank(phase)
      && (forall p :: p in unpublished && IsTerminal(p) ==> p == phase)
      && forall s :: s in hub.begun ==> s.event.uid == uid && (IsTerminal(s.event.phase) ==> s.event.phase == phase)
    }

    /** Whoever may get an event of this request. */
    function Channels(): set<Channel>
      reads this, hub
    {
      hub.Listeners(uid) + set s, c | s in hub.begun && c in s.to :: c
    }

    constructor (uid: Uid, hub: Broadcaster)
      requires hub.Valid() && hub.begun == []
      ensures Valid() && phase == New && unpublished == multiset{}
      ensures this.uid == uid && this.hub == hub
    {
      this.uid, this.hub := uid, hub;
      phase, unpublished := New, multiset{};
    }

    /** A subscribed stream that has received `got`: all it ever got, holds or may still be sent is within the
        changes the request has made, so its channel is never full; and no terminal event is a false one. */
    ghost predicate Listening(ch: Channel, got: seq<Event>)
      reads this, hub, ch
    {
      && ch in hub.Listeners(uid) && ch.capacity == STREAM_CAPACITY
      && |got| + |ch.buffer| + UnderWay(hub.begun, ch) + |unpublished| <= Runs.Rank(phase)
      && (forall e :: e in got + ch.buffer ==> e.uid == uid && (IsTerminal(e.phase) ==> e.phase == phase))
    }

    /** The terminal phase has been published, as far as this channel goes. */
    ghost predicate Published(ch: Channel)
      reads this, hub
    {
      phase !in unpublished && forall s :: s in hub.begun && s.event.phase == phase ==> ch !in s.to
    }

    /** Once published, the terminal phase was received or is in the channel. What makes it so, or not so, is
        settled when the stream subscribes: no later step of anybody changes it. */
    ghost predicate NothingLost(ch: Channel, got: seq<Event>)
      reads this, hub, ch
    {
      IsTerminal(phase) && Published(ch) ==> Event(uid, phase) in got + ch.buffer
    }

    method ChangePhase(p: Phase)
      requires Valid() && IsEdge(phase, p)
      modifies this
      ensures Valid() && phase == p && unpublished == old(unpublished) + multiset{p}
    {
      phase, unpublished := p, unpublished + multiset{p};
    }

    method BeginPublishing(p: Phase)
      requires Valid() && p in unpublished
      modifies this, hub`begun
      ensures Valid() && phase == old(phase) && unpublished == old(unpublished) - multiset{p}
      ensures hub.begun == old(hub.begun) + [Sending(Event(uid, p), hub.Listeners(uid))]
    {
      unpublished := unpublished - multiset{p};
      hub.Snapshot(uid, p);
    }

    method BeginPublishingTo(ch: Channel, ghost got: seq<Event>, p: Phase)
      requires Valid() && Listening(ch, got) && p in unpublished
      modifies this, hub`begun
      ensures Valid() && Listening(ch, got) && phase == old(phase) && Channels() == old(Channels())
      ensures NothingLost(ch, got) == old(NothingLost(ch, got))
    {
      ghost var before := hub.begun;
      BeginPublishing(p);
      assert hub.begun[..|before|] == before && ch in hub.begun[|before|].to;
      assert hub.begun[|before|] in hub.begun && forall s :: s in before ==> s in hub.begun;
    }

    method SendOne(ch: Channel, ghost got: seq<Event>, k: nat, c: Channel)
      requires Valid() && Listening(ch, got) && k < |hub.begun| && c in hub.begun[k].to
      modifies hub`begun, c
      ensures Valid() && Listening(ch, got) && Channels() <= old(Channels())
      ensures NothingLost(ch, got) == old(NothingLost(ch, got))
      ensures old(ch.buffer) <= ch.buffer
    {
      ghost var begun, buffer := hub.begun, ch.buffer;
      SendingSettlesOne(begun, k, c, ch);
      hub.SendTo(k, c);
      assert begun[k] in begun;
      assert forall s :: s in hub.begun ==> exists i :: 0 <= i < |begun| && s == hub.begun[i];
      assert forall i :: 0 <= i < |begun| ==> begun[i].event == hub.begun[i].event && hub.begun[i].to <= begun[i].to;
      if c == ch {
        assert ch.buffer == buffer + [begun[k].event];
        assert forall e :: e in got + ch.buffer <==> e in got + buffer || e == begun[k].event;
      }
    }

    /** One step of somebody else: a writer stores or publishes, another stream comes or goes. */
    method SomeoneMoves(ch: Channel, ghost got: seq<Event>)
      requires Valid() && Listening(ch, got)
      modifies this, hub, Channels()
      ensures Valid() && Listening(ch, got)
      ensures fresh(Channels() - old(Channels()))
      ensures NothingLost(ch, got) == old(NothingLost(ch, got))
      ensures old(ch.buffer) <= ch.buffer
      ensures IsTerminal(old(phase)) ==> phase == old(phase)
    {
      hide Listening, NothingLost, UnderWay;
      var change, p: Phase, k: int, c: Channel?, other: bool := *, *, *, *, *;
      if change && IsEdge(phase, p) {
        ChangePhaseBehind(ch, got, p);
      } else if p in unpublished {
        BeginPublishingTo(ch, got, p);
      } else if 0 <= k < |hub.begun| && c in hub.begun[k].to {
        SendOne(ch, got, k, c);
      } else {
        OtherStreamMoves(ch, got, other);
      }
    }

    method ChangePhaseBehind(ch: Channel, ghost got: seq<Event>, p: Phase)
      requires Valid() && Listening(ch, got) && IsEdge(phase, p)
      modifies this
      ensures Valid() && Listening(ch, got) && NothingLost(ch, got) && old(NothingLost(ch, got))
    {
      ChangePhase(p);
    }

    method OtherStreamMoves(ch: Channel, ghost got: seq<Event>, comes: bool)
      requires Valid() && Listening(ch, got)
      modifies hub
      ensures Valid() && Listening(ch, got) && fresh(Channels() - old(Channels()))
      ensures NothingLost(ch, got) == old(NothingLost(ch, got))
    {
      if comes {
        var newcomer := hub.Subscribe(uid);
      } else if uid in hub.subs && hub.subs[uid] != {ch} {
        var leaver :| leaver in hub.subs[uid];
        if leaver != ch && leaver !in hub.all {
          hub.Cancel(uid, leaver);
        }
      }
    }

    method Interfere(ch: Channel, ghost got: seq<Event>)
      requires Valid() && Listening(ch, got)
      modifies this, hub, Channels()
      ensures Valid() && Listening(ch, got)
      ensures fresh(Channels() - old(Channels()))
      ensures NothingLost(ch, got) == old(NothingLost(ch, got))
      ensures old(ch.buffer) <= ch.buffer
      ensures IsTerminal(old(phase)) ==> phase == old(phase)
    {
      var n: int := *;
      while 0 < n
        invariant Valid() && Listening(ch, got)
        invariant fresh(Channels() - old(Channels()))
        invariant NothingLost(ch, got) == old(NothingLost(ch, got)) && old(ch.buffer) <= ch.buffer
        invariant IsTerminal(old(phase)) ==> phase == old(phase)
      {
        SomeoneMoves(ch, got);
        n := n - 1;
      }
    }

    /** The request is over, and its last change is being published or has been. */
    ghost predicate EndUnderWay()
      reads this
    {
      IsTerminal(phase) && phase !in unpublished
    }

    /** A stream that joins misses just the end whose publication has taken its snapshot. */
    method Join() returns (ch: Channel)
      requires Valid()
      modifies hub
      ensures Valid() && fresh(ch) && Listening(ch, []) && Channels() == old(Channels()) + {ch}
      ensures NothingLost(ch, []) <==> !old(EndUnderWay())
    {
      ch := hub.Subscribe(uid);
      NewcomerAwaitsNothing(hub.begun, ch);
    }

    /** serveEvents, listening until the client has waited `patience` times; `known` is what the caller read
        before, and stands in if the read under the subscription fails. No terminal phase sent is a false one,
        and the stream stops at the first. An end that is published as far as this channel goes was sent or
        waits in it, but in one case exactly: that read failed, the caller's own was not of the end, and the
        end was under way when the stream subscribed. */
    method ServeEvents(known: Phase, patience: nat) returns (sent: seq<Phase>, ch: Channel, reread: bool)
      requires Valid() && (IsTerminal(known) ==> known == phase)
      modifies this, hub, Channels()
      ensures Valid() && sent != []
      ensures (IsTerminal(phase) && Published(ch) && phase !in sent && Event(uid, phase) !in ch.buffer)
              <==> (!reread && !IsTerminal(known) && old(EndUnderWay()))
      ensures forall i :: 0 <= i < |sent| && IsTerminal(sent[i]) ==> i == |sent| - 1 && sent[i] == phase
      ensures if !reread then sent[0] == known else IsTerminal(old(phase)) ==> sent == [phase]
    {
      ch := Join();
      Interfere(ch, []);
      reread := *;
      sent := [if reread then phase else known];
      if IsTerminal(sent[0]) {
        return;
      }
      var heard;
      ghost var got;
      heard, got := Listen(ch, patience);
      assert forall p :: p in heard <==> Event(uid, p) in got;
      sent := sent + heard;
    }

    /** What waits in the channel is sent, in order, as long as the client is there and until the end; then what
        comes. */
    method Listen(ch: Channel, patience: nat) returns (heard: seq<Phase>, ghost got: seq<Event>)
      requires Valid() && Listening(ch, [])
      modifies this, hub, Channels()
      ensures Valid() && Listening(ch, got) && NothingLost(ch, got) == old(NothingLost(ch, []))
      ensures |heard| == |got| && forall i :: 0 <= i < |got| ==> heard[i] == got[i].phase
      ensures forall i :: 0 <= i < |heard| && IsTerminal(heard[i]) ==> i == |heard| - 1 && heard[i] == phase
      ensures old(ch.buffer) <= got + ch.buffer
      ensures |got| >= patience || |got| >= |old(ch.buffer)| || (heard != [] && IsTerminal(heard[|heard| - 1]))
    {
      hide Listening, NothingLost;
      heard, got := [], [];
      var waits := patience;
      while 0 < waits
        invariant Valid() && Listening(ch, got) && NothingLost(ch, got) == old(NothingLost(ch, []))
        invariant fresh(Channels() - old(Channels()))
        invariant |heard| == |got| && forall i :: 0 <= i < |got| ==> heard[i] == got[i].phase
        invariant forall i :: 0 <= i < |heard| ==> !IsTerminal(heard[i])
        invariant waits <= patience && old(ch.buffer) <= got + ch.buffer
        invariant |got| < |old(ch.buffer)| ==> |got| == patience - waits
      {
        var e := AwaitNext(ch, got);
        waits := waits - 1;
        if e.Some? {
          got := got + [e.value];
          heard := heard + [e.value.phase];
          if IsTerminal(e.value.phase) {
            return;
          }
        }
      }
    }

    /** Waits once; something may have come. */
    method AwaitNext(ch: Channel, ghost got: seq<Event>) returns (e: Option<Event>)
      requires Valid() && Listening(ch, got)
      modifies this, hub, Channels()
      ensures Valid() && fresh(Channels() - old(Channels()))
      ensures
        var now := if e.Some? then got + [e.value] else got;
        Listening(ch, now) && NothingLost(ch, now) == old(NothingLost(ch, got))
      ensures e.Some? && IsTerminal(e.value.phase) ==> e.value.phase == phase
      ensures old(ch.buffer) != [] ==> e.Some?
      ensures old(got + ch.buffer) <= (if e.Some? then got + [e.value] else got) + ch.buffer
    {
      Interfere(ch, got);
      if ch.buffer == [] {
        return None;
      }
      var next := Next(ch, got);
      return Some(next);
    }

    method Next(ch: Channel, ghost got: seq<Event>) returns (e: Event)
      requires Valid() && Listening(ch, got) && ch.buffer != []
      modifies ch
      ensures Valid() && Listening(ch, got + [e]) && NothingLost(ch, got + [e]) == old(NothingLost(ch, got))
      ensures IsTerminal(e.phase) ==> e.phase == phase
      ensures [e] + ch.buffer == old(ch.buffer)
    {
      ghost var before := ch.buffer;
      e := ch.Receive();
      assert got + [e] + ch.buffer == got + before;
    }
  }
}
