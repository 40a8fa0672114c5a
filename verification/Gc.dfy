/** The garbage collector (gc.go): it runs beside every reconcile, on cached lists. */
module Gc {
  import opened Prelude
  import opened SudoTypes
  import opened Lifecycle
  import opened Invariants
  import opened Stability
  import opened Api
  import opened Reviewing
  import opened Writes
  import Runs

  class GarbageCollector {
    const api: ApiServer

    constructor (api: ApiServer)
      ensures this.api == api
    {
      this.api := api;
    }

    /** A Pending request past its time to live, as cached, is expired, and its token dropped. */
    method ExpirePending() returns (expired: bool, ghost before: World, ghost after: World)
      requires api.Valid()
      modifies api
      ensures api.Valid() && old(api.run) <= api.run && old(api.labels) <= api.labels
      ensures expired ==>
                && Runs.PhaseOf(before) == Some(Pending) && before.now >= (before.last.createdAt + 3600) * 1_000_000_000
                && Runs.PhaseOf(after) == Some(Expired) && after.last.status.token == NO_TOKEN
                && Reach(old(api.world), before) && Reach(after, api.world)
      ensures api.mode.Silent? && !old(api.down) && old(api.Current()) && Runs.PhaseOf(old(api.world)) == Some(Pending) ==>
                && (expired <==> old(api.world).now >= (old(api.world).last.createdAt + 3600) * 1_000_000_000)
                && (expired && old(api.world).last.status.token.secretName != "" ==>
                      old(api.world).last.status.token.secretName !in api.world.tokens)
    {
      hide Reach, Rely, IsRun, ModeInv, Inv, MayWrite, AfterWrite;
      before, after := api.world, api.world;
      var found := api.CachedRequest();
      if found.None? || found.value.status.phase != Pending {
        return false, before, after;
      }
      var sr := found.value;
      ghost var seen := api.cached;
      var now := api.Clock(Another);
      if now < (sr.createdAt + PENDING_REQUEST_TTL) * SECOND {
        return false, before, after;
      }
      ghost var w := api.world;
      expired, before, after := ExpireCopy(sr, seen);
      if expired {
        ReachTransitive(old(api.world), w, before);
      }
    }

    method ExpireCopy(sr: Request, ghost seen: nat) returns (expired: bool, ghost before: World, ghost after: World)
      requires api.Valid() && seen < |api.run| && api.run[seen].Shown() == Some(sr)
      requires sr.status.phase == Pending && api.world.now >= (sr.createdAt + PENDING_REQUEST_TTL) * SECOND
      modifies api
      ensures api.Valid() && old(api.run) <= api.run && old(api.labels) <= api.labels
      ensures expired ==>
                && Runs.PhaseOf(before) == Some(Pending) && before.now >= (before.last.createdAt + 3600) * 1_000_000_000
                && Runs.PhaseOf(after) == Some(Expired) && after.last.status.token == NO_TOKEN
                && Reach(old(api.world), before) && Reach(after, api.world)
      ensures api.mode.Silent? && expired && sr.status.token.secretName != "" ==> sr.status.token.secretName !in api.world.tokens
      ensures api.mode.Silent? && !old(api.down) && old(api.world).Shown() == Some(sr) ==> expired
    {
      hide Reach, Rely, IsRun, ModeInv, Inv, MayWrite, AfterWrite;
      DecisionMayBeStored(api.svc, api.mode, Another, api.world, sr, Expire);
      var u;
      ghost var wrote;
      u, wrote, before := api.Update(Another, sr, Write(NoEdit, Review(Expire)), seen);
      after := api.world;
      if !u.Done? {
        return false, before, after;
      }
      StoredIs(before, NoEdit, Review(Expire));
      LaterIsLater(old(api.world), before);
      DropSpentToken(sr.status.token.secretName);
      return true, before, after;
    }

    method DropSpentToken(name: string)
      requires api.Valid()
      requires api.world.gone || Decided(api.world.last.status.phase)
      modifies api
      ensures api.Valid() && old(api.run) <= api.run && old(api.labels) <= api.labels
      ensures Reach(old(api.world), api.world)
      ensures api.mode.Silent? && name != "" ==> name !in api.world.tokens
    {
      hide IsRun, ModeInv, Inv;
      if name != "" {
        MayDropToken(api.svc, api.mode, Another, api.world, name);
        var dropped, wrote, before := api.Do(Another, DropToken(name));
        assert Between(api.svc, Another, old(api.world), before);
        DroppingTokenReaches(before, name);
        ReachTransitive(old(api.world), before, api.world);
      }
    }

    /** Every token Secret the cached list shows past its expires-at is deleted, and no other. */
    method SweepSecrets() returns (swept: set<string>, ghost at: nat, now: Time)
      requires api.Valid()
      modifies api
      ensures api.Valid() && old(api.run) <= api.run && old(api.labels) <= api.labels
      ensures at < |api.run| && now >= old(api.world).now && (api.mode.Silent? ==> now == old(api.world).now)
      ensures forall n :: n in swept <==> n in api.run[at].tokens && Unix(now) >= api.run[at].tokens[n].expiresAt
      ensures api.mode.Silent? && !old(api.down) ==>
                api.world.tokens == old(api.world).tokens - swept && api.world.Shown() == old(api.world).Shown()
    {
      hide Reach, Rely, IsRun, ModeInv, Inv;
      now := api.Clock(Another);
      ghost var start := api.world;
      LaterIsLater(old(api.world), start);
      ReachReflexive(start);
      var i: nat := api.CacheIndex();
      at := i;
      var listed := api.run[i].tokens;
      swept := set n | n in listed && Unix(now) >= listed[n].expiresAt;
      var rest := swept;
      while rest != {}
        invariant api.Valid() && old(api.run) <= api.run && old(api.labels) <= api.labels
        invariant rest <= swept && i < |api.run| && api.run[i].tokens == listed && Reach(start, api.world)
        invariant api.mode.Silent? && !old(api.down) ==>
                    && !api.down && api.world.tokens == old(api.world).tokens - (swept - rest)
                    && api.world.Shown() == old(api.world).Shown()
      {
        var name :| name in rest;
        rest := rest - {name};
        DropExpired(name, i, start);
      }
    }

    method DropExpired(name: string, ghost seen: nat, ghost start: World)
      requires api.Valid() && Reach(start, api.world)
      requires seen < |api.run| && name in api.run[seen].tokens && Unix(start.now) >= api.run[seen].tokens[name].expiresAt
      modifies api
      ensures api.Valid() && old(api.run) <= api.run && old(api.labels) <= api.labels && Reach(start, api.world)
      ensures api.mode.Silent? && !old(api.down) ==>
                && !api.down && api.world.tokens == old(api.world).tokens - {name}
                && api.world.Shown() == old(api.world).Shown()
    {
      hide Reach, Rely, IsRun, ModeInv, Inv;
      MaySweep(name, seen, start);
      var dropped, wrote, before := api.Do(Another, DropToken(name));
      assert Between(api.svc, Another, old(api.world), before);
      DroppingTokenReaches(before, name);
      ReachTransitive(start, old(api.world), before);
      ReachTransitive(start, before, api.world);
    }

    /** What the list showed of a Secret is what it still is. */
    lemma MaySweep(name: string, seen: nat, start: World)
      requires api.Valid() && seen < |api.run| && name in api.run[seen].tokens && Reach(start, api.world)
      requires Unix(start.now) >= api.run[seen].tokens[name].expiresAt
      ensures forall w {:trigger Between(api.svc, Another, api.world, w)} ::
                Between(api.svc, Another, api.world, w) && Verdict(w, DropToken(name)).Done? && Inv(api.svc, w) && ModeInv(api.mode, w)
                ==> EffectEnabled(api.svc, w, DropToken(name)) && ModeInv(api.mode, AfterEffect(w, DropToken(name)))
    {
      hide ModeInv, IsRun, Inv, Reach;
      Runs.RunInv(api.svc, api.run, api.labels, seen);
      Runs.RunReach(api.svc, api.run, api.labels, seen, |api.run| - 1);
      forall w | Between(api.svc, Another, api.world, w) && Verdict(w, DropToken(name)).Done? && ModeInv(api.mode, w)
        ensures EffectEnabled(api.svc, w, DropToken(name)) && ModeInv(api.mode, AfterEffect(w, DropToken(name)))
      {
        ReachTransitive(api.run[seen], api.world, w);
        ContentIsKept(api.svc, api.run[seen], w, name);
        LaterIsLater(start, api.world);
        LaterIsLater(api.world, w);
        FrameKeepsMode(api.mode, w, AfterEffect(w, DropToken(name)));
      }
    }
  }

  lemma ContentIsKept(svc: Service, listed: World, w: World, name: string)
    requires Inv(svc, listed) && name in listed.tokens && Reach(listed, w) && name in w.tokens
    ensures w.tokens[name] == listed.tokens[name]
  {
    assert name in listed.trail.tokenNames;
  }

  lemma ReachReflexive(w: World)
    ensures Reach(w, w)
  {
  }

  lemma LaterIsLater(w: World, w': World)
    requires Reach(w, w')
    ensures w'.now >= w.now
  {
  }

  lemma DroppingTokenReaches(w: World, name: string)
    ensures Reach(w, w) && Reach(w, AfterEffect(w, DropToken(name)))
  {
  }
}
