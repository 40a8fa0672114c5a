/** Submitting and resubmitting requests (retry.go, and the locked section of createRequestHandler in
    api.go) against a shared store, with a lagging cache, conflicts, and calls that fail before or after
    they took effect. */
module Retry {
  import opened Prelude
  import opened SudoTypes
  import opened Fingerprint
  import opened Lineage
  import opened Validation
  import opened Api
  import Profiles

  /** Who else is about. Shared: other replicas submit too. OneReplica: no other submission through the
      API while one holds the lock. Alone: nobody moves, no call fails, the cache has caught up. */
  datatype Company = Shared | OneReplica | Alone

  predicate RequesterRetryable(p: Phase) {
    p == Expired || p == Failed
  }

  predicate Retryable(p: Phase, admin: bool) {
    if admin then IsTerminal(p) else RequesterRetryable(p)
  }

  /** A New, Pending or Approved request of the same requester has the same fingerprint. */
  ghost predicate HasUnfinishedTwin(cfg: Config, s: Store, candidate: Request) {
    exists n :: n in s.requests && s.requests[n].status.phase in {New, Pending, Approved}
                && s.requests[n].spec.requester == candidate.spec.requester
                && ExecutionFingerprint(cfg, s.requests[n]).Some?
                && ExecutionFingerprint(cfg, s.requests[n]) == ExecutionFingerprint(cfg, candidate)
  }

  /** Who may resubmit what. */
  ghost predicate MayRetry(p: Phase, admin: bool) {
    p in if admin then {Executed, Failed, Denied, Expired} else {Expired, Failed}
  }

  class RequestApi {
    const cfg: Config
    const company: Company
    var store: Store
    var run: seq<Store>
    var labels: seq<Act>

    ghost predicate Valid()
      reads this
    {
      && IsRun(cfg, run, labels) && run[|run| - 1] == store
      && (!company.Shared? ==> IsOrderly(cfg, run, labels))
    }

    constructor (cfg: Config, company: Company)
      ensures Valid() && store == EMPTY_STORE
      ensures this.cfg == cfg && this.company == company
    {
      this.cfg, this.company := cfg, company;
      store, run, labels := EMPTY_STORE, [EMPTY_STORE], [];
    }

    lemma Facts(seen: nat)
      requires Valid() && seen < |run|
      ensures StoreInv(cfg, store) && StoreInv(cfg, run[seen]) && StoreReach(run[seen], store)
    {
      RunStoreInv(cfg, run, labels, seen);
      RunStoreInv(cfg, run, labels, |run| - 1);
      RunStoreReach(cfg, run, labels, seen, |run| - 1);
    }

    method Perform(a: Act)
      requires Valid() && Enabled(cfg, store, a)
      requires !company.Shared? && CreatesViaApi(a) ==> LookedUp(cfg, run, labels, |labels|, a)
      modifies this
      ensures Valid() && store == Apply(old(store), a) && run == old(run) + [store] && labels == old(labels) + [a]
      ensures StoreReach(old(store), store)
    {
      hide Enabled, Apply, StoreReach, IsOrderly, LookedUp;
      ExtendRun(cfg, run, labels, a);
      if !company.Shared? {
        OrderlyExtends(cfg, run, labels, a, Apply(store, a));
      }
      StepReaches(cfg, store, a);
      store := Apply(store, a);
      run := run + [store];
      labels := labels + [a];
    }

    /** Others take any number of steps; while this replica holds the lock, none of them is a submission
        through the API. */
    method Interfere()
      requires Valid()
      modifies this
      ensures Valid() && old(run) <= run && old(labels) <= labels && StoreReach(old(store), store)
      ensures !company.Shared? ==> store.viaApi == old(store).viaApi && NoneCreated(labels, |old(labels)|, |labels|)
      ensures company.Alone? ==> store == old(store) && run == old(run) && labels == old(labels)
    {
      hide Enabled, IsOrderly, LookedUp, NoDuplicateOf, StoreReach;
      StoreReachReflexive(store);
      var n: int := *;
      while 0 < n && !company.Alone?
        invariant Valid() && old(run) <= run && old(labels) <= labels && StoreReach(old(store), store)
        invariant !company.Shared? ==> store.viaApi == old(store).viaApi && NoneCreated(labels, |old(labels)|, |labels|)
        invariant company.Alone? ==> store == old(store) && run == old(run) && labels == old(labels)
      {
        var a: Act := *;
        if Enabled(cfg, store, a) && (company.Shared? || !CreatesViaApi(a)) {
          ghost var s := store;
          Perform(a);
          StoreReachTransitive(old(store), s, store);
        }
        n := n - 1;
      }
    }

    method DrawFate() returns (fate: Fate)
      ensures company.Alone? ==> fate.Through?
    {
      fate := *;
      if company.Alone? {
        fate := Through;
      }
    }

    /** A cached read by name: some earlier state's answer. */
    method CachedGet(name: string) returns (r: Answer<Request>, ghost at: nat)
      requires Valid()
      ensures r.Found? ==> at < |run| && name in run[at].requests && run[at].requests[name] == r.value
      ensures company.Alone? ==> !r.Unavailable? && at == |run| - 1 && (r.Found? <==> name in store.requests)
    {
      var fate := DrawFate();
      var i: int := *;
      if company.Alone? || i < 0 || i >= |run| {
        i := |run| - 1;
      }
      at := i;
      if !fate.Through? {
        return Unavailable, at;
      }
      return if name in run[i].requests then Found(run[i].requests[name]) else Absent, at;
    }

    /** An uncached list. */
    method ListAll() returns (r: Answer<map<string, Request>>)
      requires Valid()
      modifies this
      ensures Valid() && old(run) <= run && old(labels) <= labels && StoreReach(old(store), store)
      ensures !company.Shared? ==> store.viaApi == old(store).viaApi
      ensures r.Found? ==> r.value == store.requests
      ensures company.Alone? ==> r.Found? && store == old(store) && run == old(run) && labels == old(labels)
    {
      Interfere();
      var fate := DrawFate();
      return if fate.Through? then Found(store.requests) else Unavailable;
    }

    /** Creating a request: the step, if it was taken, is labels[own]. */
    method Create(a: Act) returns (r: Outcome, ghost own: nat)
      requires Valid() && CreatesViaApi(a)
      requires forall s {:trigger StoreReach(store, s)} :: StoreReach(store, s) && a.name !in s.requests ==> Enabled(cfg, s, a)
      requires !company.Shared? ==> NoDuplicateOf(cfg, store, Candidate(a))
      modifies this
      ensures Valid() && old(run) <= run && old(labels) <= labels && StoreReach(old(store), store)
      ensures r.Done? ==>
                && |old(labels)| <= own < |labels| && labels[own] == a
                && a.name in store.requests && store.requests[a.name].spec == a.spec
                && store.requests[a.name].uid >= old(store).nextUid
      ensures r.Done? || r.Exists? || r.Lost?
      ensures company.Alone? ==>
                if a.name in old(store).requests then r.Exists? && store == old(store)
                else r.Done? && store == Apply(old(store), a)
    {
      hide Enabled, IsOrderly, ExecutionFingerprint;
      Facts(|run| - 1);
      Interfere();
      own := |labels|;
      var fate := DrawFate();
      if fate.LostBefore? {
        return Lost, own;
      }
      if a.name in store.requests {
        return if fate.Through? then Exists else Lost, own;
      }
      Facts(|run| - 1);
      assert !company.Shared? ==> LookedUp(cfg, run, labels, |labels|, a) by {
        assert run[|old(run)| - 1] == old(store);
      }
      ghost var s := store;
      Perform(a);
      StoreReachTransitive(old(store), s, store);
      return if fate.Through? then Done else Lost, own;
    }

    /** The status update that writes the forward link, on a copy read earlier. */
    method UpdateLink(sr: Request, uid: Uid, ghost seen: nat) returns (r: Outcome)
      requires Valid() && seen < |run| && sr.name in run[seen].requests && run[seen].requests[sr.name] == sr
      requires sr.status.supersededBy.None? && IsTheSuccessor(cfg.lib, store, sr.uid, uid)
      modifies this
      ensures Valid() && old(run) <= run && old(labels) <= labels && StoreReach(old(store), store)
      ensures r.Done? ==> LinkedTo(store, sr.name, uid)
      ensures r.Done? || r.Conflict? || r.Lost?
      ensures company.Alone? && sr.name in old(store).requests && old(store).requests[sr.name] == sr ==> r.Done?
    {
      hide IsOrderly, Enabled, StoreReach, StoreInv, IsTheSuccessor, LinkedTo;
      Interfere();
      SuccessorStays(cfg.lib, old(store), store, sr.uid, uid);
      Facts(seen);
      LinkIsEnabled(cfg, run[seen], store, sr, uid);
      var fate := DrawFate();
      if fate.LostBefore? {
        return Lost;
      }
      if store.requests[sr.name].version != sr.version {
        return if fate.Through? then Conflict else Lost;
      }
      ghost var s := store;
      Perform(LinkTo(sr.name, uid));
      LinkingLinks(s, sr.name, uid);
      StoreReachTransitive(old(store), s, store);
      return if fate.Through? then Done else Lost;
    }

    // ----- findPendingDuplicate -----

    /** Found: an unfinished request of the same requester that runs the same thing. Absent: there was none. */
    method FindPendingDuplicate(candidate: Request) returns (r: Answer<Request>)
      requires Valid() && candidate.status.phase == New
      modifies this
      ensures Valid() && old(run) <= run && old(labels) <= labels && StoreReach(old(store), store)
      ensures !company.Shared? ==> store.viaApi == old(store).viaApi
      ensures r.Found? ==>
                r.value.name in store.requests && store.requests[r.value.name] == r.value && Duplicates(cfg, r.value, candidate)
      ensures r.Absent? ==> forall n :: n in store.requests ==> !Duplicates(cfg, store.requests[n], candidate)
      ensures company.Alone? ==>
                store == old(store) && run == old(run) && (r.Unavailable? <==> ExecutionFingerprint(cfg, candidate).None?)
    {
      hide ExecutionFingerprint, IsOrderly, StoreReach;
      StoreReachReflexive(store);
      var want := ExecutionFingerprint(cfg, candidate);
      if want.None? {
        return Unavailable;
      }
      var list := ListAll();
      Facts(|run| - 1);
      if !list.Found? {
        return Unavailable;
      }
      var names := list.value.Keys;
      while names != {}
        invariant forall n :: n in names ==> n in list.value
        invariant forall n :: n in list.value && n !in names ==> !Duplicates(cfg, list.value[n], candidate)
      {
        var n :| n in names;
        names := names - {n};
        var current := list.value[n];
        if !IsActive(current.status.phase) || current.spec.requester != candidate.spec.requester {
          continue;
        }
        if ExecutionFingerprint(cfg, current) == want {
          return Found(current);
        }
      }
      return Absent;
    }

    // ----- ensureSupersededLink -----

    /** One round: read the source, and write the link unless it is there. */
    method LinkOnce(name: string, source: Uid, successor: Uid, ghost seen: nat) returns (r: Outcome)
      requires Valid() && seen < |run| && name in run[seen].requests && run[seen].requests[name].uid == source
      requires IsTheSuccessor(cfg.lib, store, source, successor)
      modifies this
      ensures Valid() && old(run) <= run && old(labels) <= labels && StoreReach(old(store), store)
      ensures r.Done? ==> LinkedTo(store, name, successor)
      ensures company.Alone? ==> r.Done?
    {
      hide IsOrderly, Enabled, StoreReach, StoreInv, IsTheSuccessor;
      StoreReachReflexive(store);
      var current, at := CachedGet(name);
      Facts(seen);
      StillThere(run[seen], store, name);
      if !current.Found? || current.value.uid != source {
        return Lost;
      }
      Facts(at);
      CachedLink(cfg, run[at], store, name, source, successor);
      if current.value.status.supersededBy == Some(successor) {
        return Done;
      }
      if current.value.status.supersededBy.Some? {
        return Lost;
      }
      r := UpdateLink(current.value, successor, at);
    }

    /** Done, the source's forward link names this successor, whoever wrote it. */
    method EnsureSupersededLink(name: string, source: Uid, successor: Uid, ghost seen: nat) returns (ok: bool)
      requires Valid() && seen < |run| && name in run[seen].requests && run[seen].requests[name].uid == source
      requires IsTheSuccessor(cfg.lib, store, source, successor)
      modifies this
      ensures Valid() && old(run) <= run && old(labels) <= labels && StoreReach(old(store), store)
      ensures ok ==> LinkedTo(store, name, successor)
      ensures company.Alone? ==> ok
    {
      hide IsOrderly, Enabled, StoreReach, StoreInv, IsTheSuccessor, LinkedTo, IsRun;
      StoreReachReflexive(store);
      var r := LinkOnce(name, source, successor, seen);
      SuccessorStays(cfg.lib, old(store), store, source, successor);
      var attempt := 1;
      while attempt < CONFLICT_RETRIES && r.Conflict?
        invariant Valid() && old(run) <= run && old(labels) <= labels && StoreReach(old(store), store)
        invariant IsTheSuccessor(cfg.lib, store, source, successor)
        invariant r.Done? ==> LinkedTo(store, name, successor)
        invariant company.Alone? ==> r.Done?
      {
        ghost var s := store;
        r := LinkOnce(name, source, successor, seen);
        StoreReachTransitive(old(store), s, store);
        SuccessorStays(cfg.lib, s, store, source, successor);
        attempt := attempt + 1;
      }
      return r.Done?;
    }

    // ----- retryRequest -----

    /** adoptRetrySuccessor: whatever occupies the deterministic name is checked before it is linked. */
    method Adopt(source: Request, existing: Request, ghost seen: nat, ghost at: nat) returns (r: Option<Request>)
      requires Valid() && seen < |run| && source.name in run[seen].requests && run[seen].requests[source.name] == source
      requires at < |run| && RetryChildName(cfg.lib, source.uid) in run[at].requests
      requires run[at].requests[RetryChildName(cfg.lib, source.uid)] == existing
      modifies this
      ensures Valid() && old(run) <= run && old(labels) <= labels && StoreReach(old(store), store)
      ensures r.Some? ==> Succeeded(cfg.lib, store, source, r.value)
      ensures company.Alone? ==> (r.Some? <==> ValidSuccessor(cfg, source, existing))
    {
      hide IsOrderly, StoreReach, StoreInv, ExecutionFingerprint, IsRun;
      StoreReachReflexive(store);
      if !ValidSuccessor(cfg, source, existing) {
        return None;
      }
      Facts(at);
      OccupantIsSuccessor(cfg.lib, run[at], store, source, existing);
      var ok := EnsureSupersededLink(source.name, source.uid, existing.uid, seen);
      SuccessorStays(cfg.lib, old(store), store, source.uid, existing.uid);
      return if ok then Some(existing) else None;
    }

    /** Success means the one successor exists and the source's link names it; `created` means that this
        call's own step made it, of the source's spec under the new submitter. A requester succeeds only with a
        source that has expired or failed, an administrator with any that is over. Undisturbed, a call succeeds
        exactly when moreover the name is free for a fresh, valid and undoubled request or held by a successor
        that still checks out. */
    method RetryRequest(source: Request, submittedBy: string, admin: bool, ghost seen: nat)
      returns (r: Option<Request>, created: bool, ghost own: nat)
      requires Valid() && seen < |run| && source.name in run[seen].requests && run[seen].requests[source.name] == source
      modifies this
      ensures Valid() && old(run) <= run && old(labels) <= labels && StoreReach(old(store), store)
      ensures r.Some? ==> Succeeded(cfg.lib, store, source, r.value)
      ensures r.Some? || created ==>
                source.status.phase in if admin then {Executed, Failed, Denied, Expired} else {Expired, Failed}
      ensures created ==>
                |old(labels)| <= own < |labels|
                && labels[own] == Resubmit(RetryChildName(cfg.lib, source.uid),
                                           source.spec.(retryOf := Some(source.uid), submittedBy := submittedBy), admin)
      ensures created && r.Some? ==> r.value.spec == source.spec.(retryOf := Some(source.uid), submittedBy := submittedBy)
      ensures company.Alone? ==>
                (r.Some? <==>
                   && source.status.phase in (if admin then {Executed, Failed, Denied, Expired} else {Expired, Failed})
                   && var child := RetryChildName(cfg.lib, source.uid);
                      if child in old(store).requests then ValidSuccessor(cfg, source, old(store).requests[child])
                      else MayBeCreated(cfg, old(store), child,
                                        source.spec.(retryOf := Some(source.uid), submittedBy := submittedBy)))
    {
      hide IsOrderly, StoreReach, StoreInv, ExecutionFingerprint, ValidSuccessor, Accepted, Duplicates, Succeeded, IsRun;
      StoreReachReflexive(store);
      created, own := false, 0;
      if !Retryable(source.status.phase, admin) {
        return None, created, own;
      }
      var name := RetryChildName(cfg.lib, source.uid);
      var existing, at := CachedGet(name);
      if existing.Found? {
        r := Adopt(source, existing.value, seen, at);
        return;
      }
      if existing.Unavailable? {
        return None, created, own;
      }
      Facts(seen);
      UnlinkedWithoutChild(cfg, run[seen], store, source);
      if source.status.supersededBy.Some? {
        return None, created, own;
      }
      r, created, own := CreateSuccessor(source, Resubmission(source, submittedBy), admin, seen);
    }

    method CreateSuccessor(source: Request, spec: Spec, admin: bool, ghost seen: nat)
      returns (r: Option<Request>, created: bool, ghost own: nat)
      requires Valid() && seen < |run| && source.name in run[seen].requests && run[seen].requests[source.name] == source
      requires Resubmits(source, spec) && MayRetry(source.status.phase, admin)
      requires company.Alone? ==> RetryChildName(cfg.lib, source.uid) !in store.requests
      modifies this
      ensures Valid() && old(run) <= run && old(labels) <= labels && StoreReach(old(store), store)
      ensures r.Some? ==> Succeeded(cfg.lib, store, source, r.value)
      ensures created ==>
                |old(labels)| <= own < |labels| && labels[own] == Resubmit(RetryChildName(cfg.lib, source.uid), spec, admin)
      ensures created && r.Some? ==> r.value.spec == spec
      ensures company.Alone? ==> (r.Some? <==> MayBeCreated(cfg, old(store), RetryChildName(cfg.lib, source.uid), spec))
    {
      hide IsOrderly, StoreReach, StoreInv, ExecutionFingerprint, ValidSuccessor, Duplicates, Succeeded, IsRun;
      hide SpecExtrasOk, PlaybookOk, Profiles.ResolveAndPreflight;
      created, own := false, 0;
      var name := RetryChildName(cfg.lib, source.uid);
      var candidate := NewRequest(name, 0, spec);
      var duplicate := FindPendingDuplicate(candidate);
      AcceptedHasFingerprint(cfg, candidate);
      ghost var listed := store;
      ghost var at := |run| - 1;
      if duplicate.Unavailable? {
        return None, created, own;
      }
      if duplicate.Found? {
        if duplicate.value.name == name {
          r := Adopt(source, duplicate.value, seen, at);
          StoreReachTransitive(old(store), listed, store);
          return;
        }
        return None, created, own;
      }
      var extras := ValidateSpecExtras(cfg, spec);
      if Profiles.ResolveAndPreflight(cfg, spec).None? || !cfg.lib.shellSyntaxOk(spec.command)
         || extras.Some? || !PlaybookOk(cfg.lib, spec) {
        return None, created, own;
      }
      r, created, own := CreateAndLink(source, spec, admin, seen);
      StoreReachTransitive(old(store), listed, store);
    }

    method CreateAndLink(source: Request, spec: Spec, admin: bool, ghost seen: nat)
      returns (r: Option<Request>, created: bool, ghost own: nat)
      requires Valid() && seen < |run| && source.name in run[seen].requests && run[seen].requests[source.name] == source
      requires Resubmits(source, spec) && MayRetry(source.status.phase, admin)
      requires forall n :: n in store.requests ==>
                 !Duplicates(cfg, store.requests[n], NewRequest(RetryChildName(cfg.lib, source.uid), 0, spec))
      modifies this
      ensures Valid() && old(run) <= run && old(labels) <= labels && StoreReach(old(store), store)
      ensures r.Some? ==> Succeeded(cfg.lib, store, source, r.value)
      ensures created ==>
                |old(labels)| <= own < |labels| && labels[own] == Resubmit(RetryChildName(cfg.lib, source.uid), spec, admin)
      ensures created && r.Some? ==> r.value.spec == spec
      ensures company.Alone? && RetryChildName(cfg.lib, source.uid) !in old(store).requests ==> r.Some? && created
    {
      hide IsOrderly, StoreReach, StoreInv, ExecutionFingerprint, ValidSuccessor, Duplicates, IsRun;
      var name := RetryChildName(cfg.lib, source.uid);
      var act := Resubmit(name, spec, admin);
      Facts(seen);
      MayResubmit(cfg, run[seen], store, source, act);
      var made;
      made, own := Create(act);
      created := made.Done?;
      ghost var s := store;
      if made.Lost? {
        return None, created, own;
      }
      if made.Exists? {
        var existing, at := CachedGet(name);
        if !existing.Found? {
          return None, created, own;
        }
        r := Adopt(source, existing.value, seen, at);
        StoreReachTransitive(old(store), s, store);
        return;
      }
      var successor := store.requests[name];
      var ok := EnsureSupersededLink(source.name, source.uid, successor.uid, seen);
      SuccessorStays(cfg.lib, s, store, source.uid, successor.uid);
      StoreReachTransitive(old(store), s, store);
      return if ok then Some(successor) else None, created, own;
    }

    // ----- createRequestHandler -----

    /** A submission: refused if invalid, answered with the unfinished request it duplicates if there is
        one, created otherwise. */
    method CreateRequest(name: string, spec: Spec) returns (r: Option<Request>, duplicate: bool)
      requires Valid() && spec.retryOf.None?
      modifies this
      ensures Valid() && old(run) <= run && old(labels) <= labels && StoreReach(old(store), store)
      ensures r.Some? ==>
                && r.value.name in store.requests && store.requests[r.value.name] == r.value
                && Accepted(cfg, spec) && r.value.spec.requester == spec.requester
                && (duplicate ==> Duplicates(cfg, r.value, NewRequest(name, 0, spec)))
                && (!duplicate ==> r.value.spec == spec && r.value.name == name && r.value.uid >= old(store).nextUid)
      ensures company.Alone? ==>
                && (r.Some? <==> Accepted(cfg, spec) && (MayBeCreated(cfg, old(store), name, spec) ==> name !in old(store).requests))
                && (Accepted(cfg, spec) && HasUnfinishedTwin(cfg, old(store), NewRequest(name, 0, spec)) <==> r.Some? && duplicate)
                && (r.Some? ==> (duplicate <==> !MayBeCreated(cfg, old(store), name, spec)))
    {
      hide IsOrderly, StoreReach, StoreInv, ExecutionFingerprint, SpecExtrasOk, PlaybookOk, Profiles.ResolveAndPreflight;
      duplicate := false;
      StoreReachReflexive(store);
      var extras := ValidateSpecExtras(cfg, spec);
      if Profiles.ResolveAndPreflight(cfg, spec).None? || !cfg.lib.shellSyntaxOk(spec.command)
         || extras.Some? || !PlaybookOk(cfg.lib, spec) {
        return None, duplicate;
      }
      var candidate := NewRequest(name, 0, spec);
      AcceptedHasFingerprint(cfg, candidate);
      var found := FindPendingDuplicate(candidate);
      ghost var listed := store;
      if found.Unavailable? {
        return None, duplicate;
      }
      if found.Found? {
        return Some(found.value), true;
      }
      var act := Submit(name, spec, true);
      var made, own := Create(act);
      StoreReachTransitive(old(store), listed, store);
      LaterUid(old(store), listed);
      Facts(|run| - 1);
      NamedAsStored(cfg, store, name);
      return if made.Done? then Some(store.requests[name]) else None, duplicate;
    }
  }

  function Resubmission(source: Request, submittedBy: string): Spec {
    source.spec.(retryOf := Some(source.uid), submittedBy := submittedBy)
  }

  /** A valid spec that no unfinished request of the same requester already runs. */
  predicate MayBeCreated(cfg: Config, s: Store, name: string, spec: Spec) {
    Accepted(cfg, spec) && forall n :: n in s.requests ==> !Duplicates(cfg, s.requests[n], NewRequest(name, 0, spec))
  }

  ghost predicate Succeeded(lib: Library, s: Store, source: Request, successor: Request) {
    IsTheSuccessor(lib, s, source.uid, successor.uid) && LinkedTo(s, source.name, successor.uid)
  }

  /** However many calls succeed for one source, whoever made them, they all return the same request. */
  lemma SuccessesAgree(lib: Library, s: Store, t: Store, source: Request, later: Request, a: Request, b: Request)
    requires StoreReach(s, t) && source.uid == later.uid
    requires Succeeded(lib, s, source, a) && Succeeded(lib, t, later, b)
    ensures a.uid == b.uid
  {
  }

  /** Of all calls for one source, whoever makes them and however they overlap, at most one answers that it
      has created the successor: what each such call calls its own step is the same step. */
  lemma OneCallCreates(cfg: Config, run: seq<Store>, labels: seq<Act>, source: Request, later: Request, one: string, other: string,
                       own: nat, own': nat)
    requires IsRun(cfg, run, labels) && own < |labels| && own' < |labels| && source.uid == later.uid
    requires exists admin :: labels[own] == Resubmit(RetryChildName(cfg.lib, source.uid), Resubmission(source, one), admin)
    requires exists admin :: labels[own'] == Resubmit(RetryChildName(cfg.lib, later.uid), Resubmission(later, other), admin)
    ensures own == own' && one == other
  {
    CreatedOnce(cfg, run, labels, own, own');
    assert Resubmission(source, one).submittedBy == one && Resubmission(later, other).submittedBy == other;
  }

  lemma OccupantIsSuccessor(lib: Library, seen: Store, s: Store, source: Request, existing: Request)
    requires StoreReach(seen, s) && existing.spec.retryOf == Some(source.uid)
    requires RetryChildName(lib, source.uid) in seen.requests && seen.requests[RetryChildName(lib, source.uid)] == existing
    ensures IsTheSuccessor(lib, s, source.uid, existing.uid)
  {
  }

  lemma UnlinkedWithoutChild(cfg: Config, seen: Store, s: Store, source: Request)
    requires StoreInv(cfg, seen) && StoreReach(seen, s)
    requires source.name in seen.requests && seen.requests[source.name] == source
    ensures source.status.supersededBy.Some? ==> RetryChildName(cfg.lib, source.uid) in s.requests
  {
    assert LinkHolds(cfg.lib, seen, source);
  }

  lemma MayResubmit(cfg: Config, seen: Store, s: Store, source: Request, a: Act)
    requires StoreReach(seen, s) && source.name in seen.requests && seen.requests[source.name] == source
    requires StoreInv(cfg, seen) && a.Resubmit? && MayRetry(source.status.phase, a.admin)
    requires IsRetryOf(cfg.lib, source, a.name, a.spec)
    ensures forall t {:trigger StoreReach(s, t)} :: StoreReach(s, t) && a.name !in t.requests ==> Enabled(cfg, t, a)
  {
    hide Settled, Linked, Rooted, Moves, Named, RetryChildName;
    assert OverSince(seen, source);
    forall t | StoreReach(s, t) && a.name !in t.requests
      ensures Enabled(cfg, t, a)
    {
      assert source.name in t.requests && IsRetryOf(cfg.lib, t.requests[source.name], a.name, a.spec);
    }
  }

  lemma AcceptedHasFingerprint(cfg: Config, candidate: Request)
    requires candidate.status == EMPTY_STATUS
    ensures Accepted(cfg, candidate.spec) ==> ExecutionFingerprint(cfg, candidate).Some?
  {
    NormalisedResolvesAlike(cfg, candidate.spec);
  }

  lemma NamedAsStored(cfg: Config, s: Store, name: string)
    requires StoreInv(cfg, s)
    ensures name in s.requests ==> s.requests[name].name == name
  {
  }

  lemma LaterUid(s: Store, t: Store)
    requires StoreReach(s, t)
    ensures s.nextUid <= t.nextUid
  {
  }

  predicate LinkedTo(s: Store, name: string, uid: Uid) {
    name in s.requests && s.requests[name].status.supersededBy == Some(uid)
  }

  lemma LinkIsEnabled(cfg: Config, seen: Store, s: Store, sr: Request, uid: Uid)
    requires StoreInv(cfg, s) && StoreInv(cfg, seen) && StoreReach(seen, s) && IsTheSuccessor(cfg.lib, s, sr.uid, uid)
    requires sr.name in seen.requests && seen.requests[sr.name] == sr && sr.status.supersededBy.None?
    ensures sr.name in s.requests
    ensures s.requests[sr.name].version == sr.version ==> s.requests[sr.name] == sr && Enabled(cfg, s, LinkTo(sr.name, uid))
  {
  }

  lemma LinkingLinks(s: Store, name: string, uid: Uid)
    requires name in s.requests
    ensures LinkedTo(Apply(s, LinkTo(name, uid)), name, uid)
  {
  }

  lemma StillThere(s: Store, t: Store, name: string)
    requires StoreReach(s, t) && name in s.requests
    ensures name in t.requests && t.requests[name].uid == s.requests[name].uid
  {
  }

  /** A link an earlier state shows can only be to the successor, and is there still. */
  lemma CachedLink(cfg: Config, seen: Store, s: Store, name: string, source: Uid, successor: Uid)
    requires StoreInv(cfg, seen) && StoreReach(seen, s) && IsTheSuccessor(cfg.lib, s, source, successor)
    requires name in seen.requests && seen.requests[name].uid == source
    ensures seen.requests[name].name == name
    ensures seen.requests[name].status.supersededBy.Some? ==>
              seen.requests[name].status.supersededBy == Some(successor) && LinkedTo(s, name, successor)
  {
    assert LinkHolds(cfg.lib, seen, seen.requests[name]);
  }

  lemma StoreReachReflexive(s: Store)
    ensures StoreReach(s, s)
  {
  }

  ghost predicate IsTheSuccessor(lib: Library, s: Store, source: Uid, uid: Uid) {
    var child := RetryChildName(lib, source);
    child in s.requests && s.requests[child].uid == uid && s.requests[child].spec.retryOf == Some(source)
  }

  lemma SuccessorStays(lib: Library, s: Store, t: Store, source: Uid, uid: Uid)
    requires StoreReach(s, t) && IsTheSuccessor(lib, s, source, uid)
    ensures IsTheSuccessor(lib, t, source, uid)
  {
  }
}
