/** The executor Job at the apiserver (executor.go): creating it once, finding its pod, giving up on one
    that never starts, and collecting what it left. */
module Executor {
  import opened Prelude
  import opened SudoTypes
  import opened PodBuild
  import opened Lifecycle
  import opened Invariants
  import opened Stability
  import opened Api
  import opened Pods
  import opened Wiring
  import opened Writes

  /** A Job to go on with, a transient obstacle, or a permanent rejection. */
  datatype Adoption = Ready(job: Job) | Retry | Refused

  datatype Capture = Captured(code: int, output: Output) | Uncaptured

  /** An effect on behalf of an approved request. */
  method DoFor(api: ApiServer, sr: Request, e: Effect) returns (r: Outcome, ghost wrote: bool, ghost before: World)
    requires api.Valid() && StillApproved(sr, api.world) && Doable(api.svc, api.mode, api.world, e)
    requires e.DeleteJob? || e.PutStdin? || e.PutOutput? || e.DeleteTarget?
    modifies api
    ensures api.Valid() && old(api.run) <= api.run && old(api.labels) <= api.labels && api.cached == old(api.cached)
    ensures Rely(api.svc, old(api.world), before) && StillApproved(sr, api.world)
    ensures wrote ==> Verdict(before, e).Done? && api.world == AfterEffect(before, e)
    ensures !wrote ==> api.world == before
    ensures r == Lost || (r == Verdict(before, e) && wrote == r.Done? && !api.down)
    ensures GoesThrough(api.mode) ==> r != Lost
    ensures api.mode.Silent? ==> before == old(api.world)
    ensures api.Unmeddled(|old(api.labels)|) ==> SameExecutor(old(api.world), before)
  {
    hide Rely, IsRun, EffectEnabled, ModeInv, Inv, Doable, AfterEffect, Verdict, StillApproved;
    EffectMayBeDone(api.svc, api.mode, api.world, e);
    r, wrote, before := api.Do(Controller, e);
    assert Rely(api.svc, old(api.world), before);
    ApprovalLasts(api.svc, sr, old(api.world), before);
    if wrote {
      EffectKeepsApproval(sr, before, e);
    }
  }

  lemma EffectKeepsApproval(sr: Request, w: World, e: Effect)
    requires StillApproved(sr, w)
    requires e.DeleteJob? || e.PutStdin? || e.PutOutput? || e.DeleteTarget?
    ensures StillApproved(sr, AfterEffect(w, e))
  {
  }

  // ----- stopJob -----

  /** Background deletion takes the Job object at once; one already gone is as good. */
  method StopJob(api: ApiServer, name: string) returns (ok: bool, ghost before: World)
    requires api.Valid() && Doable(api.svc, api.mode, api.world, DeleteJob(name))
    modifies api
    ensures api.Valid() && old(api.run) <= api.run && old(api.labels) <= api.labels && api.cached == old(api.cached)
    ensures Rely(api.svc, old(api.world), before)
    ensures api.world == before || api.world == AfterEffect(before, DeleteJob(name))
    ensures ok ==> name !in api.world.jobs && !api.down
    ensures GoesThrough(api.mode) ==> ok
    ensures api.mode.Silent? ==> before == old(api.world)
  {
    hide Rely, IsRun, EffectEnabled, ModeInv, Inv, Doable;
    EffectMayBeDone(api.svc, api.mode, api.world, DeleteJob(name));
    var r;
    ghost var wrote;
    r, wrote, before := api.Do(Controller, DeleteJob(name));
    assert Rely(api.svc, old(api.world), before);
    ok := r.Done? || r.Missing?;
  }

  /** Stopping the Job of a request that stays approved meanwhile. */
  method StopJobOf(api: ApiServer, sr: Request) returns (ok: bool)
    requires api.Valid() && StillApproved(sr, api.world)
    requires api.mode.SidecarHeld? ==> sr.status.exitCode.Some?
    modifies api
    ensures api.Valid() && old(api.run) <= api.run && old(api.labels) <= api.labels && api.cached == old(api.cached)
    ensures StillApproved(sr, api.world) && Reach(old(api.world), api.world)
    ensures ok ==> sr.status.exec.jobName !in api.world.jobs && !api.down
    ensures GoesThrough(api.mode) ==> ok
    ensures api.mode.Silent? ==> api.world.Shown() == old(api.world).Shown()
  {
    hide Rely, IsRun, ModeInv, Inv, Doable, StillApproved;
    MayStopJob(api.svc, api.mode, api.world, sr);
    ghost var before;
    ok, before := StopJob(api, sr.status.exec.jobName);
    ApprovalLasts(api.svc, sr, old(api.world), before);
    EffectKeepsApproval(sr, before, DeleteJob(sr.status.exec.jobName));
    StoppingReaches(api.svc, old(api.world), before, sr.status.exec.jobName);
  }

  lemma StoppingReaches(svc: Service, w: World, w': World, name: string)
    requires Rely(svc, w, w')
    ensures Reach(w, w') && Reach(w, AfterEffect(w', DeleteJob(name)))
  {
  }

  // ----- getJobPod -----

  method GetJobPod(api: ApiServer, name: string, uid: Uid) returns (r: Answer<Pod>)
    requires api.Valid()
    modifies api
    ensures api.Valid() && old(api.run) <= api.run && old(api.labels) <= api.labels && api.cached == old(api.cached)
    ensures Rely(api.svc, old(api.world), api.world) && KeptOpen(api.mode, old(api.world), api.world)
    ensures api.LeftAlone(|old(api.labels)|, old(api.world)) && api.Quiet(|old(api.labels)|, |api.labels|)
    ensures r.Found? ==> JobPod(api.world, name, uid) == Some(r.value) && !api.down
    ensures r.Absent? ==> JobPod(api.world, name, uid).None? && !api.down
    ensures api.mode.Silent? ==> api.world == old(api.world)
    ensures GoesThrough(api.mode) ==> !r.Unavailable?
  {
    hide Rely, IsRun, ModeInv, KeptOpen;
    var pods := api.ListPods(name);
    if !pods.Found? {
      return Unavailable;
    }
    var pod := FindOwned(pods.value, uid);
    return if pod.Some? then Found(pod.value) else Absent;
  }

  // ----- ensureStdinSecret -----

  /** At some time since, the Secret was there with just this content. */
  ghost predicate StdinSeen(run: seq<World>, from: nat, name: string, payload: StdinSecret) {
    exists k :: from <= k < |run| && name in run[k].stdins && run[k].stdins[name] == payload
  }

  ghost predicate StdinInPlace(run: seq<World>, from: nat, sr: Request, owner: Uid) {
    sr.spec.stdin != "" ==> StdinSeen(run, from, sr.status.exec.stdinName, StdinSecret(owner, sr.spec.stdin))
  }

  predicate NameTaken(w: World, name: string, payload: StdinSecret) {
    name in w.stdins && w.stdins[name] != payload
  }

  /** Done means the approved bytes, owned by this Job, were seen in place; Rejected that the name is
      taken by something else. */
  method EnsureStdinSecret(api: ApiServer, sr: Request, owner: Uid) returns (r: Outcome)
    requires api.Valid() && StillApproved(sr, api.world)
    modifies api
    ensures api.Valid() && old(api.run) <= api.run && old(api.labels) <= api.labels && api.cached == old(api.cached)
    ensures StillApproved(sr, api.world) && Subset(old(api.world).trail.ours, api.world.trail.ours)
    ensures r.Done? || r.Rejected? || r.Lost?
    ensures r.Done? ==> StdinInPlace(api.run, |old(api.run)| - 1, sr, owner)
    ensures GoesThrough(api.mode) && api.Unmeddled(|old(api.labels)|) ==> !r.Lost?
    ensures r.Rejected? ==> NameTaken(api.world, sr.status.exec.stdinName, StdinSecret(owner, sr.spec.stdin))
    ensures api.mode.Silent? && !old(api.down) ==>
              !r.Lost? && !api.down && api.world.Shown() == old(api.world).Shown() && api.world.jobs == old(api.world).jobs
  {
    hide IsRun, ModeInv, Inv, Doable, StillApproved, TokensRely, StatusRely, Reach;
    if sr.spec.stdin == "" {
      return Done;
    }
    var name, payload := sr.status.exec.stdinName, StdinSecret(owner, sr.spec.stdin);
    MayPutStdin(api.svc, api.mode, api.world, name, payload);
    var put, wrote, before := DoFor(api, sr, PutStdin(name, payload));
    if put.Done? {
      assert api.run[|api.run| - 1].stdins[name] == payload;
      return Done;
    }
    if !put.Exists? {
      return Lost;
    }
    ghost var w := api.world;
    var existing := api.GetStdin(name);
    ApprovalLasts(api.svc, sr, w, api.world);
    if !existing.Found? {
      return Lost;
    }
    if existing.value != payload {
      return Rejected;
    }
    assert api.run[|api.run| - 1].stdins[name] == payload;
    return Done;
  }

  // ----- findOrCreateJob -----

  /** The Job rendered for `sr` may be created, whatever others do first. */
  lemma MayCreate(cfg: Config, svc: Service, w0: World, sr: Request, spec: JobSpec)
    requires Wired(cfg, svc) && StillApproved(sr, w0) && !sr.status.playbook.autoApproved
    requires sr.status.exec.jobName != "" && sr.status.exec.jobUid.None?
    requires svc.crossNamespace(sr.spec) ==> sr.finalizer
    requires svc.jobFor(sr, sr.status.exec.jobName) == Some(spec)
    ensures forall w, job: Job {:trigger Rely(svc, w0, w), EffectEnabled(svc, w, CreateJob(sr.status.exec.jobName, job))} ::
              Rely(svc, w0, w) && sr.status.exec.jobName !in w.jobs && Inv(svc, w)
              && job.uid !in w.trail.uids && job.spec == spec && !job.finished && !job.terminating
              ==> EffectEnabled(svc, w, CreateJob(sr.status.exec.jobName, job))
  {
    hide Wired, Inv;
    var name := sr.status.exec.jobName;
    forall w, job: Job | Rely(svc, w0, w) && name !in w.jobs && Inv(svc, w)
                         && job.uid !in w.trail.uids && job.spec == spec && !job.finished && !job.terminating
      ensures EffectEnabled(svc, w, CreateJob(name, job))
    {
      ApprovalLasts(svc, sr, w0, w);
      hide Rely;
      RenderingLasts(cfg, svc, sr, w.last, name);
    }
  }

  lemma CreationKeepsApproval(sr: Request, w: World, job: Job)
    requires StillApproved(sr, w)
    ensures StillApproved(sr, AfterEffect(w, CreateJob(sr.status.exec.jobName, job)))
    ensures job.uid in AfterEffect(w, CreateJob(sr.status.exec.jobName, job)).trail.ours
    ensures AfterEffect(w, CreateJob(sr.status.exec.jobName, job)).Shown() == w.Shown()
  {
  }

  /** In the controller's namespace nobody else creates executor Jobs, so one found at the name is ours. */
  lemma FoundIsOurs(svc: Service, w: World, name: string)
    requires Inv(svc, w) && !svc.crossNamespace(w.spec) && name in w.jobs
    ensures w.jobs[name].uid in w.trail.ours
  {
  }

  /** Every Job this yields was created by this controller, for this request, and had its stdin in place. */
  method FindOrCreateJob(cfg: Config, api: ApiServer, sr: Request) returns (r: Adoption)
    requires api.Valid() && Wired(cfg, api.svc) && !api.mode.SidecarHeld? && StillApproved(sr, api.world)
    requires !sr.status.playbook.autoApproved && sr.status.exec.jobName != "" && sr.status.exec.jobUid.None?
    requires api.svc.crossNamespace(sr.spec) ==> sr.finalizer
    requires api.svc.accepted(sr.spec)
    modifies api
    ensures api.Valid() && old(api.run) <= api.run && old(api.labels) <= api.labels && api.cached == old(api.cached)
    ensures StillApproved(sr, api.world)
    ensures r.Ready? ==> r.job.uid in api.world.trail.ours && StdinInPlace(api.run, |old(api.run)| - 1, sr, r.job.uid)
    ensures GoesThrough(api.mode) && api.Unmeddled(|old(api.labels)|) && !BeingDeleted(old(api.world), sr.status.exec.jobName) ==>
              !r.Retry?
    ensures api.mode.Silent? && sr.status.exec.jobName !in old(api.world).jobs && !old(MayMount(cfg, api, sr)) ==>
              r.Refused? && api.world == old(api.world)
    ensures api.mode.Silent? && !old(api.down) && !BeingDeleted(old(api.world), sr.status.exec.jobName) ==>
              !r.Retry? && !api.down && api.world.Shown() == old(api.world).Shown()
  {
    hide Rely, IsRun, ModeInv, Inv, Doable, StillApproved, Wired, AfterEffect, EffectEnabled, StdinInPlace, KeptOpen;
    var name := sr.status.exec.jobName;
    var found := api.GetJob(name);
    ApprovalLasts(api.svc, sr, old(api.world), api.world);
    ghost var from := |api.run| - 1;
    if found.Found? {
      if found.value.terminating {
        return Retry;
      }
      r := AdoptFound(cfg, api, sr, found.value);
      SeenSince(api.run, |old(api.run)| - 1, from, sr, found.value.uid);
      return;
    }
    if found.Unavailable? {
      return Retry;
    }
    r := CreateJobAndStdin(cfg, api, sr);
    if r.Ready? {
      SeenSince(api.run, |old(api.run)| - 1, from, sr, r.job.uid);
    }
  }

  /** A Job at the name is adopted only where nobody else could have put it there. */
  method AdoptFound(cfg: Config, api: ApiServer, sr: Request, job: Job) returns (r: Adoption)
    requires api.Valid() && Wired(cfg, api.svc) && StillApproved(sr, api.world) && !api.mode.SidecarHeld?
    requires sr.status.exec.jobName in api.world.jobs && api.world.jobs[sr.status.exec.jobName] == job
    modifies api
    ensures api.Valid() && old(api.run) <= api.run && old(api.labels) <= api.labels && api.cached == old(api.cached)
    ensures StillApproved(sr, api.world)
    ensures r.Ready? ==>
              r.job == job && job.uid in api.world.trail.ours && StdinInPlace(api.run, |old(api.run)| - 1, sr, job.uid)
    ensures api.svc.crossNamespace(sr.spec) ==> r.Refused?
    ensures GoesThrough(api.mode) && api.Unmeddled(|old(api.labels)|) ==> !r.Retry?
    ensures api.mode.Silent? && !old(api.down) ==> !r.Retry? && !api.down && api.world.Shown() == old(api.world).Shown()
  {
    hide Rely, IsRun, ModeInv, Inv, StillApproved, Wired, StdinInPlace;
    WiredNamespace(cfg, api.svc, sr.spec);
    if ExecutorNamespace(sr.spec, cfg.Namespace()) != cfg.Namespace() {
      return Refused;
    }
    api.WorldInv();
    ApprovedCopy(sr, api.world);
    FoundIsOurs(api.svc, api.world, sr.status.exec.jobName);
    var stdin := EnsureStdinSecret(api, sr, job.uid);
    return if stdin.Done? then Ready(job) else if stdin.Rejected? then Refused else Retry;
  }

  predicate BeingDeleted(w: World, name: string) {
    name in w.jobs && w.jobs[name].terminating
  }

  lemma SeenSince(run: seq<World>, from: nat, later: nat, sr: Request, owner: Uid)
    requires from <= later
    ensures StdinInPlace(run, later, sr, owner) ==> StdinInPlace(run, from, sr, owner)
  {
  }

  method CreateRendered(cfg: Config, api: ApiServer, sr: Request, spec: JobSpec) returns (r: Outcome, job: Job)
    requires api.Valid() && Wired(cfg, api.svc) && !api.mode.SidecarHeld? && StillApproved(sr, api.world)
    requires !sr.status.playbook.autoApproved && sr.status.exec.jobName != "" && sr.status.exec.jobUid.None?
    requires api.svc.crossNamespace(sr.spec) ==> sr.finalizer
    requires api.svc.jobFor(sr, sr.status.exec.jobName) == Some(spec) && MayMount(cfg, api, sr)
    modifies api
    ensures api.Valid() && old(api.run) <= api.run && old(api.labels) <= api.labels && api.cached == old(api.cached)
    ensures StillApproved(sr, api.world)
    ensures r.Done? ==> job.spec == spec && job.uid in api.world.trail.ours
    ensures GoesThrough(api.mode) && api.Unmeddled(|old(api.labels)|) && sr.status.exec.jobName !in old(api.world).jobs ==>
              r.Done? || r.Rejected?
    ensures api.mode.Silent? && !old(api.down) ==> !api.down && api.world.Shown() == old(api.world).Shown() && !r.Lost?
    ensures api.mode.Silent? && !old(api.down) && sr.status.exec.jobName !in old(api.world).jobs ==> r.Done? || r.Rejected?
  {
    hide Rely, IsRun, ModeInv, Inv, StillApproved, Wired, AfterEffect, EffectEnabled;
    MayCreate(cfg, api.svc, api.world, sr, spec);
    ghost var wrote, before;
    r, job, wrote, before := api.CreateExecutorJob(sr.status.exec.jobName, spec);
    ApprovalLasts(api.svc, sr, old(api.world), before);
    if wrote {
      CreationKeepsApproval(sr, before, job);
    }
  }

  /** A Job without API rights is not handed any by a Secret it refers to. */
  predicate MayMount(cfg: Config, api: ApiServer, sr: Request)
    reads api
  {
    !api.unfit || (sr.spec.clusterAdmin != Some(false) && (sr.spec.namespace == "" || sr.spec.namespace == cfg.Namespace()))
  }

  /** Whatever else happens, such a Secret stops the Job of a request without API rights. */
  method ScreenFor(cfg: Config, api: ApiServer, sr: Request) returns (r: Outcome)
    requires api.Valid() && StillApproved(sr, api.world)
    modifies api
    ensures api.Valid() && old(api.run) <= api.run && old(api.labels) <= api.labels && api.cached == old(api.cached)
    ensures StillApproved(sr, api.world) && api.LeftAlone(|old(api.labels)|, old(api.world))
    ensures r.Done? || r.Rejected? || r.Lost?
    ensures ClusterAdminEnabled(sr.spec, cfg.Namespace()) ==> r.Done?
    ensures r.Done? ==> MayMount(cfg, api, sr)
    ensures r.Rejected? ==> api.unfit && !MayMount(cfg, api, sr)
    ensures GoesThrough(api.mode) ==> !r.Lost?
    ensures api.mode.Silent? ==>
              api.world == old(api.world) && (r.Done? <==> old(MayMount(cfg, api, sr)))
  {
    hide Rely, Reach, IsRun, ModeInv, Inv, StillApproved;
    if ClusterAdminEnabled(sr.spec, cfg.Namespace()) {
      return Done;
    }
    r := api.ScreenSecrets();
    ApprovalLasts(api.svc, sr, old(api.world), api.world);
  }

  /** Screens, renders and creates; a Job whose stdin cannot be put in place is rolled back. */
  method CreateJobAndStdin(cfg: Config, api: ApiServer, sr: Request) returns (r: Adoption)
    requires api.Valid() && Wired(cfg, api.svc) && !api.mode.SidecarHeld? && StillApproved(sr, api.world)
    requires !sr.status.playbook.autoApproved && sr.status.exec.jobName != "" && sr.status.exec.jobUid.None?
    requires api.svc.crossNamespace(sr.spec) ==> sr.finalizer
    requires api.svc.accepted(sr.spec)
    modifies api
    ensures api.Valid() && old(api.run) <= api.run && old(api.labels) <= api.labels && api.cached == old(api.cached)
    ensures StillApproved(sr, api.world)
    ensures r.Ready? ==> r.job.uid in api.world.trail.ours && StdinInPlace(api.run, |old(api.run)| - 1, sr, r.job.uid)
    ensures GoesThrough(api.mode) && api.Unmeddled(|old(api.labels)|) && sr.status.exec.jobName !in old(api.world).jobs ==>
              !r.Retry?
    ensures api.mode.Silent? && !old(MayMount(cfg, api, sr)) ==> r.Refused? && api.world == old(api.world)
    ensures api.mode.Silent? && !old(api.down) && sr.status.exec.jobName !in old(api.world).jobs ==>
              !r.Retry? && !api.down && api.world.Shown() == old(api.world).Shown()
  {
    hide Rely, Reach, IsRun, ModeInv, Inv, Doable, StillApproved, Wired, AfterEffect, EffectEnabled;
    hide JobFor, StdinInPlace, DecodePodExtras, MayMount;
    AcceptedRenders(cfg, api.svc, sr, sr.status.exec.jobName);
    var extras := DecodePodExtras(cfg.lib, sr.spec);
    var screened := ScreenFor(cfg, api, sr);
    if !screened.Done? {
      return if screened.Rejected? then Refused else Retry;
    }
    ghost var from := |api.run| - 1;
    r := CreateScreened(cfg, api, sr, extras.value);
    if r.Ready? {
      SeenSince(api.run, |old(api.run)| - 1, from, sr, r.job.uid);
    }
  }

  method CreateScreened(cfg: Config, api: ApiServer, sr: Request, extras: PodExtras) returns (r: Adoption)
    requires api.Valid() && Wired(cfg, api.svc) && !api.mode.SidecarHeld? && StillApproved(sr, api.world)
    requires !sr.status.playbook.autoApproved && sr.status.exec.jobName != "" && sr.status.exec.jobUid.None?
    requires api.svc.crossNamespace(sr.spec) ==> sr.finalizer
    requires api.svc.accepted(sr.spec) && DecodePodExtras(cfg.lib, sr.spec) == Some(extras) && MayMount(cfg, api, sr)
    modifies api
    ensures api.Valid() && old(api.run) <= api.run && old(api.labels) <= api.labels && api.cached == old(api.cached)
    ensures StillApproved(sr, api.world)
    ensures r.Ready? ==> r.job.uid in api.world.trail.ours && StdinInPlace(api.run, |old(api.run)| - 1, sr, r.job.uid)
    ensures GoesThrough(api.mode) && api.Unmeddled(|old(api.labels)|) && sr.status.exec.jobName !in old(api.world).jobs ==>
              !r.Retry?
    ensures api.mode.Silent? && !old(api.down) && sr.status.exec.jobName !in old(api.world).jobs ==>
              !r.Retry? && !api.down && api.world.Shown() == old(api.world).Shown()
  {
    hide Rely, Reach, IsRun, ModeInv, Inv, Doable, StillApproved, Wired, AfterEffect, EffectEnabled;
    hide JobFor, StdinInPlace, DecodePodExtras, MayMount;
    var name := sr.status.exec.jobName;
    AcceptedRenders(cfg, api.svc, sr, name);
    var spec := BuildExecutorJob(cfg, sr, extras, name);
    var created, job := CreateRendered(cfg, api, sr, spec);
    if !created.Done? {
      return if created.Rejected? then Refused else Retry;
    }
    ghost var from := |api.run| - 1;
    r := PutStdinOrRollBack(api, sr, job);
    SeenSince(api.run, |old(api.run)| - 1, from, sr, job.uid);
  }

  method PutStdinOrRollBack(api: ApiServer, sr: Request, job: Job) returns (r: Adoption)
    requires api.Valid() && !api.mode.SidecarHeld? && StillApproved(sr, api.world) && job.uid in api.world.trail.ours
    modifies api
    ensures api.Valid() && old(api.run) <= api.run && old(api.labels) <= api.labels && api.cached == old(api.cached)
    ensures StillApproved(sr, api.world)
    ensures r.Ready? ==>
              r.job == job && job.uid in api.world.trail.ours && StdinInPlace(api.run, |old(api.run)| - 1, sr, job.uid)
    ensures GoesThrough(api.mode) && !r.Ready? ==> sr.status.exec.jobName !in api.world.jobs
    ensures GoesThrough(api.mode) && api.Unmeddled(|old(api.labels)|) ==> !r.Retry?
    ensures api.mode.Silent? && !old(api.down) ==> !r.Retry? && !api.down && api.world.Shown() == old(api.world).Shown()
  {
    hide Rely, IsRun, ModeInv, Inv, Doable, StillApproved, StdinInPlace;
    var stdin := EnsureStdinSecret(api, sr, job.uid);
    if !stdin.Done? {
      var rolledBack := StopJobOf(api, sr);
      return if rolledBack && stdin.Rejected? then Refused else Retry;
    }
    return Ready(job);
  }

  // ----- executorStartTimedOut -----

  /** By some clock read since, a pod listed since, if there was one, showed no started executor in time. */
  ghost predicate SeenUnstarted(run: seq<World>, from: nat, name: string, job: Job) {
    exists i, j :: from <= i <= j < |run| && NeverStarted(run[j].now, job, JobPod(run[i], name, job.uid))
  }

  /** Found(b): by the clock just read, the pod listed a moment ago has, or has not, failed to show a started
      executor within ten minutes of the opening of its window. */
  method ExecutorStartTimedOut(api: ApiServer, name: string, job: Job) returns (r: Answer<bool>, ghost at: nat)
    requires api.Valid()
    modifies api
    ensures api.Valid() && old(api.run) <= api.run && old(api.labels) <= api.labels && api.cached == old(api.cached)
    ensures Rely(api.svc, old(api.world), api.world) && api.Quiet(|old(api.labels)|, |api.labels|)
    ensures |old(api.run)| - 1 <= at < |api.run|
    ensures r.Found? ==> (r.value <==> NeverStarted(api.world.now, job, JobPod(api.run[at], name, job.uid)))
    ensures !r.Absent?
    ensures api.mode.Silent? ==> api.world == old(api.world) == api.run[at]
    ensures GoesThrough(api.mode) ==> r.Found?
    ensures api.Unmeddled(|old(api.labels)|) ==> SameExecutor(old(api.world), api.run[at])
  {
    hide Rely, IsRun, ModeInv, KeptOpen, JobPod, WaitStart, NeverStarted;
    var got := GetJobPod(api, name, job.uid);
    at := |api.run| - 1;
    ghost var listed := api.world;
    var now := api.Clock(Controller);
    RelyTransitive(api.svc, old(api.world), listed, api.world);
    if got.Unavailable? {
      return Unavailable, at;
    }
    OverdueExactlyWhen(now, job, JobPod(listed, name, job.uid));
    if got.Absent? {
      return Found(now - job.createdAt > EXECUTOR_START_DEADLINE * SECOND), at;
    }
    if ExecutorStarted(got.value) {
      return Found(false), at;
    }
    var start := ExecutorWaitStart(got.value, job.createdAt);
    return Found(now - start > EXECUTOR_START_DEADLINE * SECOND), at;
  }

  // ----- captureJobOutput -----

  function WithoutDashes(s: string): string {
    if s == "" then "" else (if s[0] == '-' then "" else [s[0]]) + WithoutDashes(s[1..])
  }

  function OutputSecretName(cfg: Config, sr: Request): string {
    var text := WithoutDashes(cfg.lib.uidText(sr.uid));
    "sudo-out-" + (if |text| > 12 then text[..12] else text)
  }

  lemma {:induction false} DashesGo(s: string)
    ensures forall c :: c in WithoutDashes(s) <==> c in s && c != '-'
    ensures |WithoutDashes(s)| == |s| - multiset(s)['-']
  {
    if s != "" {
      assert s == [s[0]] + s[1..];
      DashesGo(s[1..]);
    }
  }

  /** Twelve characters of the request's UID, or all there are, without its dashes. */
  lemma OutputSecretNameIs(cfg: Config, sr: Request)
    ensures
      var name, text := OutputSecretName(cfg, sr), WithoutDashes(cfg.lib.uidText(sr.uid));
      "sudo-out-" <= name && name[9..] <= text && (|name| == 21 || name[9..] == text) && |name| <= 21
  {
  }

  function LogOutput(svc: Service, text: string): Output {
    NO_OUTPUT.(capture := if |text| > MAX_OUTPUT_BYTES then CaptureTruncated else CaptureComplete,
               totalBytes := Some(|text|), retainedBytes := Some(|Retained(text)|), sha256 := svc.sha256(text))
  }

  /** How a known exit is reported when its log, or the Secret to keep it in, cannot be had. */
  function LogLost(reason: string): Output {
    NO_OUTPUT.(capture := CaptureFailed, failureReason := reason)
  }

  /** The container the pod was seen to report, and the Job's hold on it. */
  ghost predicate Reported(mode: Mode, w: World, uid: Uid, container: string, code: int) {
    && ExitFact(uid, container, code) in w.trail.exits
    && (mode.SidecarHeld? ==> code == mode.code)
  }

  /** The pod shows a container to report. */
  predicate Reportable(w: World, name: string, uid: Uid) {
    var pod := JobPod(w, name, uid);
    pod.Some? && ContainerToReport(pod.value).Some?
  }

  function ReportedCode(w: World, name: string, uid: Uid): int
    requires Reportable(w, name, uid)
  {
    ContainerToReport(JobPod(w, name, uid).value).value.1
  }

  lemma ReportedLater(mode: Mode, w: World, w': World, uid: Uid, container: string, code: int)
    requires Reported(mode, w, uid, container, code) && Reach(w, w')
    ensures Reported(mode, w', uid, container, code)
  {
  }

  lemma PodReports(svc: Service, mode: Mode, w: World, sr: Request, uid: Uid)
    requires Inv(svc, w) && ModeInv(mode, w) && StillApproved(sr, w)
    requires mode.SidecarHeld? ==> uid == mode.uid && HeldOpen(w, mode.uid, mode.code)
    requires Reportable(w, sr.status.exec.jobName, uid)
    ensures
      var report := ContainerToReport(JobPod(w, sr.status.exec.jobName, uid).value).value;
      Reported(mode, w, uid, report.0, report.1)
  {
    hide Inv, ContainerToReport, JobPod;
    var name := sr.status.exec.jobName;
    JobPodIsTheJobs(w, name, uid);
    var pod := JobPod(w, name, uid).value;
    ReportIsShown(w.pods, pod);
    ListedIsOnTrail(svc, w, ExitFact(uid, ContainerToReport(pod).value.0, ContainerToReport(pod).value.1));
  }

  lemma ListedIsOnTrail(svc: Service, w: World, f: ExitFact)
    requires Inv(svc, w) && f in ExitsOf(w.pods)
    ensures f in w.trail.exits
  {
    hide ObjectInv, JobInv, ExecInv, ResultInv, LinkInv, GateInv, TrailInv, SecretInv;
  }

  lemma LostLogIsStorable(svc: Service, mode: Mode, w: World, sr: Request, container: string, code: int, output: Output)
    requires sr.status.exec.jobUid.Some? && !sr.status.playbook.autoApproved
    requires Reported(mode, w, sr.status.exec.jobUid.value, container, code) && output.capture == CaptureFailed
    ensures Storable(svc, mode, w, sr, code, output)
  {
    var uid := sr.status.exec.jobUid.value;
    assert ResultOf(svc, ExitFact(uid, container, code), w.trail.logs, uid, code, output);
  }

  lemma LogIsStorable(svc: Service, mode: Mode, w: World, sr: Request, container: string, code: int, text: string, output: Output)
    requires sr.status.exec.jobUid.Some? && !sr.status.playbook.autoApproved
    requires Reported(mode, w, sr.status.exec.jobUid.value, container, code)
    requires LogFact(sr.status.exec.jobUid.value, container, text) in w.trail.logs && Describes(svc, output, text)
    ensures Storable(svc, mode, w, sr, code, output)
  {
  }

  lemma SamePodsSamePod(w: World, w': World, name: string, uid: Uid)
    ensures w'.pods == w.pods ==> JobPod(w', name, uid) == JobPod(w, name, uid)
  {
  }

  /** Captured yields a result that may be stored: exit code and log of one container of the Job's own
      pod. While the Job is unfinished, the log is never given up on: a failure to read it, or to keep
      it, yields nothing to store. */
  method CaptureJobOutput(cfg: Config, api: ApiServer, sr: Request, job: Job) returns (r: Capture)
    requires api.Valid() && StillApproved(sr, api.world) && api.svc.sha256 == cfg.lib.sha256
    requires !sr.status.playbook.autoApproved && sr.status.exec.jobUid == Some(job.uid)
    requires api.mode.SidecarHeld? ==> HeldOpen(api.world, api.mode.uid, api.mode.code) && api.mode.uid == job.uid
    modifies api
    ensures api.Valid() && old(api.run) <= api.run && old(api.labels) <= api.labels && api.cached == old(api.cached)
    ensures StillApproved(sr, api.world)
    ensures NameQuiet(old(api.world), sr.status.exec.jobName) ==> NameQuiet(api.world, sr.status.exec.jobName)
    ensures r.Captured? ==> Storable(api.svc, api.mode, api.world, sr, r.code, r.output)
    ensures r.Captured? && !job.finished ==>
              && r.output.delivery == DeliveryAvailable && r.output.secretRef == OutputSecretName(cfg, sr)
              && r.output.capture != CaptureFailed
    ensures api.mode.Silent? && !old(api.down) ==>
              !api.down && api.world.Shown() == old(api.world).Shown() && api.world.jobs == old(api.world).jobs
    ensures GoesThrough(api.mode) && api.Unmeddled(|old(api.labels)|) && Reportable(old(api.world), sr.status.exec.jobName, job.uid)
            ==> r.Captured?
    ensures api.mode.Silent? && !old(api.down) ==>
              && (r.Captured? <==> Reportable(old(api.world), sr.status.exec.jobName, job.uid))
              && (r.Captured? ==> r.code == ReportedCode(old(api.world), sr.status.exec.jobName, job.uid))
  {
    hide Rely, IsRun, ModeInv, Inv, StillApproved, Doable, Storable, JobPod, HeldOpen, ContainerToReport, Reported, NameQuiet;
    var name := sr.status.exec.jobName;
    api.WorldInv();
    var got := GetJobPod(api, name, job.uid);
    ghost var w := api.world;
    ApprovalLasts(api.svc, sr, old(api.world), w);
    NameStaysQuiet(api.svc, old(api.world), w, name);
    SamePodsSamePod(old(api.world), w, name, job.uid);
    if !got.Found? || ContainerToReport(got.value).None? {
      return Uncaptured;
    }
    var pod := got.value;
    var container, code := ContainerToReport(pod).value.0, ContainerToReport(pod).value.1;
    assert Reported(api.mode, w, job.uid, container, code) by {
      api.WorldInv();
      PodReports(api.svc, api.mode, w, sr, job.uid);
    }
    JobPodIsTheJobs(w, name, job.uid);
    r := CaptureLog(cfg, api, sr, job, pod, container, code);
  }

  method CaptureLog(cfg: Config, api: ApiServer, sr: Request, job: Job, pod: Pod, container: string, code: int) returns (r: Capture)
    requires api.Valid() && StillApproved(sr, api.world) && api.svc.sha256 == cfg.lib.sha256
    requires !sr.status.playbook.autoApproved && sr.status.exec.jobUid == Some(job.uid)
    requires Reported(api.mode, api.world, job.uid, container, code) && pod.owner == job.uid
    modifies api
    ensures api.Valid() && old(api.run) <= api.run && old(api.labels) <= api.labels && api.cached == old(api.cached)
    ensures StillApproved(sr, api.world)
    ensures NameQuiet(old(api.world), sr.status.exec.jobName) ==> NameQuiet(api.world, sr.status.exec.jobName)
    ensures r.Captured? ==> r.code == code && Storable(api.svc, api.mode, api.world, sr, code, r.output)
    ensures r.Captured? && !job.finished ==>
              && r.output.delivery == DeliveryAvailable && r.output.secretRef == OutputSecretName(cfg, sr)
              && r.output.capture != CaptureFailed
    ensures GoesThrough(api.mode) && api.Unmeddled(|old(api.labels)|) && pod in old(api.world).pods ==> r.Captured?
    ensures api.mode.Silent? && !old(api.down) ==>
              !api.down && api.world.Shown() == old(api.world).Shown() && api.world.jobs == old(api.world).jobs
              && (pod in old(api.world).pods ==> r.Captured?)
  {
    hide Rely, Reach, IsRun, ModeInv, Inv, StillApproved, Doable, Storable, Reported, NameQuiet;
    api.WorldInv();
    var logs := api.ReadLogs(pod, container);
    ghost var w := api.world;
    ApprovalLasts(api.svc, sr, old(api.world), w);
    NameStaysQuiet(api.svc, old(api.world), w, sr.status.exec.jobName);
    RelyIsReach(api.svc, old(api.world), w);
    ReportedLater(api.mode, old(api.world), w, job.uid, container, code);
    if !logs.Found? {
      if !job.finished {
        return Uncaptured;
      }
      r := Captured(code, LogLost("fetch logs"));
      LostLogIsStorable(api.svc, api.mode, w, sr, container, code, r.output);
      return;
    }
    r := StoreLog(cfg, api, sr, job, container, code, logs.value);
  }

  /** The log's Secret first; a Job still unfinished waits for it. */
  method StoreLog(cfg: Config, api: ApiServer, sr: Request, job: Job, container: string, code: int, text: string) returns (r: Capture)
    requires api.Valid() && StillApproved(sr, api.world) && api.svc.sha256 == cfg.lib.sha256
    requires !sr.status.playbook.autoApproved && sr.status.exec.jobUid == Some(job.uid)
    requires Reported(api.mode, api.world, job.uid, container, code) && LogFact(job.uid, container, text) in api.world.trail.logs
    modifies api
    ensures api.Valid() && old(api.run) <= api.run && old(api.labels) <= api.labels && api.cached == old(api.cached)
    ensures StillApproved(sr, api.world)
    ensures NameQuiet(old(api.world), sr.status.exec.jobName) ==> NameQuiet(api.world, sr.status.exec.jobName)
    ensures r.Captured? ==> r.code == code && Storable(api.svc, api.mode, api.world, sr, code, r.output)
    ensures r.Captured? && !job.finished ==>
              && r.output.delivery == DeliveryAvailable && r.output.secretRef == OutputSecretName(cfg, sr)
              && r.output.capture != CaptureFailed
    ensures GoesThrough(api.mode) ==> r.Captured?
    ensures r.Captured? ==> Describes(api.svc, r.output, text)
    ensures r.Captured? && r.output.delivery == DeliveryAvailable ==> r.output.secretRef == OutputSecretName(cfg, sr)
    ensures api.mode.Silent? ==>
              var secret, kept := OutputSecretName(cfg, sr), LogFact(job.uid, container, text);
              && secret in api.world.outputs && r.output.delivery == DeliveryAvailable
              && api.world.outputs[secret] == if secret in old(api.world).outputs then old(api.world).outputs[secret] else kept
    ensures api.mode.Silent? && !old(api.down) ==>
              !api.down && api.world.Shown() == old(api.world).Shown() && api.world.jobs == old(api.world).jobs && r.Captured?
  {
    hide Rely, Reach, IsRun, ModeInv, Inv, StillApproved, Doable, Storable, Reported, NameQuiet;
    var output := LogOutput(api.svc, text);
    var secret := OutputSecretName(cfg, sr);
    var fact := LogFact(job.uid, container, text);
    MayPutOutput(api.svc, api.mode, api.world, sr, secret, fact);
    api.WorldInv();
    ghost var w := api.world;
    var put, wrote, before := DoFor(api, sr, PutOutput(secret, fact));
    NameStaysQuiet(api.svc, w, before, sr.status.exec.jobName);
    PutOutputKeepsRest(before, secret, fact, sr.status.exec.jobName);
    if put.Done? || put.Exists? {
      output := output.(secretRef := secret, delivery := DeliveryAvailable);
    } else if !job.finished {
      return Uncaptured;
    } else {
      output := output.(delivery := DeliveryFailed, failureReason := "create output secret");
    }
    r := Captured(code, output);
    assert Storable(api.svc, api.mode, api.world, sr, code, output) by {
      RelyIsReach(api.svc, w, before);
      ReportedLater(api.mode, w, before, job.uid, container, code);
      LogIsStorable(api.svc, api.mode, api.world, sr, container, code, text, output);
    }
  }

  lemma RelyIsReach(svc: Service, w: World, w': World)
    requires Rely(svc, w, w')
    ensures Reach(w, w') && Subset(w.trail.logs, w'.trail.logs)
  {
  }

  lemma PutOutputKeepsRest(w: World, name: string, fact: LogFact, job: string)
    ensures AfterEffect(w, PutOutput(name, fact)).trail == w.trail
    ensures NameQuiet(w, job) ==> NameQuiet(AfterEffect(w, PutOutput(name, fact)), job)
  {
  }
}
