/** The reconciler (reconciler.go): one state machine per request, driven against the apiserver. Every
    method keeps the run lawful, so whatever holds of all runs holds of what these methods do, however
    their calls fail, wherever they die, and whatever others do in between. */
module Reconciler {
  import opened Prelude
  import opened SudoTypes
  import opened Lifecycle
  import opened Invariants
  import opened Stability
  import opened Api
  import opened Executor
  import opened Outcomes
  import opened Pods
  import opened Progress
  import opened Reviewing
  import Profiles
  import Runs
  import opened Playbooks
  import opened PodBuild
  import opened Validation
  import opened Wiring
  import opened Writes

  class SudoRequestReconciler {
    const cfg: Config
    const api: ApiServer

    constructor (cfg: Config, api: ApiServer)
      ensures this.cfg == cfg && this.api == api
    {
      this.cfg, this.api := cfg, api;
    }

    // ----- updateStatus -----

    /** One round of the conflict loop: refetch uncached, apply the mutator, try to store. */
    method RefetchAndStore(m: Mutation) returns (r: Outcome, stored: Option<Request>, ghost wrote: bool, ghost before: World)
      requires api.Valid() && Writable(api.svc, api.mode, api.world, m)
      requires Mints(Write(NoEdit, m)) ==> api.CachePastNew()
      modifies api
      ensures api.Valid() && old(api.run) <= api.run && old(api.labels) <= api.labels && api.cached == old(api.cached)
      ensures Rely(api.svc, old(api.world), before)
      ensures wrote ==> !before.gone && api.world == AfterWrite(before, NoEdit, m)
      ensures !wrote ==> api.world == before
      ensures if wrote then api.ActedOnce(|old(api.labels)|, Write(NoEdit, m)) else api.Quiet(|old(api.labels)|, |api.labels|)
      ensures r.Done? ==> wrote && stored.Some? && api.world.Shown() == stored && !api.down
      ensures r.Done? ==> stored.value == Stored(before.last, NoEdit, m)
      ensures r.Conflict? ==> !wrote && !api.down
      ensures GoesThrough(api.mode) ==>
                if r.Conflict? then WritesLeft(api.world.last) < WritesLeft(old(api.world).last) else r.Done? || api.world.gone
    {
      hide Rely, AfterWrite, IsRun, Enabled, MayWrite, ModeInv, Inv, Writable, WritableCopy, Mutate, Edited;
      stored, wrote := None, false;
      var got := api.GetRequest();
      before := api.world;
      if !got.Found? {
        return if got.Absent? then Missing else Lost, stored, wrote, before;
      }
      ghost var w := api.world;
      WritableLater(api.svc, api.mode, old(api.world), w, m);
      AnyMayBeStored(api.svc, api.mode, w, got.value, m);
      CopyMayBeStored(api.svc, api.mode, w, got.value, NoEdit, m);
      r, wrote, before := api.Update(Controller, got.value, Write(NoEdit, m), |api.run| - 1);
      if wrote {
        StoredIs(before, NoEdit, m);
      }
      RelyTransitive(api.svc, old(api.world), w, before);
      if r.Conflict? {
        ConflictIsSpent(api.svc, old(api.world), w, before);
      }
      stored := Some(Stored(got.value, NoEdit, m));
    }

    /** updateStatus is one atomic read-modify-write of the stored status. When it succeeds, the reconciler
        has taken exactly one step, that step stored one application of the mutator to the status stored
        just before it, and `stored` is the result. The caller's own edits survive only if the first try
        did; when it fails, at most one such step was taken. With calls that go through it cannot fail while the
        object is there: the retries outnumber the writes others have left. */
    method UpdateStatus(sr: Request, e: Edit, m: Mutation, ghost seen: nat)
      returns (r: Outcome, stored: Request, ghost used: Edit, ghost wrote: bool, ghost before: World)
      requires api.Valid() && seen < |api.run| && api.run[seen].Shown() == Some(sr)
      requires Writable(api.svc, api.mode, api.world, m) && WritableCopy(api.svc, api.mode, api.world, sr, e, m)
      requires Mints(Write(e, m)) ==> api.CachePastNew()
      modifies api
      ensures api.Valid() && old(api.run) <= api.run && old(api.labels) <= api.labels && api.cached == old(api.cached)
      ensures Rely(api.svc, old(api.world), before)
      ensures used == NoEdit || (used == e && (wrote ==> before.Shown() == Some(sr)))
      ensures wrote ==> !before.gone && api.world == AfterWrite(before, used, m)
      ensures !wrote ==> api.world == before
      ensures if wrote then api.ActedOnce(|old(api.labels)|, Write(used, m)) else api.Quiet(|old(api.labels)|, |api.labels|)
      ensures r.Done? ==> wrote && api.world.Shown() == Some(stored) && !api.down
      ensures r.Done? ==> stored == Stored(before.last, used, m)
      ensures api.mode.Silent? && !old(api.down) && old(api.world).Shown() == Some(sr) ==>
                r.Done? && before == old(api.world) && used == e
      ensures GoesThrough(api.mode) ==> r.Done? || api.world.gone
    {
      hide Rely, AfterWrite, IsRun, Enabled, MayWrite, ModeInv, Inv, Writable, WritableCopy, Mutate, Edited;
      CopyMayBeStored(api.svc, api.mode, api.world, sr, e, m);
      r, wrote, before := api.Update(Controller, sr, Write(e, m), seen);
      if wrote {
        StoredIs(before, e, m);
      }
      stored, used := Stored(sr, e, m), e;
      if !r.Conflict? {
        return;
      }
      var latest;
      ghost var w := before;
      WritableLater(api.svc, api.mode, old(api.world), w, m);
      r, latest, wrote, before := StoreRetrying(m);
      used := NoEdit;
      RelyTransitive(api.svc, old(api.world), w, before);
      stored := if latest.Some? then latest.value else stored;
    }

    /** The conflict loop. */
    method StoreRetrying(m: Mutation) returns (r: Outcome, stored: Option<Request>, ghost wrote: bool, ghost before: World)
      requires api.Valid() && Writable(api.svc, api.mode, api.world, m)
      requires Mints(Write(NoEdit, m)) ==> api.CachePastNew()
      modifies api
      ensures api.Valid() && old(api.run) <= api.run && old(api.labels) <= api.labels && api.cached == old(api.cached)
      ensures Rely(api.svc, old(api.world), before)
      ensures wrote ==> !before.gone && api.world == AfterWrite(before, NoEdit, m)
      ensures !wrote ==> api.world == before
      ensures if wrote then api.ActedOnce(|old(api.labels)|, Write(NoEdit, m)) else api.Quiet(|old(api.labels)|, |api.labels|)
      ensures r.Done? ==> wrote && stored.Some? && api.world.Shown() == stored && !api.down
      ensures r.Done? ==> stored.value == Stored(before.last, NoEdit, m)
      ensures GoesThrough(api.mode) ==> r.Done? || api.world.gone
    {
      hide Rely, AfterWrite, IsRun, Enabled, MayWrite, ModeInv, Inv, Writable, WritableCopy, Mutate, Edited, WritesLeft;
      r, stored, wrote, before := Conflict, None, false, api.world;
      RelyReflexive(api.svc, api.world);
      WritesAreFew(api.world.last);
      var attempt := 0;
      while attempt < CONFLICT_RETRIES && r.Conflict?
        invariant api.Valid() && old(api.run) <= api.run && old(api.labels) <= api.labels && api.cached == old(api.cached)
        invariant Rely(api.svc, old(api.world), before)
        invariant wrote ==> !before.gone && api.world == AfterWrite(before, NoEdit, m)
        invariant !wrote ==> api.world == before
        invariant if wrote then api.ActedOnce(|old(api.labels)|, Write(NoEdit, m)) else api.Quiet(|old(api.labels)|, |api.labels|)
        invariant r.Conflict? ==> !wrote
        invariant r.Done? ==> wrote && stored.Some? && api.world.Shown() == stored && !api.down
        invariant r.Done? ==> stored.value == Stored(before.last, NoEdit, m)
        invariant GoesThrough(api.mode) ==>
                    if r.Conflict? then WritesLeft(api.world.last) + attempt <= 3 else r.Done? || api.world.gone
      {
        ghost var w := api.world;
        WritableLater(api.svc, api.mode, old(api.world), w, m);
        r, stored, wrote, before := RefetchAndStore(m);
        RelyTransitive(api.svc, old(api.world), w, before);
        attempt := attempt + 1;
      }
    }

    // ----- Terminal writes -----

    method MarkFailed(sr: Request, reason: string, ghost seen: nat) returns (r: Reply)
      requires api.Valid() && seen < |api.run| && api.run[seen].Shown() == Some(sr)
      requires Writable(api.svc, api.mode, api.world, Exec(Fail(reason)))
      modifies api
      ensures api.Valid() && old(api.run) <= api.run && old(api.labels) <= api.labels
      ensures r.Nothing? || r.Failure?
      ensures r.Nothing? ==> Runs.PhaseOf(api.world) == Some(Failed) && api.world.last.status.failureReason == reason
      ensures GoesThrough(api.mode) ==> r.Nothing? || api.world.gone
      ensures api.mode.Silent? && !old(api.down) && old(api.world).Shown() == Some(sr) ==>
                r.Nothing? && api.world.jobs == old(api.world).jobs
    {
      hide Rely, AfterWrite, IsRun, ModeInv, Writable, WritableCopy;
      AnyMayBeStored(api.svc, api.mode, api.world, sr, Exec(Fail(reason)));
      var u, stored, used, wrote, before := UpdateStatus(sr, NoEdit, Exec(Fail(reason)), seen);
      if wrote {
        WritingLeavesJobs(before, used, Exec(Fail(reason)));
      }
      return if u.Done? then Nothing else Failure;
    }

    /** A Job of ours at the minted name is gone before the request is recorded as failed. */
    method FailApproved(sr: Request, reason: string, ghost seen: nat) returns (r: Reply)
      requires api.Valid() && seen < |api.run| && api.run[seen].Shown() == Some(sr)
      requires StillApproved(sr, api.world) && !api.mode.SidecarHeld?
      modifies api
      ensures api.Valid() && old(api.run) <= api.run && old(api.labels) <= api.labels
      ensures r.Nothing? || r.Failure?
      ensures r.Nothing? ==> Runs.PhaseOf(api.world) == Some(Failed) && api.world.last.status.failureReason == reason
      ensures GoesThrough(api.mode) ==> r.Nothing? || api.world.gone
      ensures api.mode.Silent? && !old(api.down) && old(api.world).Shown() == Some(sr) ==>
                r.Nothing? && (sr.status.exec.jobName != "" ==> sr.status.exec.jobName !in api.world.jobs)
    {
      hide Rely, IsRun, ModeInv, Inv, Writable, StillApproved, KeptOpen, Reach;
      var name := sr.status.exec.jobName;
      if name != "" {
        var job := api.GetJob(name);
        ApprovalLasts(api.svc, sr, old(api.world), api.world);
        if job.Unavailable? {
          return Failure;
        }
        if job.Found? {
          var stopped := StopJobOf(api, sr);
          if !stopped {
            return Failure;
          }
        }
      }
      api.WorldInv();
      MayFail(api.svc, api.mode, api.world, sr, reason);
      r := MarkFailed(sr, reason, seen);
    }

    /** The terminal write from a result in hand or on record: whichever path stores it, the same result
        fields are stored with the phase they call for. */
    method FinalizeFromRecordedResult(sr: Request, e: Edit, code: int, output: Output, ghost seen: nat)
      returns (r: Reply, ghost before: World)
      requires api.Valid() && seen < |api.run| && api.run[seen].Shown() == Some(sr)
      requires StillApproved(sr, api.world) && Storable(api.svc, api.mode, api.world, sr, code, output)
      requires NameQuiet(api.world, sr.status.exec.jobName)
      requires e == NoEdit || e == Result(code, output)
      modifies api
      ensures api.Valid() && old(api.run) <= api.run && old(api.labels) <= api.labels
      ensures r.Nothing? || r.Failure?
      ensures r.Nothing? ==> !before.gone && api.world.Shown() == Some(Stored(before.last, NoEdit, Exec(Finish(code, output))))
      ensures r.Nothing? ==> Concluded(api.world, code, output)
      ensures GoesThrough(api.mode) ==> r.Nothing? || api.world.gone
      ensures api.mode.Silent? && !old(api.down) && old(api.world).Shown() == Some(sr) ==>
                r.Nothing? && api.world.jobs == old(api.world).jobs
    {
      hide Rely, AfterWrite, IsRun, ModeInv, Inv, Writable, WritableCopy, StillApproved, Storable;
      var finish := Exec(Finish(code, output));
      api.WorldInv();
      MayFinish(api.svc, api.mode, api.world, sr, code, output);
      if e.NoEdit? {
        AnyMayBeStored(api.svc, api.mode, api.world, sr, finish);
      }
      var u, stored;
      ghost var used, wrote;
      u, stored, used, wrote, before := UpdateStatus(sr, e, finish, seen);
      if u.Done? {
        FinishAbsorbsResult(before.last.status, code, output);
      }
      if wrote {
        WritingLeavesJobs(before, used, finish);
      }
      r := if u.Done? then Nothing else Failure;
    }

    // ----- handleApproved -----

    /** A request whose names are minted but whose Job is not on record: create or pick up the Job, and
        record it; a Job that cannot be recorded is rolled back. */
    method RecordJob(sr: Request, ghost seen: nat) returns (r: Reply)
      requires api.Valid() && Wired(cfg, api.svc) && seen < |api.run| && api.run[seen].Shown() == Some(sr)
      requires StillApproved(sr, api.world) && !api.mode.SidecarHeld?
      requires !sr.status.playbook.autoApproved && sr.status.exec.jobName != "" && sr.status.exec.jobUid.None?
      requires api.svc.crossNamespace(sr.spec) ==> sr.finalizer
      requires api.svc.accepted(sr.spec)
      modifies api
      ensures api.Valid() && old(api.run) <= api.run && old(api.labels) <= api.labels
      ensures r.Nothing? ==> Runs.IsOver(api.world)
      ensures r.RequeueAfter? ==> !api.world.gone && api.world.last.status.exec.jobUid.Some?
      ensures GoesThrough(api.mode) && api.Unmeddled(|old(api.labels)|) && Ripe(old(api.world), sr) ==> Ahead(api.svc, sr, api.world)
      ensures api.mode.Silent? && !old(api.down) && old(api.world).Shown() == Some(sr)
              && Ripe(old(api.world), sr)
              ==> Advanced(api.svc, sr, api.world)
      ensures api.mode.Silent? && old(api.world).Shown() == Some(sr) && sr.status.exec.jobName !in old(api.world).jobs
              && !old(MayMount(cfg, api, sr))
              ==> r.Nothing? && Runs.PhaseOf(api.world) == Some(Failed) && sr.status.exec.jobName !in api.world.jobs
    {
      hide Rely, AfterWrite, IsRun, ModeInv, Inv, Writable, WritableCopy, StillApproved, Wired, StdinInPlace, Ripe;
      hide AfterEffect, BeingDeleted;
      ApprovedCopy(sr, api.world);
      RipeUnrecorded(api.world, sr);
      var found := FindOrCreateJob(cfg, api, sr);
      if found.Retry? {
        return Failure;
      }
      if found.Refused? {
        r := FailApproved(sr, "executor Job rejected", seen);
        return;
      }
      r := StoreUid(sr, found.job.uid, seen);
    }

    method StoreUid(sr: Request, uid: Uid, ghost seen: nat) returns (r: Reply)
      requires api.Valid() && seen < |api.run| && api.run[seen].Shown() == Some(sr)
      requires StillApproved(sr, api.world) && !api.mode.SidecarHeld? && uid in api.world.trail.ours
      requires !sr.status.playbook.autoApproved && sr.status.exec.jobName != "" && sr.status.exec.jobUid.None?
      modifies api
      ensures api.Valid() && old(api.run) <= api.run && old(api.labels) <= api.labels
      ensures r.RequeueAfter? || r.Failure?
      ensures r.RequeueAfter? ==> api.world.last.status.exec.jobUid.Some? && Advanced(api.svc, sr, api.world)
      ensures GoesThrough(api.mode) ==> r.RequeueAfter? || (api.world.gone && sr.status.exec.jobName !in api.world.jobs)
      ensures api.mode.Silent? && !old(api.down) && old(api.world).Shown() == Some(sr) ==>
                Advanced(api.svc, sr, api.world) && api.world.last.status.exec == sr.status.exec.(jobUid := Some(uid))
    {
      hide Rely, AfterWrite, IsRun, ModeInv, Inv, Writable, WritableCopy, StillApproved, AfterEffect, StepsLeft;
      ApprovedCopy(sr, api.world);
      var record := Exec(RecordUid(uid));
      MayRecord(api.svc, api.mode, api.world, sr, uid);
      AnyMayBeStored(api.svc, api.mode, api.world, sr, record);
      var u, stored, used, wrote, before := UpdateStatus(sr, NoEdit, record, seen);
      if !u.Done? {
        MayRollBack(api.svc, api.mode, api.world, sr.status.exec.jobName);
        ghost var w := api.world;
        var rolledBack, at := StopJob(api, sr.status.exec.jobName);
        StoppingReaches(api.svc, w, at, sr.status.exec.jobName);
        return Failure;
      }
      ApprovalLasts(api.svc, sr, old(api.world), before);
      RecordingAdvances(api.svc, sr, before, uid, api.world);
      return RequeueAfter(5 * SECOND);
    }

    /** The recorded Job is gone. A stored result finishes the request; without one the command may have
        run unseen, so the request fails rather than run it again. */
    method JobMissing(sr: Request, ghost seen: nat) returns (r: Reply)
      requires api.Valid() && seen < |api.run| && api.run[seen].Shown() == Some(sr)
      requires StillApproved(sr, api.world) && !sr.status.playbook.autoApproved
      requires sr.status.exec.jobUid.Some? && sr.status.exec.jobName !in api.world.jobs
      modifies api
      ensures api.Valid() && old(api.run) <= api.run && old(api.labels) <= api.labels
      ensures r.Nothing? || r.Failure?
      ensures r.Nothing? ==>
                if sr.status.exitCode.Some? && (sr.status.output.secretRef != "" || sr.status.output.capture != CaptureUnset)
                then Concluded(api.world, sr.status.exitCode.value, sr.status.output)
                else Runs.PhaseOf(api.world) == Some(Failed)
      ensures GoesThrough(api.mode) ==> r.Nothing? || api.world.gone
      ensures api.mode.Silent? && !old(api.down) && old(api.world).Shown() == Some(sr) ==> r.Nothing?
    {
      hide Rely, IsRun, ModeInv, Inv, StillApproved, Writable, Storable;
      api.WorldInv();
      var output := sr.status.output;
      if HasResult(sr.status) {
        Runs.RunInv(api.svc, api.run, api.labels, seen);
        api.SameVersion(seen);
        RecordedIsStorable(api.svc, api.mode, api.run[seen], api.world, sr);
        ghost var at;
        r, at := FinalizeFromRecordedResult(sr, NoEdit, sr.status.exitCode.value, output, seen);
        return;
      }
      TornDownHasResult(api.mode, api.world, sr);
      MayFail(api.svc, api.mode, api.world, sr, "executor Job disappeared");
      r := MarkFailed(sr, "executor Job disappeared", seen);
    }

    /** The executor has not finished: fail the request once its start deadline has passed. Nothing is done to a
        Job whose listed pod shows a started executor, in any environment. */
    method AwaitStart(sr: Request, job: Job, ghost seen: nat) returns (r: Reply)
      requires api.Valid() && seen < |api.run| && api.run[seen].Shown() == Some(sr)
      requires StillApproved(sr, api.world) && !api.mode.SidecarHeld?
      modifies api
      ensures api.Valid() && old(api.run) <= api.run && old(api.labels) <= api.labels
      ensures r.Nothing? ==> Runs.IsOver(api.world)
      ensures SeenUnstarted(api.run, |old(api.run)| - 1, sr.status.exec.jobName, job) || api.Quiet(|old(api.labels)|, |api.labels|)
      ensures r.Nothing? ==> SeenUnstarted(api.run, |old(api.run)| - 1, sr.status.exec.jobName, job)
      ensures GoesThrough(api.mode) && api.Unmeddled(|old(api.labels)|)
              && NeverStarted(old(api.world).now, job, JobPod(old(api.world), sr.status.exec.jobName, job.uid))
              ==> r.Nothing? || api.world.gone
      ensures api.mode.Silent? && old(api.world).Shown() == Some(sr) ==>
                if NeverStarted(old(api.world).now, job, JobPod(old(api.world), sr.status.exec.jobName, job.uid))
                then r.Nothing? else r == RequeueAfter(5_000_000_000) && api.world == old(api.world)
    {
      hide Rely, IsRun, ModeInv, Inv, StillApproved, JobPod, NeverStarted;
      var timedOut;
      ghost var at;
      timedOut, at := ExecutorStartTimedOut(api, sr.status.exec.jobName, job);
      ghost var read := |api.run| - 1;
      ApprovalLasts(api.svc, sr, old(api.world), api.world);
      SamePodsSamePod(old(api.world), api.run[at], sr.status.exec.jobName, job.uid);
      OverdueLater(api.svc, old(api.world), api.world, job, JobPod(api.run[at], sr.status.exec.jobName, job.uid));
      if timedOut.Unavailable? {
        return Failure;
      }
      if timedOut.value {
        r := FailApproved(sr, "executor pod did not start in time", seen);
        assert NeverStarted(api.run[read].now, job, JobPod(api.run[at], sr.status.exec.jobName, job.uid));
        return;
      }
      return RequeueAfter(5 * SECOND);
    }

    /** The Job has finished, or its executor has: collect the result, and while the Job is held open store
        it before tearing the Job down. */
    method Complete(sr: Request, job: Job, ghost seen: nat) returns (r: Reply)
      requires api.Valid() && Wired(cfg, api.svc) && seen < |api.run| && api.run[seen].Shown() == Some(sr)
      requires StillApproved(sr, api.world) && !sr.status.playbook.autoApproved && sr.status.exec.jobUid == Some(job.uid)
      requires if job.finished then NameQuiet(api.world, sr.status.exec.jobName) && !api.mode.SidecarHeld?
               else ExecutorDone(api.world, sr.status.exec.jobName, job.uid)
      requires api.mode.SidecarHeld? ==> HeldOpen(api.world, api.mode.uid, api.mode.code) && api.mode.uid == job.uid
      modifies api
      ensures api.Valid() && old(api.run) <= api.run && old(api.labels) <= api.labels
      ensures r.Nothing? ==> Runs.IsOver(api.world)
      ensures GoesThrough(api.mode) && (job.finished || api.Unmeddled(|old(api.labels)|)) ==> Ahead(api.svc, sr, api.world)
      ensures api.mode.Silent? && !old(api.down) && old(api.world).Shown() == Some(sr) ==>
                && Advanced(api.svc, sr, api.world)
                && (Reportable(old(api.world), sr.status.exec.jobName, job.uid) ==>
                      var s := api.world.last.status;
                      && s.exitCode == Some(ReportedCode(old(api.world), sr.status.exec.jobName, job.uid))
                      && (job.finished || sr.status.exitCode.Some? ==> Concluded(api.world, s.exitCode.value, s.output))
                      && (!job.finished && sr.status.exitCode.Some? ==> sr.status.exec.jobName !in api.world.jobs))
    {
      hide Rely, IsRun, ModeInv, Inv, StillApproved, JobPod, HeldOpen, Wired, Writable, Storable, AfterWrite, Mutate;
      hide AfterEffect, NameQuiet, ExecutorTerminated, ContainerToReport, GenuineResult, KeptOpen, Reportable, ReportedCode;
      ApprovedCopy(sr, api.world);
      assert api.svc.sha256 == cfg.lib.sha256 by { WiredDigest(cfg, api.svc); }
      if !job.finished {
        DoneIsReportable(api.world, sr.status.exec.jobName, job.uid);
      }
      var captured := CaptureJobOutput(cfg, api, sr, job);
      if captured.Uncaptured? {
        if !job.finished {
          return Failure;
        }
        api.WorldInv();
        MayFail(api.svc, api.mode, api.world, sr, "failed to determine executor result");
        r := MarkFailed(sr, "failed to determine executor result", seen);
        return;
      }
      var code, output := captured.code, captured.output;
      if !job.finished {
        if sr.status.exitCode.None? {
          r := StoreResult(sr, code, output, seen);
          return;
        }
        r := TearDown(sr, code, output, seen);
        return;
      }
      ghost var at;
      r, at := FinalizeFromRecordedResult(sr, Result(code, output), code, output, seen);
    }

    /** The second phase: with the result stored, the Job goes, and then the request is finished. */
    method TearDown(sr: Request, code: int, output: Output, ghost seen: nat) returns (r: Reply)
      requires api.Valid() && seen < |api.run| && api.run[seen].Shown() == Some(sr)
      requires StillApproved(sr, api.world) && Storable(api.svc, api.mode, api.world, sr, code, output)
      requires sr.status.exitCode.Some?
      modifies api
      ensures api.Valid() && old(api.run) <= api.run && old(api.labels) <= api.labels
      ensures r.Nothing? || r.Failure?
      ensures r.Nothing? ==> Concluded(api.world, code, output)
      ensures GoesThrough(api.mode) ==> r.Nothing? || api.world.gone
      ensures api.mode.Silent? && !old(api.down) && old(api.world).Shown() == Some(sr) ==>
                r.Nothing? && sr.status.exec.jobName !in api.world.jobs
    {
      hide Rely, IsRun, ModeInv, StillApproved, Storable, AfterWrite, AfterEffect, Mutate;
      var stopped := StopJobOf(api, sr);
      if !stopped {
        return Failure;
      }
      StorableLater(api.svc, api.mode, old(api.world), api.world, sr, code, output);
      ghost var at;
      r, at := FinalizeFromRecordedResult(sr, Result(code, output), code, output, seen);
    }

    /** The first phase of a teardown. */
    method StoreResult(sr: Request, code: int, output: Output, ghost seen: nat) returns (r: Reply)
      requires api.Valid() && seen < |api.run| && api.run[seen].Shown() == Some(sr)
      requires StillApproved(sr, api.world) && Storable(api.svc, api.mode, api.world, sr, code, output)
      requires sr.status.exitCode.None?
      modifies api
      ensures api.Valid() && old(api.run) <= api.run && old(api.labels) <= api.labels
      ensures r.Requeue? || r.Failure?
      ensures r.Requeue? ==>
                && Runs.PhaseOf(api.world) == Some(Approved)
                && api.world.last.status.exitCode == Some(code) && api.world.last.status.output == output
                && Advanced(api.svc, sr, api.world)
      ensures GoesThrough(api.mode) ==> r.Requeue? || api.world.gone
      ensures api.mode.Silent? && !old(api.down) && old(api.world).Shown() == Some(sr) ==>
                r.Requeue? && Advanced(api.svc, sr, api.world)
    {
      hide Rely, IsRun, ModeInv, Inv, StillApproved, Writable, WritableCopy, Storable, AfterWrite;
      ApprovedCopy(sr, api.world);
      var capture := Exec(Lifecycle.Capture(code, output));
      MayCapture(api.svc, api.mode, api.world, sr, code, output);
      AnyMayBeStored(api.svc, api.mode, api.world, sr, capture);
      var u, stored, used, wrote, before := UpdateStatus(sr, NoEdit, capture, seen);
      ApprovalLasts(api.svc, sr, old(api.world), before);
      if u.Done? {
        ApprovedNow(sr, before);
        CaptureAdvances(api.svc, sr, before, code, output, api.world);
      }
      r := if u.Done? then Requeue else Failure;
    }

    /** A request whose Job is on record. Its completion signal is the Job's own, or the executor's exit
        while a sidecar keeps the Job from finishing; then the result is stored before the Job is torn
        down, and only the request whose result is stored goes terminal. */
    method ObserveJob(sr: Request, ghost seen: nat) returns (r: Reply)
      requires api.Valid() && Wired(cfg, api.svc) && seen < |api.run| && api.run[seen].Shown() == Some(sr)
      requires StillApproved(sr, api.world)
      requires !sr.status.playbook.autoApproved && sr.status.exec.jobName != "" && sr.status.exec.jobUid.Some?
      modifies api
      ensures api.Valid() && old(api.run) <= api.run && old(api.labels) <= api.labels
      ensures r.Nothing? ==> Runs.IsOver(api.world)
      ensures GoesThrough(api.mode) && (JobOver(old(api.world), sr) || (api.Unmeddled(|old(api.labels)|) && Ripe(old(api.world), sr)))
              ==> Ahead(api.svc, sr, api.world)
      ensures api.mode.Silent? && old(api.world).Shown() == Some(sr) && IsRunning(old(api.world), sr) ==>
                r == RequeueAfter(5_000_000_000) && api.world == old(api.world)
      ensures api.mode.Silent? && !old(api.down) && old(api.world).Shown() == Some(sr) && Ripe(old(api.world), sr)
              ==> Advanced(api.svc, sr, api.world)
    {
      hide IsUp, Reach;
      hide Rely, IsRun, ModeInv, Inv, StillApproved, KeptOpen, JobPod, HeldOpen, Wired, Ripe, StepsLeft, WritesLeft, SameExecutor;
      var name, uid := sr.status.exec.jobName, sr.status.exec.jobUid.value;
      api.WorldInv();
      var got := api.GetJob(name);
      ApprovalLasts(api.svc, sr, old(api.world), api.world);
      JobStaysOver(api.svc, old(api.world), api.world, sr);
      StaysRipe(api.svc, old(api.world), api.world, sr);
      if got.Unavailable? {
        return Failure;
      }
      if got.Absent? {
        r := JobMissing(sr, seen);
        return;
      }
      var job := got.value;
      HeldJobIsTheJob(api.mode, api.world, sr);
      if job.uid != uid {
        r := FailApproved(sr, "executor Job was replaced by a different object", seen);
        return;
      }
      r := JobPresent(sr, job, seen);
    }

    method JobPresent(sr: Request, job: Job, ghost seen: nat) returns (r: Reply)
      requires api.Valid() && Wired(cfg, api.svc) && seen < |api.run| && api.run[seen].Shown() == Some(sr)
      requires StillApproved(sr, api.world) && !sr.status.playbook.autoApproved && sr.status.exec.jobUid == Some(job.uid)
      requires sr.status.exec.jobName in api.world.jobs && api.world.jobs[sr.status.exec.jobName] == job
      modifies api
      ensures api.Valid() && old(api.run) <= api.run && old(api.labels) <= api.labels
      ensures r.Nothing? ==> Runs.IsOver(api.world)
      ensures GoesThrough(api.mode) && (job.finished || (api.Unmeddled(|old(api.labels)|) && Ripe(old(api.world), sr)))
              ==> Ahead(api.svc, sr, api.world)
      ensures api.mode.Silent? && old(api.world).Shown() == Some(sr) && IsRunning(old(api.world), sr) ==>
                r == RequeueAfter(5_000_000_000) && api.world == old(api.world)
      ensures api.mode.Silent? && !old(api.down) && old(api.world).Shown() == Some(sr) && Ripe(old(api.world), sr)
              ==> Advanced(api.svc, sr, api.world)
    {
      hide Rely, IsRun, ModeInv, Inv, StillApproved, KeptOpen, JobPod, HeldOpen, Wired, ExecutorTerminated, StartOverdue, NeverStarted;
      hide IsUp, Reach, ApiServer.Quiet, Reportable, ReportedCode, Concluded, BeingDeleted, StepsLeft, WritesLeft;
      var name := sr.status.exec.jobName;
      api.WorldInv();
      HeldJobIsTheJob(api.mode, api.world, sr);
      var pod := GetJobPod(api, name, job.uid);
      ApprovalLasts(api.svc, sr, old(api.world), api.world);
      StaysRipe(api.svc, old(api.world), api.world, sr);
      OverdueExactlyWhen(api.world.now, job, JobPod(api.world, name, job.uid));
      if api.mode.Silent? && IsRunning(api.world, sr) {
        RunningIsNotOverdue(api.world, sr, job, api.world.now);
      }
      if pod.Unavailable? {
        return Failure;
      }
      HeldPodIsDone(api.mode, old(api.world), api.world, sr);
      NameStaysQuiet(api.svc, old(api.world), api.world, name);
      if !job.finished && !(pod.Found? && ExecutorTerminated(pod.value)) {
        r := AwaitStart(sr, job, seen);
        return;
      }
      r := Complete(sr, job, seen);
    }

    // ----- executeAutoApprovedPlaybook -----

    method MarkPlaybookExecuted(sr: Request, ghost seen: nat) returns (r: Reply)
      requires api.Valid() && seen < |api.run| && api.run[seen].Shown() == Some(sr)
      requires StillApproved(sr, api.world) && sr.status.playbook.autoApproved && !api.mode.SidecarHeld?
      modifies api
      ensures api.Valid() && old(api.run) <= api.run && old(api.labels) <= api.labels
      ensures r.Nothing? || r.Failure?
      ensures r.Nothing? ==> Runs.PhaseOf(api.world) == Some(Executed) && api.world.last.status.exitCode == Some(0)
      ensures GoesThrough(api.mode) ==> r.Nothing? || api.world.gone
      ensures api.mode.Silent? && !old(api.down) && old(api.world).Shown() == Some(sr) ==> r.Nothing?
      ensures api.mode.Silent? && !old(api.down) && old(api.world).Shown() == Some(sr) ==> api.world.target == old(api.world).target
    {
      hide Rely, AfterWrite, IsRun, ModeInv, Writable, WritableCopy, StillApproved;
      MayFinishPlaybook(api.svc, api.mode, api.world, sr);
      AnyMayBeStored(api.svc, api.mode, api.world, sr, Exec(FinishPlaybook));
      var u, stored, used, wrote, before := UpdateStatus(sr, NoEdit, Exec(FinishPlaybook), seen);
      if wrote {
        FinishKeepsTarget(before);
      }
      return if u.Done? then Nothing else Failure;
    }

    method RefusePlaybook(sr: Request, reason: string, ghost seen: nat) returns (r: Reply)
      requires api.Valid() && seen < |api.run| && api.run[seen].Shown() == Some(sr)
      requires StillApproved(sr, api.world) && sr.status.playbook.autoApproved && !api.mode.SidecarHeld?
      modifies api
      ensures api.Valid() && old(api.run) <= api.run && old(api.labels) <= api.labels
      ensures r.Nothing? || r.Failure?
      ensures r.Nothing? ==> Runs.PhaseOf(api.world) == Some(Failed)
      ensures GoesThrough(api.mode) ==> r.Nothing? || api.world.gone
      ensures api.mode.Silent? && !old(api.down) && old(api.world).Shown() == Some(sr) ==> r.Nothing?
    {
      hide Rely, AfterWrite, IsRun, ModeInv, Writable, WritableCopy, StillApproved, Inv;
      api.WorldInv();
      MayFail(api.svc, api.mode, api.world, sr, reason);
      AnyMayBeStored(api.svc, api.mode, api.world, sr, Exec(Fail(reason)));
      var u, stored, used, wrote, before := UpdateStatus(sr, NoEdit, Exec(Fail(reason)), seen);
      return if u.Done? then Nothing else Failure;
    }

    /** The recorded target, still the same Job and still terminal, is deleted under its UID; a target
        recorded as absent, or gone since, needs nothing; any other Job in its place is refused. */
    method ExecutePlaybook(sr: Request, ghost seen: nat) returns (r: Reply)
      requires api.Valid() && Wired(cfg, api.svc) && seen < |api.run| && api.run[seen].Shown() == Some(sr)
      requires StillApproved(sr, api.world) && sr.status.playbook.autoApproved && !api.mode.SidecarHeld?
      requires sr.spec.playbook.Some? && api.svc.accepted(sr.spec)
      modifies api
      ensures api.Valid() && old(api.run) <= api.run && old(api.labels) <= api.labels
      ensures r.Nothing? || r.Failure?
      ensures r.Nothing? ==> Runs.IsOver(api.world)
      ensures GoesThrough(api.mode) && api.Unmeddled(|old(api.labels)|) ==> r.Nothing? || api.world.gone
      ensures api.mode.Silent? && !old(api.down) && old(api.world).Shown() == Some(sr) ==>
                && r.Nothing?
                && Runs.PhaseOf(api.world) == Some(if MayProceed(old(api.world).target, sr.status.playbook) then Executed else Failed)
                && (old(api.world).target.Some? && MayProceed(old(api.world).target, sr.status.playbook) ==> api.world.target.None?)
    {
      hide Rely, IsRun, ModeInv, Inv, StillApproved, Wired, CleanupParameters, JobTerminal;
      AcceptedPlaybook(cfg, api.svc, sr.spec);
      if CleanupParameters(cfg.lib, sr.spec).None? {
        return Failure;
      }
      var target := api.GetTarget();
      ApprovalLasts(api.svc, sr, old(api.world), api.world);
      if target.Unavailable? {
        return Failure;
      }
      r := SettleTarget(sr, if target.Found? then Some(target.value) else None, seen);
    }

    method SettleTarget(sr: Request, target: Option<TargetJob>, ghost seen: nat) returns (r: Reply)
      requires api.Valid() && seen < |api.run| && api.run[seen].Shown() == Some(sr) && target == api.world.target
      requires StillApproved(sr, api.world) && sr.status.playbook.autoApproved && !api.mode.SidecarHeld?
      modifies api
      ensures api.Valid() && old(api.run) <= api.run && old(api.labels) <= api.labels
      ensures r.Nothing? || r.Failure?
      ensures r.Nothing? ==> Runs.IsOver(api.world)
      ensures GoesThrough(api.mode) && api.Unmeddled(|old(api.labels)|) ==> r.Nothing? || api.world.gone
      ensures api.mode.Silent? && old(api.world).Shown() == Some(sr) ==>
                && r.Nothing?
                && Runs.PhaseOf(api.world) == Some(if MayProceed(target, sr.status.playbook) then Executed else Failed)
                && (target.Some? && MayProceed(target, sr.status.playbook) ==> api.world.target.None?)
    {
      hide Rely, IsRun, ModeInv, Inv, StillApproved, JobTerminal;
      var playbook := sr.status.playbook;
      if target.None? {
        r := MarkPlaybookExecuted(sr, seen);
        return;
      }
      if playbook.targetAbsent || playbook.targetUid != Some(target.value.uid) || !JobTerminal(target.value) {
        r := RefusePlaybook(sr, "the target is not the Job that was approved", seen);
        return;
      }
      r := DeleteTargetJob(sr, target.value.uid, seen);
    }

    /** The deletion carries the approved UID as its precondition. */
    method DeleteTargetJob(sr: Request, uid: Uid, ghost seen: nat) returns (r: Reply)
      requires api.Valid() && seen < |api.run| && api.run[seen].Shown() == Some(sr)
      requires StillApproved(sr, api.world) && !api.mode.SidecarHeld?
      requires sr.status.playbook == PlaybookState(true, Some(uid), false)
      modifies api
      ensures api.Valid() && old(api.run) <= api.run && old(api.labels) <= api.labels
      ensures r.Nothing? || r.Failure?
      ensures r.Nothing? ==> Runs.PhaseOf(api.world) == Some(Executed)
      ensures GoesThrough(api.mode) && api.Unmeddled(|old(api.labels)|)
              && (old(api.world).target.Some? ==> old(api.world).target.value.uid == uid)
              ==> r.Nothing? || api.world.gone
      ensures api.mode.Silent? && !old(api.down) && old(api.world).Shown() == Some(sr)
              && (old(api.world).target.Some? ==> old(api.world).target.value.uid == uid)
              ==> r.Nothing? && api.world.target.None?
    {
      hide Rely, IsRun, ModeInv, Inv, StillApproved, Doable;
      Runs.RunInv(api.svc, api.run, api.labels, seen);
      api.SameVersion(seen);
      StoredTargetWasPinned(api.svc, api.run[seen], api.world, sr, uid);
      MayDeleteTarget(api.svc, api.mode, api.world, sr, uid);
      var deleted, wrote, before := DoFor(api, sr, DeleteTarget(uid));
      if !deleted.Done? && !deleted.Missing? {
        return Failure;
      }
      r := MarkPlaybookExecuted(sr, seen);
    }

    // ----- handleApproved -----

    /** One reconcile of an approved request. When its calls go through it takes the request closer to its end,
        whatever others do meanwhile, if it surely has something to do; and if it has something to do that
        others could take away, unless they touch what the Job is made of during the call. It leaves the work
        queue only an ended or a vanished request. */
    method HandleApproved() returns (r: Reply)
      requires api.Valid() && Wired(cfg, api.svc) && api.CachePastNew()
      modifies api
      ensures api.Valid() && old(api.run) <= api.run && old(api.labels) <= api.labels
      ensures r.Nothing? ==> Runs.IsOver(api.world) || api.world.gone
      ensures GoesThrough(api.mode) && Runs.PhaseOf(old(api.world)) == Some(Approved)
              && (Sure(api.svc, old(api.world)) || (api.Unmeddled(|old(api.labels)|) && Due(old(api.world))))
              ==> Closer(api.svc, old(api.world).last, api.world)
      ensures api.mode.Silent? && LeftRunning(api.svc, old(api.world)) ==>
                r == RequeueAfter(5_000_000_000) && api.world == old(api.world)
      ensures api.mode.Silent? && !old(api.down) && Runs.PhaseOf(old(api.world)) == Some(Approved)
              && Due(old(api.world))
              ==> Advanced(api.svc, old(api.world).last, api.world)
    {
      hide Rely, IsRun, ModeInv, Inv, StillApproved, Wired, Writable, Closer, Sure, Due, Ripe, KeptOpen, SameExecutor, Advanced;
      api.WorldInv();
      var got := api.GetRequest();
      ghost var w := api.world;
      if Runs.PhaseOf(old(api.world)) == Some(Approved) {
        StillToDo(api.svc, old(api.world), w);
      }
      OverIsCloser(api.svc, old(api.world).last, w);
      if !got.Found? {
        return if got.Absent? then Nothing else Failure;
      }
      var sr := got.value;
      if sr.status.phase != Approved {
        return Requeue;
      }
      r := CarryOut(sr, |api.run| - 1);
      if Runs.PhaseOf(old(api.world)) == Some(Approved) && Closer(api.svc, sr, api.world) {
        ReadLaterIsNoFarther(api.svc, old(api.world), w, api.world);
      }
    }

    /** An approved request just read: its playbook, or the next step towards its Job's result. */
    method CarryOut(sr: Request, ghost seen: nat) returns (r: Reply)
      requires api.Valid() && Wired(cfg, api.svc) && api.CachePastNew()
      requires seen < |api.run| && api.run[seen].Shown() == Some(sr) && api.world.Shown() == Some(sr) && sr.status.phase == Approved
      modifies api
      ensures api.Valid() && old(api.run) <= api.run && old(api.labels) <= api.labels
      ensures r.Nothing? ==> Runs.IsOver(api.world)
      ensures GoesThrough(api.mode) && (Sure(api.svc, old(api.world)) || (api.Unmeddled(|old(api.labels)|) && Due(old(api.world))))
              ==> Closer(api.svc, sr, api.world)
      ensures api.mode.Silent? && LeftRunning(api.svc, old(api.world)) ==>
                r == RequeueAfter(5_000_000_000) && api.world == old(api.world)
      ensures api.mode.Silent? && Due(old(api.world)) ==> Advanced(api.svc, sr, api.world)
    {
      hide Rely, IsRun, ModeInv, Inv, StillApproved, Wired, Writable, StepsLeft, Steady, Ripe, KeptOpen, MayProceed, SameExecutor;
      api.WorldInv();
      ApprovedFacts(api.svc, api.mode, api.world, sr);
      if sr.spec.playbook.Some? && sr.status.playbook.autoApproved {
        r := ExecutePlaybook(sr, seen);
        return;
      }
      r := Advance(sr, seen);
    }

    /** The next step of a request that runs a Job: finalizer, names, Job, result. */
    method Advance(sr: Request, ghost seen: nat) returns (r: Reply)
      requires api.Valid() && Wired(cfg, api.svc) && seen < |api.run| && api.run[seen].Shown() == Some(sr)
      requires StillApproved(sr, api.world) && !sr.status.playbook.autoApproved && api.svc.accepted(sr.spec)
      requires sr.status.exec.jobUid.Some? ==> sr.status.exec.jobName != ""
      requires api.CachePastNew()
      requires api.mode.SidecarHeld? ==> sr.status.exec.jobUid.Some?
      modifies api
      ensures api.Valid() && old(api.run) <= api.run && old(api.labels) <= api.labels
      ensures r.Nothing? ==> Runs.IsOver(api.world)
      ensures GoesThrough(api.mode)
              && (Steady(api.svc, old(api.world), sr) || (api.Unmeddled(|old(api.labels)|) && Ripe(old(api.world), sr)))
              ==> Closer(api.svc, sr, api.world)
      ensures api.mode.Silent? && old(api.world).Shown() == Some(sr) && IsRunning(old(api.world), sr)
              && (api.svc.crossNamespace(sr.spec) ==> sr.finalizer) ==>
                r == RequeueAfter(5_000_000_000) && api.world == old(api.world)
      ensures api.mode.Silent? && !old(api.down) && old(api.world).Shown() == Some(sr) && Ripe(old(api.world), sr)
              ==> Advanced(api.svc, sr, api.world)
    {
      hide Rely, IsRun, ModeInv, Inv, StillApproved, Wired, StepsLeft, Ripe;
      WiredNamespace(cfg, api.svc, sr.spec);
      if ExecutorNamespace(sr.spec, cfg.Namespace()) != cfg.Namespace() && !sr.finalizer {
        r := AddFinalizer(sr, seen);
      } else if sr.status.exec.jobName == "" {
        r := MintNames(sr, seen);
      } else if sr.status.exec.jobUid.None? {
        r := RecordJob(sr, seen);
      } else {
        r := ObserveJob(sr, seen);
      }
    }

    method AddFinalizer(sr: Request, ghost seen: nat) returns (r: Reply)
      requires api.Valid() && seen < |api.run| && api.run[seen].Shown() == Some(sr)
      requires StillApproved(sr, api.world) && !sr.finalizer && api.svc.crossNamespace(sr.spec)
      modifies api
      ensures api.Valid() && old(api.run) <= api.run && old(api.labels) <= api.labels
      ensures r.Requeue? || r.Failure?
      ensures r.Requeue? ==> !api.world.gone && api.world.last.finalizer
      ensures GoesThrough(api.mode) ==> Closer(api.svc, sr, api.world)
      ensures api.mode.Silent? && !old(api.down) && old(api.world).Shown() == Some(sr) ==> Advanced(api.svc, sr, api.world)
    {
      hide Rely, IsRun, ModeInv, Inv, StillApproved, StepsLeft, EffectEnabled, WritesLeft;
      ApprovedCopy(sr, api.world);
      MayAddFinalizer(api.svc, api.mode, api.world, sr);
      var u, wrote, before := api.Update(Controller, sr, Own(SetFinalizer), seen);
      if before.Shown() == Some(sr) {
        FinalizerAdvances(api.svc, before);
      }
      if u.Conflict? {
        ApprovalLasts(api.svc, sr, old(api.world), before);
        ConflictIsCloser(api.svc, sr, before);
      }
      return if u.Done? then Requeue else Failure;
    }

    /** Names nobody can guess, stored before anything bears them. */
    method MintNames(sr: Request, ghost seen: nat) returns (r: Reply)
      requires api.Valid() && seen < |api.run| && api.run[seen].Shown() == Some(sr)
      requires StillApproved(sr, api.world) && !sr.status.playbook.autoApproved && !api.mode.SidecarHeld?
      requires sr.status.exec.jobName == "" && (api.svc.crossNamespace(sr.spec) ==> sr.finalizer) && api.CachePastNew()
      modifies api
      ensures api.Valid() && old(api.run) <= api.run && old(api.labels) <= api.labels
      ensures r.Requeue? || r.Failure?
      ensures r.Requeue? ==> api.world.last.status.exec.jobName != "" && Advanced(api.svc, sr, api.world)
      ensures GoesThrough(api.mode) ==> r.Requeue? || api.world.gone
      ensures api.mode.Silent? && !old(api.down) && old(api.world).Shown() == Some(sr) ==>
                Advanced(api.svc, sr, api.world) && NamesFit(sr.spec, api.world.last.status.exec)
    {
      hide Rely, IsRun, ModeInv, Inv, StillApproved, StepsLeft, Writable, WritableCopy, AfterWrite, MutateReview, MutateNote;
      ApprovedCopy(sr, api.world);
      var jobSuffix: string, stdinSuffix: string := *, *;
      var job := "sudo-exec-" + jobSuffix;
      var stdin := if sr.spec.stdin != "" then "sudo-stdin-" + stdinSuffix else "";
      var mint := Exec(Lifecycle.MintNames(job, stdin));
      MayMint(api.svc, api.mode, api.world, sr, job, stdin);
      AnyMayBeStored(api.svc, api.mode, api.world, sr, mint);
      var u, stored, used, wrote, before := UpdateStatus(sr, NoEdit, mint, seen);
      ApprovalLasts(api.svc, sr, old(api.world), before);
      if u.Done? {
        MintingAdvances(api.svc, sr, before, job, stdin, api.world);
      }
      return if u.Done? then Requeue else Failure;
    }

    // ----- handleNew -----

    method DenyNew(sr: Request, e: Edit, actor: string, ghost seen: nat) returns (r: Reply)
      requires api.Valid() && seen < |api.run| && api.run[seen].Shown() == Some(sr)
      requires sr.status.phase == New && !api.svc.accepted(sr.spec) && EditFits(api.svc, sr.spec, e)
      modifies api
      ensures api.Valid() && old(api.run) <= api.run && old(api.labels) <= api.labels
      ensures r.Nothing? || r.Failure?
      ensures r.Nothing? ==>
                && Runs.PhaseOf(api.world) == Some(Denied) && api.world.last.status.decision.deniedBy == actor
                && api.world.last.status.decision.denialReason != ""
      ensures api.mode.Silent? && !old(api.down) && old(api.world).Shown() == Some(sr) ==>
                r.Nothing? && api.world.last.status.decision.deniedAt == Some(old(api.world).now)
    {
      hide Rely, AfterWrite, IsRun, ModeInv, Inv, WritableCopy, MayWrite, ResolvesTo, EditFits;
      var now := api.Clock(Controller);
      MayDenyNew(api.svc, api.mode, api.world, sr, e, DenyInvalid(actor, "rejected", now));
      r := StoreCopy(sr, e, DenyInvalid(actor, "rejected", now), seen);
    }

    /** A status update straight from the handler's copy: it lands on exactly that copy or not at all. */
    method StoreCopy(sr: Request, e: Edit, m: ReviewWrite, ghost seen: nat) returns (r: Reply)
      requires api.Valid() && seen < |api.run| && api.run[seen].Shown() == Some(sr)
      requires WritableCopy(api.svc, api.mode, api.world, sr, e, Review(m))
      modifies api
      ensures api.Valid() && old(api.run) <= api.run && old(api.labels) <= api.labels
      ensures r.Nothing? || r.Failure?
      ensures api.world.trail.sent == old(api.world).trail.sent
      ensures r.Nothing? ==> api.world.Shown() == Some(Stored(sr, e, Review(m))) && !api.down
      ensures api.mode.Silent? ==> api.world.tokens == old(api.world).tokens
      ensures api.mode.Silent? && !old(api.down) && old(api.world).Shown() == Some(sr) ==> r.Nothing?
    {
      hide Rely, AfterWrite, IsRun, ModeInv, Inv, WritableCopy, MayWrite, Mutate, Edited;
      CopyMayBeStored(api.svc, api.mode, api.world, sr, e, Review(m));
      var u, wrote, before := api.Update(Controller, sr, Write(e, Review(m)), seen);
      OthersSendNothing(api.svc, old(api.world), before);
      if wrote {
        ReviewSendsNothing(before, e, m);
        StoredIs(before, e, Review(m));
      }
      return if u.Done? then Nothing else Failure;
    }

    /** prepareAutoApprovedPlaybook. Prepared(p) means the target qualified as it stood when read. */
    method PreparePlaybook(sr: Request) returns (r: Preparation)
      requires api.Valid() && Wired(cfg, api.svc)
      modifies api
      ensures api.Valid() && old(api.run) <= api.run && old(api.labels) <= api.labels
      ensures Rely(api.svc, old(api.world), api.world)
      ensures r.ByPlaybook? ==> sr.spec.playbook.Some? && Prepared(cfg, sr.spec, api.world.target) == Some(r.state)
      ensures r.ByHuman? ==> (r.reason == "" <==> sr.spec.playbook.None?)
      ensures api.mode.Silent? ==> api.world == old(api.world)
      ensures api.mode.Silent? && !old(api.down) && (sr.spec.playbook.Some? ==> CleanupParameters(cfg.lib, sr.spec).Some?) ==>
                && !r.Unprepared? && !api.down
                && (r.ByPlaybook? <==> sr.spec.playbook.Some? && Prepared(cfg, sr.spec, api.world.target).Some?)
    {
      hide Rely, IsRun, ModeInv, Wired, CleanupParameters, JobTerminal;
      RelyReflexive(api.svc, api.world);
      if sr.spec.playbook.None? {
        return ByHuman("");
      }
      var target := CleanupParameters(cfg.lib, sr.spec);
      if target.None? {
        return Unprepared;
      }
      if cfg.playbookRules.None? {
        return ByHuman("playbook auto-approval is not configured");
      }
      var matching := MatchingRules(cfg, sr.spec, target.value);
      if |matching| == 0 {
        return ByHuman("requester and namespace are not allowlisted for this playbook");
      }
      var got := api.GetTarget();
      if got.Unavailable? {
        return Unprepared;
      }
      var job := if got.Found? then Some(got.value) else None;
      var prepared := Prepare(cfg, sr.spec, job, matching);
      return if prepared.Some? then ByPlaybook(prepared.value) else ByHuman("the target does not qualify");
    }

    /** The first reconcile of a request: denied if invalid, approved by a playbook rule or by the command
        allowlist, otherwise queued for a human with its link's token stored first. */
    method HandleNew(sr: Request, ghost seen: nat) returns (r: Reply)
      requires api.Valid() && Wired(cfg, api.svc) && seen < |api.run| && api.run[seen].Shown() == Some(sr)
      requires sr.status.phase == New && !IsMinted(api.world)
      modifies api
      ensures api.Valid() && old(api.run) <= api.run && old(api.labels) <= api.labels
      ensures api.mode.Silent? && !old(api.down) && old(api.world).Shown() == Some(sr) ==>
                && !r.Failure?
                && !api.world.gone && FirstDecision(cfg, sr.spec, old(api.world).target, old(api.world).now, api.world.last.status)
    {
      hide Rely, IsRun, ModeInv, Inv, Wired, WritableCopy, SpecExtrasOk, PlaybookOk, Gate, Prepared, CleanupParameters;
      hide Profiles.ResolveAndPreflight;
      WiredReview(cfg, api.svc, sr.spec);
      var resolution := Profiles.ResolveAndPreflight(cfg, sr.spec);
      var e := if resolution.Some? then Resolve(resolution.value) else NoEdit;
      ResolutionFits(cfg, api.svc, sr.spec);
      if !cfg.lib.shellSyntaxOk(sr.spec.command) {
        r := DenyNew(sr, e, "syntax-check", seen);
        return;
      }
      var extras := ValidateSpecExtras(cfg, sr.spec);
      if resolution.None? || extras.Some? || !PlaybookOk(cfg.lib, sr.spec) {
        r := DenyNew(sr, e, "spec-validation", seen);
        return;
      }
      r := AdmitNew(sr, resolution.value, seen);
    }

    method AdmitNew(sr: Request, resolution: Resolution, ghost seen: nat) returns (r: Reply)
      requires api.Valid() && Wired(cfg, api.svc) && seen < |api.run| && api.run[seen].Shown() == Some(sr)
      requires sr.status.phase == New && Accepted(cfg, sr.spec) && !IsMinted(api.world)
      requires Profiles.ResolveAndPreflight(cfg, sr.spec) == Some(resolution)
      modifies api
      ensures api.Valid() && old(api.run) <= api.run && old(api.labels) <= api.labels
      ensures api.mode.Silent? && !old(api.down) && old(api.world).Shown() == Some(sr) ==>
                && !r.Failure?
                && !api.world.gone && FirstDecision(cfg, sr.spec, old(api.world).target, old(api.world).now, api.world.last.status)
    {
      hide Rely, IsRun, ModeInv, Inv, Wired, WritableCopy, Accepted, Gate, Prepared, AutoApproveTokens, FirstDecision;
      hide Profiles.ResolveAndPreflight;
      AcceptedTarget(cfg, sr.spec);
      ghost var undisturbed := api.mode.Silent? && api.world.Shown() == Some(sr);
      ghost var target, now := api.world.target, api.world.now;
      var prepared := PreparePlaybook(sr);
      StaysUnminted(api.svc, old(api.world), api.world);
      if prepared.Unprepared? {
        return Failure;
      }
      if prepared.ByPlaybook? {
        AdmissionFacts(cfg, api.svc, sr, resolution, resolution);
        r := ApproveByPlaybook(sr, resolution, prepared.state, seen);
        if r.Requeue? && undisturbed {
          PlaybookDecides(cfg, sr.spec, target, now, api.world.last.status);
        }
        return;
      }
      var resolved := if prepared.reason == "" then resolution
                      else resolution.(warnings := resolution.warnings + ["playbook requires human approval: " + prepared.reason]);
      r := AdmitByGate(sr, resolution, resolved, seen);
    }

    /** No playbook approves it: the allowlist does, or a human is asked. */
    method AdmitByGate(sr: Request, resolution: Resolution, resolved: Resolution, ghost seen: nat) returns (r: Reply)
      requires api.Valid() && Wired(cfg, api.svc) && seen < |api.run| && api.run[seen].Shown() == Some(sr)
      requires sr.status.phase == New && Accepted(cfg, sr.spec)
      requires Profiles.ResolveAndPreflight(cfg, sr.spec) == Some(resolution)
      requires IsSettled(cfg, sr.spec, sr.spec.playbook.Some?, resolved)
      modifies api
      ensures api.Valid() && old(api.run) <= api.run && old(api.labels) <= api.labels
      ensures api.mode.Silent? && old(api.world).Shown() == Some(sr)
              && (sr.spec.playbook.Some? ==> Prepared(cfg, sr.spec, old(api.world).target).None?) ==>
                && !r.Failure?
                && !api.world.gone && FirstDecision(cfg, sr.spec, old(api.world).target, old(api.world).now, api.world.last.status)
    {
      hide Rely, IsRun, ModeInv, Inv, Wired, WritableCopy, Accepted, Gate, Prepared, AutoApproveTokens, FirstDecision;
      hide Profiles.ResolveAndPreflight;
      ghost var undisturbed :=
        api.mode.Silent? && api.world.Shown() == Some(sr)
        && (sr.spec.playbook.Some? ==> Prepared(cfg, sr.spec, api.world.target).None?);
      ghost var target, now := api.world.target, api.world.now;
      Runs.RunInv(api.svc, api.run, api.labels, seen);
      NewIsBlank(api.svc, api.run[seen]);
      AdmissionFacts(cfg, api.svc, sr, resolution, resolved);
      var copy := sr.(status := sr.status.(resolution := resolved));
      var tokens := AutoApproveTokens(cfg, copy);
      if tokens.Some? {
        r := ApproveByAllowlist(sr, resolved, seen);
        if undisturbed {
          AllowlistDecides(cfg, sr.spec, target, now, api.world.last.status);
        }
      } else {
        r := QueueForApproval(sr, resolved, seen);
        if undisturbed {
          QueueDecides(cfg, sr.spec, target, now, api.world.last.status);
        }
      }
    }

    lemma PlaybookFacts(sr: Request, state: PlaybookState, seen: nat)
      requires api.Valid() && Wired(cfg, api.svc) && seen < |api.run| && api.run[seen].Shown() == Some(sr)
      requires Prepared(cfg, sr.spec, api.world.target) == Some(state)
      ensures state.autoApproved && sr.spec == api.world.spec
      ensures if state.targetAbsent then state.targetUid.None? && api.svc.mayBeAbsent(sr.spec)
              else state.targetUid.Some? && state.targetUid.value in api.world.trail.vetted
    {
      hide Prepared, Wired;
      api.WorldInv();
      Runs.RunInv(api.svc, api.run, api.labels, seen);
      api.SameVersion(seen);
      PreparedIsVetted(cfg, api.svc, api.world, sr, state);
    }

    method ApproveByPlaybook(sr: Request, resolution: Resolution, state: PlaybookState, ghost seen: nat) returns (r: Reply)
      requires api.Valid() && Wired(cfg, api.svc) && seen < |api.run| && api.run[seen].Shown() == Some(sr)
      requires sr.status.phase == New && api.svc.accepted(sr.spec) && EditFits(api.svc, sr.spec, Resolve(resolution))
      requires sr.spec.playbook.Some? && Prepared(cfg, sr.spec, api.world.target) == Some(state) && !IsMinted(api.world)
      modifies api
      ensures api.Valid() && old(api.run) <= api.run && old(api.labels) <= api.labels
      ensures r.Requeue? || r.Failure?
      ensures r.Requeue? ==>
                && Runs.PhaseOf(api.world) == Some(Approved) && api.world.last.status.playbook == state
                && api.world.last.status.decision.approvedBy == "auto-approve"
      ensures api.mode.Silent? && !old(api.down) && old(api.world).Shown() == Some(sr) ==>
                && r.Requeue? && api.world.last.status.resolution == resolution
                && api.world.last.status.decision.approvedAt == Some(old(api.world).now)
    {
      hide Rely, Reach, Between, IsRun, ModeInv, Inv, Wired, Writable, WritableCopy, Prepared, AfterWrite, EditFits, Mutate, Edited;
      PlaybookFacts(sr, state, seen);
      ghost var w := api.world;
      var now := api.Clock(Controller);
      VettedLater(api.svc, w, api.world);
      StaysUnminted(api.svc, w, api.world);
      var approve := ApprovePlaybook(state.targetUid, state.targetAbsent, now);
      MayPreApprove(api.svc, api.mode, api.world, sr, Resolve(resolution), approve);
      var u, stored, used, wrote, before := UpdateStatus(sr, Resolve(resolution), Review(approve), seen);
      if u.Done? {
        PlaybookApproves(before.last, used, approve);
      }
      return if u.Done? then Requeue else Failure;
    }

    method ApproveByAllowlist(sr: Request, resolution: Resolution, ghost seen: nat) returns (r: Reply)
      requires api.Valid() && seen < |api.run| && api.run[seen].Shown() == Some(sr)
      requires sr.status.phase == New && api.svc.accepted(sr.spec) && EditFits(api.svc, sr.spec, Resolve(resolution))
      requires api.svc.gate(sr.spec, resolution.image).Some?
      modifies api
      ensures api.Valid() && old(api.run) <= api.run && old(api.labels) <= api.labels
      ensures r.Nothing? || r.Failure?
      ensures r.Nothing? ==>
                && Runs.PhaseOf(api.world) == Some(Approved) && api.world.last.status.decision.approvedBy == "auto-approve"
                && api.world.last.status.resolution == resolution
      ensures api.mode.Silent? && !old(api.down) && old(api.world).Shown() == Some(sr) ==>
                r.Nothing? && api.world.last.status.decision.approvedAt == Some(old(api.world).now)
    {
      hide Rely, IsRun, ModeInv, Inv, WritableCopy, EditFits, ResolvesTo;
      var now := api.Clock(Controller);
      MayAutoApprove(api.svc, api.mode, api.world, sr, Resolve(resolution), AutoApprove(now));
      r := StoreCopy(sr, Resolve(resolution), AutoApprove(now), seen);
    }

    /** Waiting for a human: a link to send, and an assessment to make if the service makes them. */
    predicate Queued(sr: Request, s: Status, resolution: Resolution) {
      && s.token.hash != "" && s.notification.state == NotificationPending && s.resolution == resolution
      && s.assessment == if cfg.assessments then AssessmentPending else sr.status.assessment
    }

    method RandomToken() returns (token: string)
      ensures token != ""
    {
      token := *;
      if token == "" {
        token := "0";
      }
    }

    /** The token's Secret is stored before the status that refers to it. */
    method QueueForApproval(sr: Request, resolution: Resolution, ghost seen: nat) returns (r: Reply)
      requires api.Valid() && Wired(cfg, api.svc) && seen < |api.run| && api.run[seen].Shown() == Some(sr)
      requires sr.status.phase == New && api.svc.accepted(sr.spec) && EditFits(api.svc, sr.spec, Resolve(resolution))
      requires api.svc.gate(sr.spec, resolution.image).None?
      modifies api
      ensures api.Valid() && old(api.run) <= api.run && old(api.labels) <= api.labels
      ensures r.Requeue? || r.Failure?
      ensures r.Requeue? ==>
                && Runs.PhaseOf(api.world) == Some(Pending)
                && LinkAlive(api.svc, api.world, sr.createdAt, api.world.last.status.token)
                && Queued(sr, api.world.last.status, resolution)
      ensures api.mode.Silent? && !old(api.down) && old(api.world).Shown() == Some(sr) ==>
                && r.Requeue? && api.world.last.status.token.expiresAt == Some(old(api.world).now + 3_600_000_000_000)
                && api.world.last.status.token.secretName in api.world.tokens
                && api.world.tokens[api.world.last.status.token.secretName].expiresAt == Unix(old(api.world).now + 3_600_000_000_000)
                && api.world.last.status.notification.nextAttempt == sr.status.notification.nextAttempt
    {
      hide Rely, Reach, IsRun, ModeInv, Inv, Wired, EditFits, LinkAlive, Unix;
      WiredDigest(cfg, api.svc);
      var token := RandomToken();
      var now := api.Clock(Controller);
      var expires := now + PENDING_REQUEST_TTL * SECOND;
      TokenOutlivesRequest(sr, now, seen);
      var put, name := api.CreateToken(TokenSecret(token, Unix(expires)));
      if !put.Done? {
        return Failure;
      }
      r := StorePending(sr, resolution, TokenRef(cfg.lib.sha256(token), Some(expires), name), seen);
    }

    method StorePending(sr: Request, resolution: Resolution, token: TokenRef, ghost seen: nat) returns (r: Reply)
      requires api.Valid() && seen < |api.run| && api.run[seen].Shown() == Some(sr)
      requires sr.status.phase == New && api.svc.accepted(sr.spec) && EditFits(api.svc, sr.spec, Resolve(resolution))
      requires api.svc.gate(sr.spec, resolution.image).None?
      requires token.hash != "" && LinkStored(api.svc, api.world, sr.createdAt, token)
      modifies api
      ensures api.Valid() && old(api.run) <= api.run && old(api.labels) <= api.labels
      ensures r.Requeue? || r.Failure?
      ensures r.Requeue? ==>
                && Runs.PhaseOf(api.world) == Some(Pending) && api.world.last.status.token == token
                && LinkAlive(api.svc, api.world, sr.createdAt, token)
                && Queued(sr, api.world.last.status, resolution)
                && api.world.last.status.notification.nextAttempt == sr.status.notification.nextAttempt
      ensures api.mode.Silent? ==> api.world.tokens == old(api.world).tokens
      ensures api.mode.Silent? && !old(api.down) && old(api.world).Shown() == Some(sr) ==> r.Requeue?
    {
      hide Rely, IsRun, ModeInv, Inv, WritableCopy, EditFits, LinkStored, LinkAlive;
      var pend := Pend(token, cfg.assessments);
      MayPend(api.svc, api.mode, api.world, sr, Resolve(resolution), pend);
      var stored := StoreCopy(sr, Resolve(resolution), pend, seen);
      if stored.Failure? {
        return Failure;
      }
      api.WorldInv();
      PendingLinkIsAlive(api.svc, api.world);
      return Requeue;
    }

    lemma TokenOutlivesRequest(sr: Request, now: Time, seen: nat)
      requires api.Valid() && seen < |api.run| && api.run[seen].Shown() == Some(sr) && now == api.world.now
      ensures Unix(now + PENDING_REQUEST_TTL * SECOND) >= sr.createdAt + PENDING_REQUEST_TTL
    {
      Runs.RunInv(api.svc, api.run, api.labels, seen);
      api.SameVersion(seen);
      UnixOfLater(sr.createdAt, now);
    }

    // ----- handlePending -----

    /** Deleting the Secret of a token that is spent; best effort. */
    method DeleteTokenSecret(caller: Caller, name: string)
      requires api.Valid()
      requires api.world.gone || Decided(api.world.last.status.phase)
      modifies api
      ensures api.Valid() && old(api.run) <= api.run && old(api.labels) <= api.labels
      ensures Reach(old(api.world), api.world)
      ensures api.mode.Silent? && name != "" ==> name !in api.world.tokens
      ensures caller.Controller? ==> api.world.trail.sent == old(api.world).trail.sent
      ensures api.mode.Silent? && !old(api.down) ==> api.world.Shown() == old(api.world).Shown()
    {
      hide IsRun, ModeInv, Inv;
      DroppingReaches(api.svc, api.world, name);
      if name == "" {
        return;
      }
      MayDropToken(api.svc, api.mode, caller, api.world, name);
      var dropped, wrote, before := api.Do(caller, DropToken(name));
      assert Between(api.svc, caller, old(api.world), before);
      if caller.Controller? {
        OthersSendNothing(api.svc, old(api.world), before);
      }
      DroppingReaches(api.svc, before, name);
      ReachTransitive(old(api.world), before, api.world);
    }

    /** Past its time to live the request expires; until then the assessment is recorded once and the link
        is delivered. `answer` is what the model answers if it is asked, `accepts` whether a send succeeds. No
        call sends more than one link, and none from a copy whose notification is not pending. */
    method HandlePending(sr: Request, answer: Assessment, accepts: bool, ghost seen: nat) returns (r: Reply)
      requires api.Valid() && Wired(cfg, api.svc) && seen < |api.run| && api.run[seen].Shown() == Some(sr)
      requires sr.status.phase == Pending && IsAnswer(answer)
      modifies api
      ensures api.Valid() && old(api.run) <= api.run && old(api.labels) <= api.labels
      ensures r.Nothing? ==> api.world.gone || Decided(api.world.last.status.phase)
      ensures AtMostOneSent(old(api.world), api.world)
      ensures sr.status.notification.state != NotificationPending ==> api.world.trail.sent == old(api.world).trail.sent
      ensures api.mode.Silent? && !old(api.down) && old(api.world).Shown() == Some(sr)
              && old(api.world).now >= (sr.createdAt + 3600) * 1_000_000_000
              ==> && r.Nothing? && Runs.PhaseOf(api.world) == Some(Expired)
                  && (sr.status.token.secretName != "" ==> sr.status.token.secretName !in api.world.tokens)
      ensures api.mode.Silent? && !old(api.down) && old(api.world).Shown() == Some(sr)
              && old(api.world).now < (sr.createdAt + 3600) * 1_000_000_000
              ==> && r == RequeueAfter(NextRound(sr, accepts, old(api.world).now))
                  && StillPending(sr, answer, accepts, old(api.world), api.world)
    {
      hide Rely, IsRun, ModeInv, Inv, Wired, WritableCopy, Deliverable;
      var now := api.Clock(Controller);
      OthersSendNothing(api.svc, old(api.world), api.world);
      if now >= (sr.createdAt + PENDING_REQUEST_TTL) * SECOND {
        r := ExpireNow(sr, seen);
        return;
      }
      api.WorldInv();
      DeliverableWhilePending(api.svc, api.world);
      r := AssessThenNotify(sr, answer, accepts, seen);
    }

    method AssessThenNotify(sr: Request, answer: Assessment, accepts: bool, ghost seen: nat) returns (r: Reply)
      requires IsAnswer(answer) && api.Valid() && Wired(cfg, api.svc) && seen < |api.run| && api.run[seen].Shown() == Some(sr)
      requires sr.status.phase != New
      modifies api
      ensures api.Valid() && old(api.run) <= api.run && old(api.labels) <= api.labels
      ensures r.RequeueAfter? || r.Failure?
      ensures AtMostOneSent(old(api.world), api.world)
      ensures sr.status.notification.state != NotificationPending ==> api.world.trail.sent == old(api.world).trail.sent
      ensures api.mode.Silent? && !old(api.down) && old(api.world).Shown() == Some(sr) && Deliverable(api.svc, old(api.world)) ==>
                && r == RequeueAfter(NextRound(sr, accepts, old(api.world).now)) && !api.world.gone
                && api.world.last.status.phase == sr.status.phase
                && api.world.last.status.assessment == Assessed(sr.status.assessment, answer)
                && Notified(sr, accepts, old(api.world), api.world)
    {
      hide Rely, IsRun, ModeInv, Inv, Wired, WritableCopy, Attempted;
      if sr.status.assessment != AssessmentPending {
        r := NotifyWhenDue(sr, accepts, seen);
        return;
      }
      var ok, copy, before := Annotate(sr, Assess(answer), seen);
      if !ok {
        return Failure;
      }
      AssessingAssesses(before.last, answer);
      api.SameVersion(seen);
      r := NotifyWhenDue(copy, accepts, |api.run| - 1);
    }

    /** The link is sent unless it has been, or the next attempt is not yet due. */
    method NotifyWhenDue(sr: Request, accepts: bool, ghost seen: nat) returns (r: Reply)
      requires api.Valid() && Wired(cfg, api.svc) && seen < |api.run| && api.run[seen].Shown() == Some(sr)
      requires sr.status.phase != New
      modifies api
      ensures api.Valid() && old(api.run) <= api.run && old(api.labels) <= api.labels
      ensures r.RequeueAfter? || r.Failure?
      ensures AtMostOneSent(old(api.world), api.world)
      ensures sr.status.notification.state != NotificationPending ==> api.world.trail.sent == old(api.world).trail.sent
      ensures api.mode.Silent? && !old(api.down) && old(api.world).Shown() == Some(sr) && Deliverable(api.svc, old(api.world)) ==>
                && r == RequeueAfter(NextRound(sr, accepts, old(api.world).now)) && !api.world.gone
                && api.world.last.status.phase == sr.status.phase
                && api.world.last.status.assessment == sr.status.assessment
                && Notified(sr, accepts, old(api.world), api.world)
    {
      hide Rely, Reach, IsRun, ModeInv, Inv, Wired, Attempted;
      var now := api.Clock(Controller);
      OthersSendNothing(api.svc, old(api.world), api.world);
      if sr.status.notification.state != NotificationPending {
        return RequeueAfter(UntilExpiry(sr, now));
      }
      var next := sr.status.notification.nextAttempt;
      if next.Some? && now < next.value {
        return RequeueAfter(next.value - now);
      }
      var sent;
      ghost var before, at;
      r, sent, before, at := DeliverApprovalNotification(sr, accepts, seen);
    }

    method ExpireNow(sr: Request, ghost seen: nat) returns (r: Reply)
      requires api.Valid() && seen < |api.run| && api.run[seen].Shown() == Some(sr) && sr.status.phase == Pending
      requires api.world.now >= (sr.createdAt + PENDING_REQUEST_TTL) * SECOND
      modifies api
      ensures api.Valid() && old(api.run) <= api.run && old(api.labels) <= api.labels
      ensures r.Nothing? || r.Failure?
      ensures api.world.trail.sent == old(api.world).trail.sent
      ensures r.Nothing? ==> api.world.gone || Decided(api.world.last.status.phase)
      ensures api.mode.Silent? && !old(api.down) && old(api.world).Shown() == Some(sr) ==>
                && r.Nothing? && Runs.PhaseOf(api.world) == Some(Expired)
                && (sr.status.token.secretName != "" ==> sr.status.token.secretName !in api.world.tokens)
    {
      hide Rely, Reach, IsRun, ModeInv, Inv, WritableCopy;
      MayExpire(api.svc, api.mode, api.world, sr);
      r := StoreCopy(sr, NoEdit, Expire, seen);
      if r.Nothing? {
        ghost var w := api.world;
        DeleteTokenSecret(Controller, sr.status.token.secretName);
        DecidedLater(w, api.world);
      }
    }

    /** updateStatus with a note: done, it has applied it exactly once to what was stored before. */
    method Annotate(sr: Request, n: Note, ghost seen: nat) returns (ok: bool, stored: Request, ghost before: World)
      requires api.Valid() && seen < |api.run| && api.run[seen].Shown() == Some(sr) && !n.Link? && sr.status.phase != New
      modifies api
      ensures api.Valid() && old(api.run) <= api.run && old(api.labels) <= api.labels
      ensures ok ==> !before.gone && stored == Stored(before.last, NoEdit, Noted(n)) && api.world.Shown() == Some(stored)
      ensures api.world.trail.sent == old(api.world).trail.sent
      ensures api.mode.Silent? && !old(api.down) && old(api.world).Shown() == Some(sr) ==>
                && ok && before == old(api.world) && !api.down
                && api.world.now == old(api.world).now && api.world.tokens == old(api.world).tokens
    {
      hide Rely, IsRun, ModeInv, Inv, Writable, WritableCopy, AfterWrite, Mutate, Edited;
      api.SameVersion(seen);
      MayNoteAnytime(api.svc, api.mode, api.world, n);
      AnyMayBeStored(api.svc, api.mode, api.world, sr, Noted(n));
      var u;
      ghost var used, wrote;
      u, stored, used, wrote, before := UpdateStatus(sr, NoEdit, Noted(n), seen);
      ok := u.Done?;
      OthersSendNothing(api.svc, old(api.world), before);
      if wrote {
        NotingTakesNoTime(before, n);
      }
    }

    /** Sends the persisted link once, unless it cannot be had, and records the attempt, whatever became of it,
        exactly once: as delivered if the send succeeded, as due again thirty seconds later if not. */
    method DeliverApprovalNotification(sr: Request, accepts: bool, ghost seen: nat)
      returns (r: Reply, sent: bool, ghost before: World, ghost attemptedAt: Time)
      requires api.Valid() && Wired(cfg, api.svc) && seen < |api.run| && api.run[seen].Shown() == Some(sr)
      requires sr.status.phase != New
      modifies api
      ensures api.Valid() && old(api.run) <= api.run && old(api.labels) <= api.labels
      ensures r.RequeueAfter? || r.Failure?
      ensures AtMostOneSent(old(api.world), api.world) && (sent ==> |api.world.trail.sent| > |old(api.world).trail.sent|)
      ensures r.RequeueAfter? ==>
                && !before.gone && !api.world.gone && api.world.last.status.phase == before.last.status.phase
                && api.world.last.status.assessment == before.last.status.assessment
                && Attempted(before.last.status.notification, api.world.last.status.notification, sent, attemptedAt)
      ensures api.mode.Silent? && !old(api.down) && old(api.world).Shown() == Some(sr) && Deliverable(api.svc, old(api.world)) ==>
                && r == RequeueAfter(if accepts then UntilExpiry(sr, attemptedAt) else 30_000_000_000)
                && sent == accepts && before.Shown() == Some(sr) && attemptedAt == old(api.world).now
                && api.world.trail.sent
                   == old(api.world).trail.sent + if accepts then [old(api.world).tokens[sr.status.token.secretName].token] else []
    {
      hide Rely, Reach, IsRun, ModeInv, Inv, Wired, Mutate, Edited, Attempted;
      before, attemptedAt, sent := api.world, 0, false;
      var token := PersistedToken(sr.status.token);
      if token.None? {
        return Failure, sent, before, attemptedAt;
      }
      var now := api.Clock(Controller);
      attemptedAt := now;
      OthersSendNothing(api.svc, old(api.world), api.world);
      HashIsLinked(sr, seen);
      sent := SendLink(token.value, accepts);
      r, before := RecordAttempt(sr, sent, now, seen);
    }

    /** The token whose hash is stored, if its Secret can be read and still holds it. */
    method PersistedToken(ref: TokenRef) returns (token: Option<string>)
      requires api.Valid() && Wired(cfg, api.svc)
      modifies api`down
      ensures api.Valid() && (token.Some? ==> token.value != "" && api.svc.sha256(token.value) == ref.hash != "")
      ensures api.mode.Silent? && !api.world.gone && ref == api.world.last.status.token && Deliverable(api.svc, api.world) ==>
                token == Some(api.world.tokens[ref.secretName].token)
    {
      hide IsRun, ModeInv, Wired;
      WiredDigest(cfg, api.svc);
      if ref.secretName == "" {
        return None;
      }
      var secret, at := api.CachedToken(ref.secretName);
      if !secret.Found? || secret.value.token == "" || cfg.lib.sha256(secret.value.token) != ref.hash {
        return None;
      }
      return Some(secret.value.token);
    }

    method RecordAttempt(sr: Request, sent: bool, attemptedAt: Time, ghost seen: nat) returns (r: Reply, ghost before: World)
      requires api.Valid() && seen < |api.run| && api.run[seen].Shown() == Some(sr) && sr.status.phase != New
      modifies api
      ensures api.Valid() && old(api.run) <= api.run && old(api.labels) <= api.labels
      ensures r.RequeueAfter? || r.Failure?
      ensures api.world.trail.sent == old(api.world).trail.sent
      ensures r.RequeueAfter? ==>
                && !before.gone && !api.world.gone && api.world.last.status.phase == before.last.status.phase
                && api.world.last.status.assessment == before.last.status.assessment
                && Attempted(before.last.status.notification, api.world.last.status.notification, sent, attemptedAt)
                && r.delay == if sent then UntilExpiry(sr, attemptedAt) else 30_000_000_000
      ensures api.mode.Silent? && !old(api.down) && old(api.world).Shown() == Some(sr) ==>
                r.RequeueAfter? && before.Shown() == Some(sr)
    {
      hide Rely, Reach, IsRun, ModeInv, Inv, Mutate, Edited, Attempted;
      var deliveredAt := attemptedAt;
      if sent {
        deliveredAt := api.Clock(Controller);
        OthersSendNothing(api.svc, old(api.world), api.world);
      }
      var note := if sent then SendDelivered(attemptedAt, deliveredAt, "")
                  else SendFailed(attemptedAt, attemptedAt + 30 * SECOND, "send failed");
      var ok, stored;
      ok, stored, before := Annotate(sr, note, seen);
      if !ok {
        return Failure, before;
      }
      AttemptIsRecorded(before.last, sent, attemptedAt, deliveredAt);
      return RequeueAfter(if sent then UntilExpiry(sr, attemptedAt) else 30 * SECOND), before;
    }

    /** One message with this link, if the service that sends them accepts it. */
    method SendLink(token: string, accepts: bool) returns (ok: bool)
      requires api.Valid() && api.svc.sha256(token) in api.world.trail.linked
      modifies api
      ensures api.Valid() && old(api.run) <= api.run && old(api.labels) <= api.labels
      ensures api.world.trail.sent == old(api.world).trail.sent || api.world.trail.sent == old(api.world).trail.sent + [token]
      ensures ok ==> api.world.trail.sent == old(api.world).trail.sent + [token]
      ensures !accepts ==> !ok && api.world.trail.sent == old(api.world).trail.sent
      ensures api.mode.Silent? ==>
                (ok <==> accepts) && api.world.Shown() == old(api.world).Shown() && api.world.now == old(api.world).now
    {
      hide Rely, Reach, IsRun, ModeInv, Inv, Doable;
      if !accepts {
        var later := api.Clock(Controller);
        OthersSendNothing(api.svc, old(api.world), api.world);
        return false;
      }
      MaySend(api.svc, api.mode, api.world, token);
      EffectMayBeDone(api.svc, api.mode, api.world, Send(token));
      var sent, wrote, before := api.Do(Controller, Send(token));
      OthersSendNothing(api.svc, old(api.world), before);
      return sent.Done?;
    }

    lemma HashIsLinked(sr: Request, seen: nat)
      requires api.Valid() && seen < |api.run| && api.run[seen].Shown() == Some(sr) && sr.status.token.hash != ""
      ensures sr.status.token.hash in api.world.trail.linked
    {
      Runs.RunInv(api.svc, api.run, api.labels, seen);
      api.SameVersion(seen);
      hide Inv;
    }

    // ----- Approve, Deny, VerifyApprovalToken: called by the HTTP handlers, beside any reconcile -----

    /** The cached request, if it is Pending. */
    method FindPending() returns (found: Option<Request>, ghost seen: nat)
      requires api.Valid()
      modifies api`cached
      ensures api.Valid() && seen < |api.run|
      ensures found.Some? ==> api.run[seen].Shown() == found && found.value.status.phase == Pending
      ensures old(api.Current()) && Runs.PhaseOf(api.world) == Some(Pending) ==> found == api.world.Shown()
    {
      found := api.CachedRequest();
      seen := api.cached;
      if found.Some? && found.value.status.phase != Pending {
        found := None;
      }
    }

    /** A decision lands on a request that is Pending just before, once; then the token is dropped. */
    method Decide(sr: Request, m: ReviewWrite, ghost seen: nat) returns (ok: bool, ghost before: World, ghost after: World)
      requires api.Valid() && (m.Approve? || m.Deny?)
      requires seen < |api.run| && api.run[seen].Shown() == Some(sr) && sr.status.phase == Pending
      modifies api
      ensures api.Valid() && old(api.run) <= api.run && old(api.labels) <= api.labels
      ensures ok ==>
                && Runs.PhaseOf(before) == Some(Pending) && Reach(old(api.world), before)
                && after.Shown() == Some(Stored(before.last, NoEdit, Review(m))) && Reach(after, api.world)
      ensures api.mode.Silent? && !old(api.down) && old(api.world).Shown() == Some(sr) ==> ok
      ensures api.mode.Silent? && ok && sr.status.token.secretName != "" ==> sr.status.token.secretName !in api.world.tokens
    {
      hide Rely, Reach, IsRun, ModeInv, Inv, MayWrite, AfterWrite, Mutate, Edited;
      DecisionMayBeStored(api.svc, api.mode, Another, api.world, sr, m);
      var u;
      ghost var wrote;
      u, wrote, before := api.Update(Another, sr, Write(NoEdit, Review(m)), seen);
      after := api.world;
      if !u.Done? {
        return false, before, after;
      }
      StoredIs(before, NoEdit, Review(m));
      DecisionDecides(sr, m);
      DeleteTokenSecret(Another, sr.status.token.secretName);
      return true, before, after;
    }

    method Approve(approvedBy: string) returns (ok: bool, ghost before: World, ghost after: World)
      requires api.Valid()
      modifies api
      ensures api.Valid() && old(api.run) <= api.run && old(api.labels) <= api.labels
      ensures ok ==>
                && Runs.PhaseOf(before) == Some(Pending) && Runs.PhaseOf(after) == Some(Approved)
                && after.last.status.token == NO_TOKEN && after.last.status.playbook == NO_PLAYBOOK
                && after.last.status.decision.approvedBy == approvedBy
                && HappenedBetween(after.last.status.decision.approvedAt, old(api.world), before)
                && after.last.status.exec == before.last.status.exec && after.last.status.resolution == before.last.status.resolution
                && Reach(old(api.world), before) && Reach(after, api.world)
      ensures api.mode.Silent? && !old(api.down) && old(api.Current()) && Runs.PhaseOf(old(api.world)) == Some(Pending) ==>
                ok && IsSpent(old(api.world).last.status.token, api.world)
    {
      hide Reach, Rely, IsRun, ModeInv, Inv;
      var found;
      ghost var seen;
      found, seen := FindPending();
      if found.None? {
        return false, api.world, api.world;
      }
      var now := api.Clock(Another);
      ghost var w := api.world;
      ok, before, after := Decide(found.value, ReviewWrite.Approve(approvedBy, now), seen);
      if ok {
        ClockRuns(old(api.world), w);
        ClockRuns(w, before);
        ReachTransitive(old(api.world), w, before);
      }
    }

    method Deny(deniedBy: string, reason: string) returns (ok: bool, ghost before: World, ghost after: World)
      requires api.Valid()
      modifies api
      ensures api.Valid() && old(api.run) <= api.run && old(api.labels) <= api.labels
      ensures ok ==>
                && Runs.PhaseOf(before) == Some(Pending) && Runs.PhaseOf(after) == Some(Denied)
                && after.last.status.token == NO_TOKEN
                && after.last.status.decision.deniedBy == deniedBy && after.last.status.decision.denialReason == reason
                && HappenedBetween(after.last.status.decision.deniedAt, old(api.world), before)
                && Reach(old(api.world), before) && Reach(after, api.world)
      ensures api.mode.Silent? && !old(api.down) && old(api.Current()) && Runs.PhaseOf(old(api.world)) == Some(Pending) ==>
                ok && IsSpent(old(api.world).last.status.token, api.world)
    {
      hide Reach, Rely, IsRun, ModeInv, Inv;
      var found;
      ghost var seen;
      found, seen := FindPending();
      if found.None? {
        return false, api.world, api.world;
      }
      var now := api.Clock(Another);
      ghost var w := api.world;
      ok, before, after := Decide(found.value, ReviewWrite.Deny(deniedBy, reason, now), seen);
      if ok {
        ClockRuns(old(api.world), w);
        ClockRuns(w, before);
        ReachTransitive(old(api.world), w, before);
      }
    }

    /** Who presents a token that passes presents the one whose hash was stored with Pending. */
    method VerifyApprovalToken(token: string) returns (r: Option<Request>, ghost seen: nat)
      requires api.Valid() && Wired(cfg, api.svc)
      modifies api
      ensures api.Valid() && old(api.run) <= api.run && old(api.labels) <= api.labels
      ensures r.Some? ==>
                && seen < |api.run| && api.run[seen].Shown() == r && r.value.status.phase == Pending
                && cfg.lib.sha256(token) in api.world.trail.linked
      ensures api.mode.Silent? && old(api.Current()) && Runs.PhaseOf(old(api.world)) == Some(Pending) ==>
                var ref := old(api.world).last.status.token;
                r.Some? <==> ref.expiresAt.Some? && old(api.world).now <= ref.expiresAt.value && cfg.lib.sha256(token) == ref.hash
    {
      hide Rely, Reach, IsRun, ModeInv, Inv, Wired;
      WiredDigest(cfg, api.svc);
      var found;
      found, seen := FindPending();
      if found.None? {
        return None, seen;
      }
      var ref := found.value.status.token;
      var now := api.Clock(Another);
      if ref.expiresAt.None? || now > ref.expiresAt.value || cfg.lib.sha256(token) != ref.hash {
        return None, seen;
      }
      HashIsLinked(found.value, seen);
      return found, seen;
    }

    // ----- Reconcile -----

    /** Releasing a deleted request: first the Job at its minted name goes, and the update that drops the
        finalizer lands on exactly the copy that named it. */
    method ReleaseDeleted(sr: Request, ghost seen: nat) returns (r: Reply)
      requires api.Valid() && seen < |api.run| && api.run[seen].Shown() == Some(sr) && sr.deleting
      modifies api
      ensures api.Valid() && old(api.run) <= api.run && old(api.labels) <= api.labels
      ensures r.Nothing? || r.Failure?
      ensures r.Nothing? && sr.finalizer ==> api.world.gone
      ensures r.Nothing? && sr.finalizer && api.svc.crossNamespace(api.world.spec) ==> forall n :: !Runs.OwnJob(api.world, n)
      ensures GoesThrough(api.mode) && sr.finalizer && sr.status.phase == Approved && old(api.world).Shown() == Some(sr) ==>
                Closer(api.svc, sr, api.world)
      ensures api.mode.Silent? && !old(api.down) && old(api.world).Shown() == Some(sr) ==> r.Nothing?
    {
      hide Rely, Reach, IsRun, ModeInv, Inv, EffectEnabled, NameClear, ApprovedRely, Closer;
      if !sr.finalizer {
        return Nothing;
      }
      api.SameVersion(seen);
      DeletingIsNotHeld(api.mode, api.run[seen], api.world);
      var name := sr.status.exec.jobName;
      ReadIsApproved(api.world);
      if name != "" {
        var cleared := ClearName(name);
        if !cleared {
          return Failure;
        }
      }
      ghost var w := api.world;
      r := DropFinalizer(sr, seen);
      OverIsCloser(api.svc, sr, api.world);
      if old(api.world).Shown() == Some(sr) && sr.status.phase == Approved && !api.world.gone && GoesThrough(api.mode) {
        WrittenIsCloser(api.svc, old(api.world), w, api.world);
      }
    }

    /** The update that releases exactly the copy whose Job has been cleared. */
    method DropFinalizer(sr: Request, ghost seen: nat) returns (r: Reply)
      requires api.Valid() && seen < |api.run| && api.run[seen].Shown() == Some(sr) && sr.deleting && sr.finalizer
      requires !api.mode.SidecarHeld? && (sr.status.exec.jobName != "" ==> NameClear(api.world, sr.status.exec.jobName))
      modifies api
      ensures api.Valid() && old(api.run) <= api.run && old(api.labels) <= api.labels
      ensures r.Nothing? || r.Failure?
      ensures r.Nothing? ==> api.world.gone
      ensures r.Nothing? && api.svc.crossNamespace(api.world.spec) ==> forall n :: !Runs.OwnJob(api.world, n)
      ensures GoesThrough(api.mode) && !api.world.gone ==>
                api.world.last.version != sr.version
                && (old(api.world).last.status.phase == Approved ==> ApprovedRely(old(api.world), api.world))
      ensures api.mode.Silent? && old(api.world).Shown() == Some(sr) ==> r.Nothing?
    {
      hide Rely, Reach, IsRun, ModeInv, Inv, EffectEnabled, NameClear, ApprovedRely;
      api.WorldInv();
      MayRelease(api.svc, api.mode, api.world, sr);
      var u, wrote, before := api.Update(Controller, sr, Own(ReleaseFinalizer), seen);
      api.WorldInv();
      ReleasedLeavesNoJob(api.svc, api.world);
      if old(api.world).last.status.phase == Approved {
        RelyKeepsApproved(api.svc, old(api.world), before);
      }
      return if u.Done? then Nothing else Failure;
    }

    /** Whatever Job bears the name is stopped. */
    method ClearName(name: string) returns (ok: bool)
      requires api.Valid() && !api.mode.SidecarHeld?
      modifies api
      ensures api.Valid() && old(api.run) <= api.run && old(api.labels) <= api.labels
      ensures ok ==> NameClear(api.world, name)
      ensures old(api.world).last.status.phase == Approved ==> ApprovedRely(old(api.world), api.world)
      ensures GoesThrough(api.mode) ==> ok
      ensures api.mode.Silent? && !old(api.down) ==> ok && !api.down && api.world.Shown() == old(api.world).Shown()
    {
      hide Rely, Reach, IsRun, ModeInv, Inv, Doable, EffectEnabled, KeptOpen, ApprovedRely, WritesLeft;
      var job := api.GetJob(name);
      ghost var w := api.world;
      if old(api.world).last.status.phase == Approved {
        RelyKeepsApproved(api.svc, old(api.world), w);
      }
      if job.Unavailable? {
        return false;
      }
      if job.Absent? {
        return true;
      }
      MayRollBack(api.svc, api.mode, api.world, name);
      ghost var at;
      ok, at := StopJob(api, name);
      RelyTransitive(api.svc, old(api.world), w, at);
      if old(api.world).last.status.phase == Approved {
        RelyKeepsApproved(api.svc, old(api.world), at);
        StoppingKeepsApproved(old(api.world), at, name);
      }
    }

    /** One reconcile, driven by whatever copy the cache shows. Nothing else is assumed of that copy: every
        claim about runs holds however stale it is. Undisturbed and with the cache caught up, it takes the
        request where it should go. */
    method Reconcile(answer: Assessment, accepts: bool) returns (r: Reply)
      requires api.Valid() && Wired(cfg, api.svc) && IsAnswer(answer)
      modifies api
      ensures api.Valid() && old(api.run) <= api.run && old(api.labels) <= api.labels
      ensures GoesThrough(api.mode) && old(api.Current()) && Runs.PhaseOf(old(api.world)) == Some(Approved)
              && (|| old(api.world).last.deleting || Sure(api.svc, old(api.world))
                  || (api.Unmeddled(|old(api.labels)|) && Due(old(api.world))))
              ==> Closer(api.svc, old(api.world).last, api.world)
      ensures api.mode.Silent? && old(api.Current()) && !old(api.world).last.deleting && LeftRunning(api.svc, old(api.world)) ==>
                r == RequeueAfter(5_000_000_000) && api.world == old(api.world)
      ensures api.mode.Silent? && !old(api.down) && old(api.Current()) && !old(api.world).gone ==>
                var sr := old(api.world).last;
                && (sr.deleting && sr.finalizer ==> api.world.gone)
                && (!sr.deleting && sr.status.phase == New ==>
                      !api.world.gone && FirstDecision(cfg, sr.spec, old(api.world).target, old(api.world).now, api.world.last.status))
                && (!sr.deleting && sr.status.phase == Pending ==>
                      if old(api.world).now >= (sr.createdAt + 3600) * 1_000_000_000
                      then Runs.PhaseOf(api.world) == Some(Expired)
                      else StillPending(sr, answer, accepts, old(api.world), api.world))
                && (!sr.deleting && sr.status.phase == Approved && Due(old(api.world)) ==>
                      Advanced(api.svc, sr, api.world))
    {
      hide Rely, Reach, IsRun, ModeInv, Inv, Wired, Sure, Due, Advanced, Closer, FirstDecision;
      api.WorldInv();
      DeletingIsFinalized(api.svc, api.world);
      var found := api.CachedRequest();
      if found.None? {
        return Nothing;
      }
      var sr := found.value;
      if sr.deleting {
        r := ReleaseDeleted(sr, api.cached);
        return;
      }
      match sr.status.phase
      case New => r := HandleNew(sr, api.cached);
      case Pending => r := HandlePending(sr, answer, accepts, api.cached);
      case Approved => r := HandleApproved();
      case _ => r := Nothing;
    }

    /** An approved request through any number of rounds of calls that go through: others move, the cache catches
        up, and unless there is something to wait for it is reconciled, others moving during the call as well.
        Every round is spent on a reconcile, or on waiting, or finds the request over or gone. At most seven
        reconciles are needed, five if nobody moves during them, and one more for each time that somebody
        touches what the executor's Job is made of. */
    method RunRounds(rounds: nat) returns (calls: nat, waits: nat)
      requires api.Valid() && Wired(cfg, api.svc) && GoesThrough(api.mode) && Runs.PhaseOf(api.world) == Some(Approved)
      modifies api
      ensures api.Valid() && old(api.run) <= api.run && old(api.labels) <= api.labels
      ensures calls + waits < rounds ==> IsDone(api.world)
      ensures calls <= 7 + Meddlings(api.labels) - Meddlings(old(api.labels))
      ensures api.mode.Silent? ==> calls <= 5 && (calls == 5 ==> IsDone(api.world))
    {
      hide Rely, Reach, IsRun, ModeInv, Inv, Wired, Ripe, StepsLeft, FirstDecision, Within, OnItsWay, Meddlings, Advanced, Closer;
      calls, waits := 0, 0;
      var round := 0;
      FromTheStart(api.svc, api.world);
      AnyIsWithinSix(api.svc, api.world);
      while round < rounds
        invariant api.Valid() && old(api.run) <= api.run && old(api.labels) <= api.labels
        invariant calls + waits <= round <= rounds && (calls + waits < round ==> IsDone(api.world))
        invariant Within(api.svc, api.world, 6 - calls + Meddlings(api.labels) - Meddlings(old(api.labels)))
        invariant calls <= 7 + Meddlings(api.labels) - Meddlings(old(api.labels))
        invariant api.mode.Silent? ==> calls <= 5 && OnItsWay(api.svc, api.world, calls)
      {
        OthersMove(calls, Meddlings(old(api.labels)));
        if IsRipe(api.world) {
          CallOnce(calls, Meddlings(old(api.labels)));
          calls := calls + 1;
        } else if !api.world.gone && !IsTerminal(api.world.last.status.phase) {
          waits := waits + 1;
        }
        round := round + 1;
      }
      if api.mode.Silent? {
        FiveIsTheEnd(api.svc, api.world, calls);
      }
    }

    method OthersMove(ghost calls: nat, ghost base: nat)
      requires api.Valid() && GoesThrough(api.mode) && Within(api.svc, api.world, 6 - calls + Meddlings(api.labels) - base)
      requires api.mode.Silent? ==> OnItsWay(api.svc, api.world, calls)
      modifies api
      ensures api.Valid() && old(api.run) <= api.run && old(api.labels) <= api.labels && api.Current()
      ensures Within(api.svc, api.world, 6 - calls + Meddlings(api.labels) - base)
      ensures Meddlings(old(api.labels)) <= Meddlings(api.labels)
      ensures api.mode.Silent? ==> OnItsWay(api.svc, api.world, calls)
      ensures IsDone(old(api.world)) ==> IsDone(api.world)
    {
      hide Rely, Reach, IsRun, ModeInv, Inv, StepsLeft, WritesLeft, Meddlings;
      ghost var w := api.world;
      api.BetweenCalls();
      MeddlingsGrow(old(api.labels), api.labels);
      StaysWithin(api.svc, w, api.world, 6 - calls + Meddlings(old(api.labels)) - base);
      StaysDone(api.svc, w, api.world);
      if api.mode.Silent? {
        StaysOnItsWay(api.svc, w, api.world, calls);
      }
      api.CatchUp();
    }

    method CallOnce(ghost calls: nat, ghost base: nat)
      requires api.Valid() && Wired(cfg, api.svc) && GoesThrough(api.mode) && api.Current() && IsRipe(api.world)
      requires Within(api.svc, api.world, 6 - calls + Meddlings(api.labels) - base)
      requires api.mode.Silent? ==> OnItsWay(api.svc, api.world, calls)
      modifies api
      ensures api.Valid() && old(api.run) <= api.run && old(api.labels) <= api.labels
      ensures Within(api.svc, api.world, 5 - calls + Meddlings(api.labels) - base)
      ensures calls + 1 <= 7 + Meddlings(api.labels) - base
      ensures api.mode.Silent? ==> calls + 1 <= 5 && OnItsWay(api.svc, api.world, calls + 1)
    {
      hide Rely, Reach, IsRun, ModeInv, Inv, Wired, Ripe, StepsLeft, WritesLeft, FirstDecision, Meddles;
      ghost var w := api.world;
      WithinIsNatural(api.svc, w, 6 - calls + Meddlings(api.labels) - base);
      api.WorldInv();
      DeletingIsFinalized(api.svc, w);
      var r := Reconcile(AssessmentFailed, false);
      MeddlingsGrow(old(api.labels), api.labels);
      Runs.RunReach(api.svc, api.run, api.labels, |old(api.run)| - 1, |api.run| - 1);
      LaterIsWithin(api.svc, w, api.world, 6 - calls + Meddlings(old(api.labels)) - base);
      if Closer(api.svc, w.last, api.world) {
        CloserIsWithin(api.svc, w, api.world, 6 - calls + Meddlings(old(api.labels)) - base);
      }
      WithinGrows(api.svc, api.world);
    }
  }
}
