/** When the reconciler may make each of its writes: what it knows from its own reads survives whatever
    others do before the write lands. */
module Writes {
  import opened Prelude
  import opened SudoTypes
  import opened Lifecycle
  import opened Invariants
  import opened Stability
  import opened Api

  /** Whatever others do meanwhile, the mutator may be applied to the status then stored. */
  ghost predicate Writable(svc: Service, mode: Mode, w0: World, m: Mutation) {
    forall w {:trigger Rely(svc, w0, w)} :: Rely(svc, w0, w) && !w.gone && Inv(svc, w) && ModeInv(mode, w) ==>
      MayWrite(svc, w, NoEdit, m) && ModeInv(mode, AfterWrite(w, NoEdit, m))
  }

  /** And so may the copy `sr` with the caller's edits, should it still be current. */
  ghost predicate WritableCopy(svc: Service, mode: Mode, w0: World, sr: Request, e: Edit, m: Mutation) {
    forall w {:trigger Rely(svc, w0, w)} :: Rely(svc, w0, w) && w.Shown() == Some(sr) && Inv(svc, w) && ModeInv(mode, w) ==>
      MayWrite(svc, w, e, m) && ModeInv(mode, AfterWrite(w, e, m))
  }

  lemma WritableLater(svc: Service, mode: Mode, w0: World, w1: World, m: Mutation)
    requires Writable(svc, mode, w0, m) && Rely(svc, w0, w1)
    ensures Writable(svc, mode, w1, m)
  {
    forall w | Rely(svc, w1, w)
      ensures Rely(svc, w0, w)
    {
      RelyTransitive(svc, w0, w1, w);
    }
  }

  lemma CopyMayBeStored(svc: Service, mode: Mode, w0: World, sr: Request, e: Edit, m: Mutation)
    requires WritableCopy(svc, mode, w0, sr, e, m)
    ensures forall w {:trigger Between(svc, Controller, w0, w)} ::
              Between(svc, Controller, w0, w) && w.Shown() == Some(sr) && Inv(svc, w) && ModeInv(mode, w)
              ==> Enabled(svc, w, Write(e, m)) && ModeInv(mode, Apply(svc, w, Write(e, m)))
  {
    hide Inv, MayWrite, ModeInv, Rely, AfterWrite;
    forall w | Between(svc, Controller, w0, w) && w.Shown() == Some(sr) && Inv(svc, w) && ModeInv(mode, w)
      ensures Enabled(svc, w, Write(e, m)) && ModeInv(mode, Apply(svc, w, Write(e, m)))
    {
      assert Rely(svc, w0, w);
    }
  }

  lemma AnyMayBeStored(svc: Service, mode: Mode, w0: World, sr: Request, m: Mutation)
    requires Writable(svc, mode, w0, m)
    ensures WritableCopy(svc, mode, w0, sr, NoEdit, m)
  {
    hide Inv, MayWrite, ModeInv, Rely, AfterWrite;
  }

  /** The object as one status write leaves it. */
  function Stored(sr: Request, e: Edit, m: Mutation): Request {
    sr.(version := sr.version + 1, status := Mutate(m, Edited(e, sr.status)))
  }

  lemma StoredIs(w: World, e: Edit, m: Mutation)
    requires !w.gone
    ensures AfterWrite(w, e, m).Shown() == Some(Stored(w.last, e, m))
  {
    hide MutateReview, MutateExec, MutateNote, Edited;
    match m
    case Review(r) => match r { case Pend(_, _) => case _ => }
    case _ =>
  }

  // ----- Knowledge that lasts -----

  /** `sr` is what an uncached read of an approved request showed; since then only the forward link, the
      deletion mark and the version can have changed, leaving fewer changes still to come, or the object
      can be gone. */
  ghost predicate StillApproved(sr: Request, w: World) {
    && sr.status.phase == Approved && sr.spec == w.spec && w.trail.recorded == sr.status.exec.jobUid
    && (w.gone ==> !sr.finalizer)
    && sr.version <= w.last.version && w.last.version + WritesLeft(w.last) <= sr.version + WritesLeft(sr)
    && var now := w.last;
       now == sr.(version := now.version, deleting := now.deleting,
                  status := sr.status.(supersededBy := now.status.supersededBy))
  }

  lemma ApprovedCopy(sr: Request, w: World)
    requires StillApproved(sr, w)
    ensures sr.status.phase == Approved && w.spec == sr.spec
  {
  }

  lemma ApprovalLasts(svc: Service, sr: Request, w: World, w': World)
    requires StillApproved(sr, w) && Rely(svc, w, w')
    ensures StillApproved(sr, w')
  {
  }

  /** No unfinished Job of ours at the name. */
  ghost predicate NameQuiet(w: World, name: string) {
    name in w.jobs && w.jobs[name].uid in w.trail.ours ==> w.jobs[name].finished
  }

  lemma NameStaysQuiet(svc: Service, w: World, w': World, name: string)
    requires Inv(svc, w) && Rely(svc, w, w')
    ensures NameQuiet(w, name) ==> NameQuiet(w', name)
  {
  }

  /** No Job of ours at the name at all. */
  ghost predicate NameClear(w: World, name: string) {
    name in w.jobs ==> w.jobs[name].uid !in w.trail.ours
  }

  lemma NameStaysClear(svc: Service, w: World, w': World, name: string)
    requires Inv(svc, w) && NameClear(w, name) && Rely(svc, w, w')
    ensures NameClear(w', name)
  {
  }

  lemma GenuineLater(svc: Service, w: World, w': World, uid: Uid, code: int, output: Output)
    requires GenuineResult(svc, w.trail.exits, w.trail.logs, uid, code, output) && Reach(w, w')
    ensures GenuineResult(svc, w'.trail.exits, w'.trail.logs, uid, code, output)
  {
    GenuineResultLasts(svc, w, w', uid, code, output);
  }

  // ----- Keeping the two phases of a teardown -----

  lemma CaptureKeepsMode(mode: Mode, w: World, code: int, output: Output)
    requires ModeInv(mode, w) && !w.gone && w.last.status.phase == Approved
    requires output.capture != CaptureUnset && (mode.SidecarHeld? ==> code == mode.code)
    ensures ModeInv(mode, AfterExec(w, NoEdit, Capture(code, output)))
  {
  }

  lemma FinishKeepsMode(mode: Mode, w: World, e: Edit, code: int, output: Output)
    requires ModeInv(mode, w) && !w.gone && w.last.status.phase == Approved
    requires e == NoEdit || e == Result(code, output)
    requires output.capture != CaptureUnset && (mode.SidecarHeld? ==> code == mode.code)
    ensures ModeInv(mode, AfterExec(w, e, Finish(code, output)))
  {
    hide HeldOpen;
  }

  lemma StopKeepsMode(mode: Mode, w: World)
    requires ModeInv(mode, w) && !w.gone && w.last.status.phase == Approved
    requires mode.SidecarHeld? ==> w.last.status.exitCode.Some?
    ensures ModeInv(mode, AfterEffect(w, DeleteJob(w.last.status.exec.jobName)))
  {
    hide HeldOpen;
  }

  /** What the trail knows it goes on knowing. */
  lemma TrailGrows(svc: Service, w: World, w': World)
    requires Rely(svc, w, w')
    ensures Subset(w.trail.ours, w'.trail.ours) && Subset(w.trail.logs, w'.trail.logs) && Subset(w.trail.pinned, w'.trail.pinned)
  {
  }

  // ----- The writes of an approved request -----

  lemma MayMint(svc: Service, mode: Mode, w0: World, sr: Request, job: string, stdin: string)
    requires StillApproved(sr, w0) && !sr.status.playbook.autoApproved && job != "" && !mode.SidecarHeld?
    requires svc.crossNamespace(w0.spec) ==> sr.finalizer
    ensures Writable(svc, mode, w0, Exec(MintNames(job, stdin)))
  {
    hide Inv, Rely, ModeInv, AfterExec;
    forall w | Rely(svc, w0, w) && !w.gone
      ensures MayWrite(svc, w, NoEdit, Exec(MintNames(job, stdin)))
      ensures ModeInv(mode, AfterWrite(w, NoEdit, Exec(MintNames(job, stdin))))
    {
      ApprovalLasts(svc, sr, w0, w);
      NotHeld(mode, AfterWrite(w, NoEdit, Exec(MintNames(job, stdin))));
    }
  }

  lemma MayRecord(svc: Service, mode: Mode, w0: World, sr: Request, uid: Uid)
    requires StillApproved(sr, w0) && !sr.status.playbook.autoApproved && !mode.SidecarHeld?
    requires sr.status.exec.jobName != "" && uid in w0.trail.ours
    ensures Writable(svc, mode, w0, Exec(RecordUid(uid)))
  {
    hide Inv, Rely, ModeInv, AfterExec;
    forall w | Rely(svc, w0, w) && !w.gone
      ensures MayWrite(svc, w, NoEdit, Exec(RecordUid(uid))) && ModeInv(mode, AfterWrite(w, NoEdit, Exec(RecordUid(uid))))
    {
      ApprovalLasts(svc, sr, w0, w);
      TrailGrows(svc, w0, w);
      NotHeld(mode, AfterWrite(w, NoEdit, Exec(RecordUid(uid))));
    }
  }

  lemma NoJobWithoutName(svc: Service, w: World)
    requires Inv(svc, w) && !w.gone && w.last.status.exec.jobName == ""
    ensures NoLiveOwnJob(w)
  {
  }

  lemma MayFail(svc: Service, mode: Mode, w0: World, sr: Request, reason: string)
    requires StillApproved(sr, w0) && Inv(svc, w0) && !mode.SidecarHeld?
    requires sr.status.playbook.autoApproved || sr.status.exec.jobName == "" || NameQuiet(w0, sr.status.exec.jobName)
    ensures Writable(svc, mode, w0, Exec(Fail(reason)))
  {
    hide Inv, Rely, ModeInv, AfterExec;
    forall w | Rely(svc, w0, w) && !w.gone && Inv(svc, w)
      ensures MayWrite(svc, w, NoEdit, Exec(Fail(reason))) && ModeInv(mode, AfterWrite(w, NoEdit, Exec(Fail(reason))))
    {
      ApprovalLasts(svc, sr, w0, w);
      if sr.status.exec.jobName == "" {
        NoJobWithoutName(svc, w);
      } else {
        NameStaysQuiet(svc, w0, w, sr.status.exec.jobName);
      }
      NotHeld(mode, AfterWrite(w, NoEdit, Exec(Fail(reason))));
    }
  }

  lemma MayFinishPlaybook(svc: Service, mode: Mode, w0: World, sr: Request)
    requires StillApproved(sr, w0) && sr.status.playbook.autoApproved && !mode.SidecarHeld?
    ensures Writable(svc, mode, w0, Exec(FinishPlaybook))
  {
    hide Inv, Rely, ModeInv, AfterExec;
    forall w | Rely(svc, w0, w) && !w.gone
      ensures MayWrite(svc, w, NoEdit, Exec(FinishPlaybook)) && ModeInv(mode, AfterWrite(w, NoEdit, Exec(FinishPlaybook)))
    {
      ApprovalLasts(svc, sr, w0, w);
      NotHeld(mode, AfterWrite(w, NoEdit, Exec(FinishPlaybook)));
    }
  }

  /** A result the reconciler may store: genuine, and in the sidecar's environment the executor's. */
  ghost predicate Storable(svc: Service, mode: Mode, w: World, sr: Request, code: int, output: Output) {
    && !sr.status.playbook.autoApproved && sr.status.exec.jobUid.Some?
    && GenuineResult(svc, w.trail.exits, w.trail.logs, sr.status.exec.jobUid.value, code, output)
    && (mode.SidecarHeld? ==> code == mode.code)
  }

  lemma CaptureAllowed(svc: Service, w0: World, w: World, sr: Request, code: int, output: Output)
    requires StillApproved(sr, w0) && Rely(svc, w0, w) && !w.gone
    requires Storable(svc, Hostile, w0, sr, code, output)
    ensures w.last.status.phase == Approved && MayExecute(svc, w, NoEdit, Capture(code, output))
  {
  }

  lemma MayCapture(svc: Service, mode: Mode, w0: World, sr: Request, code: int, output: Output)
    requires StillApproved(sr, w0) && Storable(svc, mode, w0, sr, code, output)
    ensures Writable(svc, mode, w0, Exec(Capture(code, output)))
  {
    hide Inv, ModeInv, Rely, MayExecute, AfterExec, StillApproved;
    forall w | Rely(svc, w0, w) && !w.gone && Inv(svc, w) && ModeInv(mode, w)
      ensures MayWrite(svc, w, NoEdit, Exec(Capture(code, output)))
      ensures ModeInv(mode, AfterWrite(w, NoEdit, Exec(Capture(code, output))))
    {
      CaptureAllowed(svc, w0, w, sr, code, output);
      CaptureKeepsMode(mode, w, code, output);
    }
  }

  lemma RelyGrows(svc: Service, w: World, w': World, uid: Uid, code: int, output: Output)
    requires GenuineResult(svc, w.trail.exits, w.trail.logs, uid, code, output) && Rely(svc, w, w')
    ensures GenuineResult(svc, w'.trail.exits, w'.trail.logs, uid, code, output)
  {
    GenuineLater(svc, w, w', uid, code, output);
  }

  lemma MayFinish(svc: Service, mode: Mode, w0: World, sr: Request, code: int, output: Output)
    requires StillApproved(sr, w0) && Storable(svc, mode, w0, sr, code, output)
    requires Inv(svc, w0) && NameQuiet(w0, sr.status.exec.jobName)
    ensures Writable(svc, mode, w0, Exec(Finish(code, output)))
    ensures WritableCopy(svc, mode, w0, sr, Result(code, output), Exec(Finish(code, output)))
  {
    hide Inv, ModeInv, Rely, AfterExec;
    forall w | Rely(svc, w0, w) && !w.gone && Inv(svc, w) && ModeInv(mode, w)
      ensures MayWrite(svc, w, NoEdit, Exec(Finish(code, output)))
      ensures MayWrite(svc, w, Result(code, output), Exec(Finish(code, output)))
      ensures ModeInv(mode, AfterWrite(w, NoEdit, Exec(Finish(code, output))))
      ensures ModeInv(mode, AfterWrite(w, Result(code, output), Exec(Finish(code, output))))
    {
      ApprovalLasts(svc, sr, w0, w);
      NameStaysQuiet(svc, w0, w, sr.status.exec.jobName);
      RelyGrows(svc, w0, w, sr.status.exec.jobUid.value, code, output);
      FinishKeepsMode(mode, w, NoEdit, code, output);
      FinishKeepsMode(mode, w, Result(code, output), code, output);
    }
  }

  // ----- Other effects -----

  /** Whatever others do meanwhile, the effect may be had if the apiserver would grant it. */
  ghost predicate Doable(svc: Service, mode: Mode, w0: World, e: Effect) {
    forall w {:trigger Rely(svc, w0, w)} :: Rely(svc, w0, w) && Verdict(w, e).Done? && Inv(svc, w) && ModeInv(mode, w) ==>
      EffectEnabled(svc, w, e) && ModeInv(mode, AfterEffect(w, e))
  }

  lemma EffectMayBeDone(svc: Service, mode: Mode, w0: World, e: Effect)
    requires Doable(svc, mode, w0, e)
    ensures forall w {:trigger Between(svc, Controller, w0, w)} ::
              Between(svc, Controller, w0, w) && Verdict(w, e).Done? && Inv(svc, w) && ModeInv(mode, w)
              ==> EffectEnabled(svc, w, e) && ModeInv(mode, AfterEffect(w, e))
  {
  }

  /** The Job may be torn down; one the sidecar holds open only with the result stored. */
  lemma MayStopJob(svc: Service, mode: Mode, w0: World, sr: Request)
    requires StillApproved(sr, w0) && (mode.SidecarHeld? ==> sr.status.exitCode.Some?)
    ensures Doable(svc, mode, w0, DeleteJob(sr.status.exec.jobName))
  {
    hide Inv, Rely, ModeInv, AfterEffect;
    var name := sr.status.exec.jobName;
    forall w | Rely(svc, w0, w) && Verdict(w, DeleteJob(name)).Done? && ModeInv(mode, w)
      ensures EffectEnabled(svc, w, DeleteJob(name)) && ModeInv(mode, AfterEffect(w, DeleteJob(name)))
    {
      ApprovalLasts(svc, sr, w0, w);
      if !w.gone {
        StopKeepsMode(mode, w);
      } else {
        NoRequestNoTeardown(mode, w);
        NotHeld(mode, AfterEffect(w, DeleteJob(name)));
      }
    }
  }

  lemma MayRollBack(svc: Service, mode: Mode, w0: World, name: string)
    requires !mode.SidecarHeld?
    ensures Doable(svc, mode, w0, DeleteJob(name))
  {
    hide Rely, Inv;
  }

  lemma NoRequestNoTeardown(mode: Mode, w: World)
    requires ModeInv(mode, w) && w.gone
    ensures !mode.SidecarHeld?
  {
  }

  lemma MayPutOutput(svc: Service, mode: Mode, w0: World, sr: Request, name: string, fact: LogFact)
    requires StillApproved(sr, w0) && fact in w0.trail.logs && sr.status.exec.jobUid == Some(fact.owner)
    ensures Doable(svc, mode, w0, PutOutput(name, fact))
  {
    hide Inv, Rely, TwoPhase;
    forall w | Rely(svc, w0, w) && Verdict(w, PutOutput(name, fact)).Done? && ModeInv(mode, w)
      ensures EffectEnabled(svc, w, PutOutput(name, fact)) && ModeInv(mode, AfterEffect(w, PutOutput(name, fact)))
    {
      ApprovalLasts(svc, sr, w0, w);
      TrailGrows(svc, w0, w);
      FrameKeepsMode(mode, w, AfterEffect(w, PutOutput(name, fact)));
    }
  }

  lemma MayPutStdin(svc: Service, mode: Mode, w0: World, name: string, payload: StdinSecret)
    ensures Doable(svc, mode, w0, PutStdin(name, payload))
  {
    hide Rely, Inv;
  }

  lemma MayDeleteTarget(svc: Service, mode: Mode, w0: World, sr: Request, uid: Uid)
    requires StillApproved(sr, w0) && uid in w0.trail.pinned && !mode.SidecarHeld?
    requires sr.status.playbook == PlaybookState(true, Some(uid), false)
    ensures Doable(svc, mode, w0, DeleteTarget(uid))
  {
    hide Inv, Rely, ModeInv, AfterEffect;
    forall w | Rely(svc, w0, w)
      ensures EffectEnabled(svc, w, DeleteTarget(uid)) && ModeInv(mode, AfterEffect(w, DeleteTarget(uid)))
    {
      ApprovalLasts(svc, sr, w0, w);
      TrailGrows(svc, w0, w);
      NotHeld(mode, AfterEffect(w, DeleteTarget(uid)));
    }
  }

  lemma StoredTargetWasPinned(svc: Service, w0: World, w: World, sr: Request, uid: Uid)
    requires Inv(svc, w0) && w0.Shown() == Some(sr) && Reach(w0, w)
    requires sr.status.playbook.targetUid == Some(uid)
    ensures uid in w.trail.pinned
  {
    assert uid in w0.trail.pinned;
  }
}
