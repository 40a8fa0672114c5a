/** How far an approved request is from its end, and what the two ways of storing a result agree on. */
module Progress {
  import opened Prelude
  import opened SudoTypes
  import opened Lifecycle
  import opened Invariants
  import opened Stability
  import opened Api
  import opened Pods
  import opened Executor
  import opened Writes

  /** Steps still to take: finalizer, names, Job UID, exit code. */
  function StepsLeft(svc: Service, sr: Request): nat {
    One(svc.crossNamespace(sr.spec) && !sr.finalizer) + One(sr.status.exec.jobName == "")
    + One(sr.status.exec.jobUid.None?) + One(sr.status.exitCode.None?)
  }

  /** The recorded Job has nothing left to wait for: it is gone or replaced, it or its executor has
      finished, or its start deadline has passed. Before it is recorded, nothing is in the way of
      creating it. */
  predicate Ripe(w: World, sr: Request) {
    var name, uid := sr.status.exec.jobName, sr.status.exec.jobUid;
    if uid.None? then !BeingDeleted(w, name)
    else
      name in w.jobs && w.jobs[name].uid == uid.value ==>
        var pod := JobPod(w, name, uid.value);
        || w.jobs[name].finished
        || ExecutorDone(w, name, uid.value)
        || StartOverdue(w.now, w.jobs[name], pod)
  }

  /** In Job and container states: no Job at the name is being deleted, or the recorded Job is gone, replaced,
      finished, has an exited executor, or has never started in time. */
  lemma RipeExactlyWhen(w: World, sr: Request)
    ensures
      var name, uid := sr.status.exec.jobName, sr.status.exec.jobUid;
      Ripe(w, sr) <==>
        if uid.None? then name in w.jobs ==> !w.jobs[name].terminating
        else
          || name !in w.jobs || w.jobs[name].uid != uid.value || w.jobs[name].finished
          || (exists c :: JobPod(w, name, uid.value).Some? && c in JobPod(w, name, uid.value).value.containers
                          && c.name == "executor" && c.state.Terminated?)
          || NeverStarted(w.now, w.jobs[name], JobPod(w, name, uid.value))
  {
    var name, uid := sr.status.exec.jobName, sr.status.exec.jobUid;
    if uid.Some? && name in w.jobs {
      OverdueExactlyWhen(w.now, w.jobs[name], JobPod(w, name, uid.value));
      hide NeverStarted, JobPod;
    }
  }

  lemma RipeUnrecorded(w: World, sr: Request)
    requires sr.status.exec.jobUid.None?
    ensures Ripe(w, sr) <==> !BeingDeleted(w, sr.status.exec.jobName)
  {
  }

  predicate ExecutorDone(w: World, name: string, uid: Uid) {
    var pod := JobPod(w, name, uid);
    pod.Some? && ExecutorTerminated(pod.value)
  }

  lemma DoneIsReportable(w: World, name: string, uid: Uid)
    requires ExecutorDone(w, name, uid)
    ensures Reportable(w, name, uid)
  {
    JobPodIsTheJobs(w, name, uid);
    ReportIsShown(w.pods, JobPod(w, name, uid).value);
  }

  /** From approved `sr`, the request ended or came nearer its end. */
  predicate Advanced(svc: Service, sr: Request, w: World) {
    && !w.gone
    && var now := w.last;
       || IsTerminal(now.status.phase)
       || (now.status.phase == Approved && StepsLeft(svc, now) < StepsLeft(svc, sr) && WritesLeft(now) <= WritesLeft(sr))
  }

  /** The same of a request that may be deleted meanwhile. */
  predicate Ahead(svc: Service, sr: Request, w: World) {
    w.gone || Advanced(svc, sr, w)
  }

  /** What a conflict takes away counts too. */
  function Distance(svc: Service, sr: Request): nat {
    StepsLeft(svc, sr) + WritesLeft(sr)
  }

  predicate Closer(svc: Service, sr: Request, w: World) {
    || w.gone || IsTerminal(w.last.status.phase)
    || (w.last.status.phase == Approved && Distance(svc, w.last) < Distance(svc, sr))
  }

  /** The recorded Job is gone, replaced or finished. */
  predicate JobOver(w: World, sr: Request) {
    var name := sr.status.exec.jobName;
    name in w.jobs && Some(w.jobs[name].uid) == sr.status.exec.jobUid ==> w.jobs[name].finished
  }

  /** There is something to do, and nothing others do takes it away: the finalizer or the names are missing,
      or the recorded Job is over. */
  predicate Steady(svc: Service, w: World, sr: Request) {
    || (svc.crossNamespace(sr.spec) && !sr.finalizer) || sr.status.exec.jobName == ""
    || (sr.status.exec.jobUid.Some? && JobOver(w, sr))
  }

  /** A reconcile has something to do: surely, or unless others change what the Job is made of. */
  predicate Sure(svc: Service, w: World) {
    !w.last.status.playbook.autoApproved && Steady(svc, w, w.last)
  }

  predicate Due(w: World) {
    w.last.status.playbook.autoApproved || Ripe(w, w.last)
  }

  /** An approved request whose executor is at work. */
  ghost predicate LeftRunning(svc: Service, w: World) {
    && !w.gone && w.last.status.phase == Approved && !w.last.status.playbook.autoApproved
    && (svc.crossNamespace(w.last.spec) ==> w.last.finalizer)
    && w.last.status.exec.jobName != "" && w.last.status.exec.jobUid.Some? && IsRunning(w, w.last)
  }

  lemma JobStaysOver(svc: Service, w: World, w': World, sr: Request)
    requires Inv(svc, w) && Rely(svc, w, w') && StillApproved(sr, w) && sr.status.exec.jobUid.Some?
    ensures JobOver(w, sr) ==> JobOver(w', sr)
  {
  }

  /** Waiting for the start only gets later. */
  lemma OverdueLater(svc: Service, w: World, w': World, job: Job, pod: Option<Pod>)
    requires Rely(svc, w, w')
    ensures StartOverdue(w.now, job, pod) ==> StartOverdue(w'.now, job, pod)
    ensures NeverStarted(w.now, job, pod) ==> NeverStarted(w'.now, job, pod)
  {
    OverdueExactlyWhen(w.now, job, pod);
    OverdueExactlyWhen(w'.now, job, pod);
    hide ExecutorStarted, WaitStart, NeverStarted;
  }

  lemma StaysRipe(svc: Service, w: World, w': World, sr: Request)
    requires Rely(svc, w, w')
    ensures SameExecutor(w, w') && Ripe(w, sr) ==> Ripe(w', sr)
  {
    hide FirstOwned, PodsLabelled, ExecutorTerminated, ExecutorStarted, WaitStart;
  }

  /** What an uncached read finds of it. */
  lemma StillToDo(svc: Service, w: World, w': World)
    requires Inv(svc, w) && Rely(svc, w, w') && IsApproved(w)
    ensures w'.last.status.phase == Approved
    ensures Sure(svc, w) ==> Sure(svc, w')
    ensures SameExecutor(w, w') && Due(w) ==> Due(w')
  {
    hide Inv, Ripe, JobOver, SameExecutor;
    ReadStays(svc, w, w');
    StaysRipe(svc, w, w', w.last);
    SameRipe(w', w.last, w'.last);
    if w.last.status.exec.jobUid.Some? {
      ReadIsCopy(svc, w);
      JobStaysOver(svc, w, w', w.last);
    }
  }

  lemma ReadStays(svc: Service, w: World, w': World)
    requires Rely(svc, w, w') && IsApproved(w)
    ensures
      && w'.last.status.phase == Approved && w'.last.status.exec == w.last.status.exec && w'.last.finalizer == w.last.finalizer
      && w'.last.status.playbook == w.last.status.playbook && w'.last.spec == w.last.spec
  {
    hide JobsRely, TokensRely;
  }

  lemma SameRipe(w: World, sr: Request, sr': Request)
    requires sr.status.exec == sr'.status.exec
    ensures Ripe(w, sr) == Ripe(w, sr') && JobOver(w, sr) == JobOver(w, sr')
  {
  }

  lemma ReadIsCopy(svc: Service, w: World)
    requires Inv(svc, w) && IsApproved(w)
    ensures StillApproved(w.last, w)
  {
    hide ResultInv, LinkInv, GateInv, TrailInv, SecretInv, JobInv;
  }

  lemma ReadLaterIsNoFarther(svc: Service, w: World, w': World, after: World)
    requires Rely(svc, w, w') && !w.gone && w.last.status.phase == Approved && Closer(svc, w'.last, after)
    ensures Closer(svc, w.last, after)
  {
  }

  /** A completion write made on top of the caller's own copy of the result stores what one made without
      it would. */
  lemma FinishAbsorbsResult(s: Status, code: int, output: Output)
    ensures MutateExec(Finish(code, output), Edited(Result(code, output), s)) == MutateExec(Finish(code, output), s)
  {
  }

  /** Not so the approval of a playbook: on the conflict path the resolution the handler had put into its own
      copy is dropped, so both paths agree exactly when it was stored already. */
  lemma PlaybookApprovalAbsorbsExactlyWhen(s: Status, m: ReviewWrite, r: Resolution)
    requires m.ApprovePlaybook?
    ensures MutateReview(m, Edited(Resolve(r), s)) == MutateReview(m, s) <==> s.resolution == r
  {
  }

  lemma RecordingAdvances(svc: Service, sr: Request, before: World, uid: Uid, w: World)
    requires StillApproved(sr, before) && sr.status.exec.jobUid.None?
    requires w.Shown() == Some(Stored(before.last, NoEdit, Exec(RecordUid(uid))))
    ensures Advanced(svc, sr, w)
  {
  }

  lemma MintingAdvances(svc: Service, sr: Request, before: World, job: string, stdin: string, w: World)
    requires StillApproved(sr, before) && sr.status.exec.jobName == "" && job != ""
    requires w.Shown() == Some(Stored(before.last, NoEdit, Exec(MintNames(job, stdin))))
    ensures Advanced(svc, sr, w)
  {
  }

  lemma CaptureAdvances(svc: Service, sr: Request, before: World, code: int, output: Output, w: World)
    requires StillApproved(sr, before) && sr.status.exitCode.None?
    requires w.Shown() == Some(Stored(before.last, NoEdit, Exec(Capture(code, output))))
    ensures Advanced(svc, sr, w)
  {
  }

  lemma FinalizerAdvances(svc: Service, w: World)
    requires !w.gone && w.last.status.phase == Approved
    requires svc.crossNamespace(w.last.spec) && !w.last.finalizer
    ensures Advanced(svc, w.last, AfterEffect(w, SetFinalizer))
  {
  }

  lemma ConflictIsCloser(svc: Service, sr: Request, w: World)
    requires StillApproved(sr, w) && w.last.version != sr.version
    ensures Closer(svc, sr, w)
  {
  }

  /** An approved request as others leave it. */
  predicate ApprovedRely(w: World, w': World) {
    && w'.last.status.phase == Approved && w'.last.status.exec == w.last.status.exec
    && w'.last.status.exitCode == w.last.status.exitCode
    && w'.last.finalizer == w.last.finalizer && w'.last.spec == w.last.spec
    && w.last.version <= w'.last.version
    && w'.last.version + WritesLeft(w'.last) <= w.last.version + WritesLeft(w.last)
  }

  lemma ReadIsApproved(w: World)
    ensures w.last.status.phase == Approved ==> ApprovedRely(w, w)
  {
  }

  lemma RelyKeepsApproved(svc: Service, w: World, w': World)
    requires Rely(svc, w, w') && w.last.status.phase == Approved
    ensures ApprovedRely(w, w')
  {
    hide JobsRely, TokensRely;
  }

  lemma StoppingKeepsApproved(w: World, w': World, name: string)
    requires ApprovedRely(w, w')
    ensures ApprovedRely(w, AfterEffect(w', DeleteJob(name)))
  {
  }

  lemma WrittenIsCloser(svc: Service, w: World, mid: World, w': World)
    requires ApprovedRely(w, mid) && (mid.last.status.phase == Approved ==> ApprovedRely(mid, w'))
    requires w'.last.version != w.last.version
    ensures Closer(svc, w.last, w')
  {
  }

  lemma OverIsCloser(svc: Service, sr: Request, w: World)
    ensures w.gone || IsTerminal(w.last.status.phase) ==> Closer(svc, sr, w) && (!w.gone ==> Advanced(svc, sr, w))
  {
  }

  ghost predicate IsApproved(w: World) {
    !w.gone && w.last.status.phase == Approved
  }

  /** Calls that found the request approved and took it from `before[i]` to `after[i]`, others moving in
      between. */
  ghost predicate AreCalls(svc: Service, before: seq<World>, after: seq<World>) {
    && |before| == |after|
    && (forall i :: 0 <= i < |before| ==> IsApproved(before[i]) && Advanced(svc, before[i].last, after[i]))
    && (forall i :: 0 < i < |before| ==> Rely(svc, after[i - 1], before[i]))
  }

  /** Nothing is left to wait for: the next error-free reconcile releases a deleted request, and advances
      any other. */
  predicate IsRipe(w: World) {
    !w.gone && w.last.status.phase == Approved && (w.last.deleting || w.last.status.playbook.autoApproved || Ripe(w, w.last))
  }

  ghost predicate IsDone(w: World) {
    w.gone || IsTerminal(w.last.status.phase)
  }

  /** `calls` of the at most five are behind it. */
  ghost predicate OnItsWay(svc: Service, w: World, calls: nat) {
    IsDone(w) || (w.last.status.phase == Approved && StepsLeft(svc, w.last) + calls <= 4)
  }

  lemma FromTheStart(svc: Service, w: World)
    requires w.last.status.phase == Approved
    ensures OnItsWay(svc, w, 0)
  {
  }

  /** At most `k` more calls that get on with it. */
  ghost predicate Within(svc: Service, w: World, k: int) {
    IsDone(w) || (w.last.status.phase == Approved && Distance(svc, w.last) <= k)
  }

  lemma AnyIsWithinSix(svc: Service, w: World)
    requires w.last.status.phase == Approved
    ensures Within(svc, w, 6)
  {
  }

  lemma StaysWithin(svc: Service, w: World, w': World, k: int)
    requires Rely(svc, w, w') && Within(svc, w, k)
    ensures Within(svc, w', k)
  {
    hide JobsRely, TokensRely;
  }

  lemma WithinGrows(svc: Service, w: World)
    ensures forall j, k :: j <= k && Within(svc, w, j) ==> Within(svc, w, k)
  {
  }

  /** Nothing that can happen to an approved request takes it farther from its end. */
  lemma LaterIsWithin(svc: Service, w: World, w': World, k: int)
    requires Reach(w, w') && Within(svc, w, k) && IsApproved(w)
    ensures Within(svc, w', k)
  {
    hide TrailReach, TokensReach;
  }

  lemma CloserIsWithin(svc: Service, w: World, w': World, k: int)
    requires Closer(svc, w.last, w') && Within(svc, w, k) && IsApproved(w)
    ensures Within(svc, w', k - 1)
  {
  }

  lemma WithinIsNatural(svc: Service, w: World, k: int)
    requires Within(svc, w, k) && IsApproved(w)
    ensures k >= 0
  {
  }

  /** How often somebody has touched what the executor's Jobs are made of. */
  ghost function Meddlings(labels: seq<Action>): nat {
    if labels == [] then 0
    else Meddlings(labels[..|labels| - 1]) + One(Meddles(labels[|labels| - 1]))
  }

  lemma {:induction false} MeddlingsGrow(labels: seq<Action>, more: seq<Action>)
    requires labels <= more
    ensures Meddlings(labels) <= Meddlings(more)
    ensures (exists k :: |labels| <= k < |more| && Meddles(more[k])) ==> Meddlings(labels) < Meddlings(more)
  {
    if labels == more {
    } else {
      var n := |more| - 1;
      assert labels <= more[..n];
      MeddlingsGrow(labels, more[..n]);
      forall k | |labels| <= k < |more| && Meddles(more[k])
        ensures Meddlings(labels) < Meddlings(more)
      {
        if k < n {
          assert Meddles(more[..n][k]);
        }
      }
    }
  }

  lemma StaysDone(svc: Service, w: World, w': World)
    requires Rely(svc, w, w')
    ensures IsDone(w) ==> IsDone(w')
  {
  }

  lemma FiveIsTheEnd(svc: Service, w: World, calls: nat)
    requires calls <= 5
    ensures OnItsWay(svc, w, calls) && calls == 5 ==> IsDone(w)
  {
  }

  lemma DeletingIsFinalized(svc: Service, w: World)
    requires Inv(svc, w)
    ensures w.last.deleting ==> w.last.finalizer
  {
  }

  lemma StaysOnItsWay(svc: Service, w: World, w': World, calls: nat)
    requires Rely(svc, w, w') && OnItsWay(svc, w, calls)
    ensures OnItsWay(svc, w', calls) && (IsDone(w) ==> IsDone(w'))
  {
  }

  lemma NextCallIsNearer(svc: Service, b: World, a: World, next: World)
    requires IsApproved(b) && Advanced(svc, b.last, a) && Rely(svc, a, next) && IsApproved(next)
    ensures StepsLeft(svc, next.last) < StepsLeft(svc, b.last)
  {
  }

  lemma {:induction false} CallsClimb(svc: Service, before: seq<World>, after: seq<World>, i: nat)
    requires AreCalls(svc, before, after) && i < |before|
    ensures StepsLeft(svc, before[i].last) + i <= 4
  {
    hide Rely, Advanced;
    if i > 0 {
      CallsClimb(svc, before, after, i - 1);
      NextCallIsNearer(svc, before[i - 1], after[i - 1], before[i]);
    }
  }

  /** A request is found approved at most five times by calls that advance it, and the fifth ends it. */
  lemma EndsWithinFiveCalls(svc: Service, before: seq<World>, after: seq<World>)
    requires AreCalls(svc, before, after)
    ensures |before| <= 5
    ensures |before| == 5 ==> IsTerminal(after[4].last.status.phase)
  {
    if |before| >= 5 {
      CallsClimb(svc, before, after, 4);
      if |before| > 5 {
        CallsClimb(svc, before, after, 5);
      }
    }
  }

  // ----- What the recorded Job's absence or presence means -----

  lemma StorableLater(svc: Service, mode: Mode, w: World, w': World, sr: Request, code: int, output: Output)
    requires Storable(svc, mode, w, sr, code, output) && Reach(w, w')
    ensures Storable(svc, mode, w', sr, code, output)
  {
    GenuineLater(svc, w, w', sr.status.exec.jobUid.value, code, output);
  }

  lemma RecordedIsStorable(svc: Service, mode: Mode, w0: World, w: World, sr: Request)
    requires Inv(svc, w0) && w0.Shown() == Some(sr) && Reach(w0, w)
    requires ModeInv(mode, w) && StillApproved(sr, w)
    requires !sr.status.playbook.autoApproved && sr.status.exitCode.Some?
    ensures Storable(svc, mode, w, sr, sr.status.exitCode.value, sr.status.output)
  {
  }

  /** A held Job that is gone was torn down with its result stored. */
  lemma TornDownHasResult(mode: Mode, w: World, sr: Request)
    requires ModeInv(mode, w) && StillApproved(sr, w) && sr.status.exec.jobName !in w.jobs
    ensures mode.SidecarHeld? ==> sr.status.exitCode.Some? && sr.status.output.capture != CaptureUnset
  {
  }

  lemma HeldJobIsTheJob(mode: Mode, w: World, sr: Request)
    requires ModeInv(mode, w) && StillApproved(sr, w) && sr.status.exec.jobName in w.jobs
    ensures
      mode.SidecarHeld? ==>
        var job := w.jobs[sr.status.exec.jobName];
        HeldOpen(w, mode.uid, mode.code) && job.uid == mode.uid && sr.status.exec.jobUid == Some(mode.uid) && !job.finished
  {
    hide OnlyThatExit;
  }

  lemma HeldPodIsDone(mode: Mode, w: World, w': World, sr: Request)
    requires KeptOpen(mode, w, w') && StillApproved(sr, w')
    requires mode.SidecarHeld? ==> HeldOpen(w, mode.uid, mode.code)
    ensures mode.SidecarHeld? ==> HeldOpen(w', mode.uid, mode.code) && ExecutorDone(w', sr.status.exec.jobName, mode.uid)
  {
    hide JobPod;
    if mode.SidecarHeld? {
      JobPodIsTheJobs(w', sr.status.exec.jobName, mode.uid);
      var pod := JobPod(w', sr.status.exec.jobName, mode.uid).value;
      assert ExecutorExited(pod, mode.code);
    }
  }

  /** A request without a playbook has no playbook approval, and an approved one passed validation. */
  lemma ApprovedFacts(svc: Service, mode: Mode, w: World, sr: Request)
    requires Inv(svc, w) && ModeInv(mode, w) && w.Shown() == Some(sr) && sr.status.phase == Approved
    ensures StillApproved(sr, w) && svc.accepted(sr.spec)
    ensures sr.status.playbook.autoApproved ==> sr.spec.playbook.Some? && !mode.SidecarHeld?
    ensures mode.SidecarHeld? ==> sr.status.exec.jobUid.Some?
    ensures sr.status.exec.jobUid.Some? ==> sr.status.exec.jobName != ""
  {
    hide GenuineResult, HeldOpen, OnlyThatExit, NoLiveOwnJob;
  }

  /** The finalizer goes on before any Job, and only onto a live object. */
  lemma MayAddFinalizer(svc: Service, mode: Mode, w0: World, sr: Request)
    requires StillApproved(sr, w0) && !sr.finalizer
    ensures forall w {:trigger Between(svc, Controller, w0, w)} ::
              Between(svc, Controller, w0, w) && w.Shown() == Some(sr) && Inv(svc, w) && ModeInv(mode, w)
              ==> Enabled(svc, w, Own(SetFinalizer)) && ModeInv(mode, Apply(svc, w, Own(SetFinalizer)))
  {
    forall w: World | w.Shown() == Some(sr) && Inv(svc, w) && ModeInv(mode, w)
      ensures Enabled(svc, w, Own(SetFinalizer)) && ModeInv(mode, Apply(svc, w, Own(SetFinalizer)))
    {
      StoringKeepsAll(svc, mode, w);
    }
  }

  lemma StoringKeepsAll(svc: Service, mode: Mode, w: World)
    requires Inv(svc, w) && ModeInv(mode, w) && !w.gone && w.last.status.phase == Approved && !w.last.finalizer
    ensures EffectEnabled(svc, w, SetFinalizer) && ModeInv(mode, AfterEffect(w, SetFinalizer))
  {
  }
}
