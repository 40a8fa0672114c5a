/** The environment of the two-phase teardown does occur: a run from a new request to a Job that a sidecar
    holds open after its executor exited. */
module TeardownRun {
  import opened Prelude
  import opened SudoTypes
  import opened Lifecycle
  import opened Api
  import opened Runs
  import opened PlaybookRuns

  const NAME := "sudo-exec-0"

  /** Approved, nothing minted, nothing running. */
  predicate Fresh(w: World) {
    && !w.gone && w.last.spec == w.spec && w.spec.playbook.None? && !w.last.deleting
    && w.last.status.phase == Approved && w.last.status.playbook == NO_PLAYBOOK
    && w.last.status.exitCode.None?
    && w.jobs == map[] && w.pods == [] && w.trail.exits == {} && w.trail.recorded.None? && w.outputs == map[]
  }

  predicate Minted(w: World) {
    Fresh(w) && w.last.status.exec == ExecState(NAME, "", None)
  }

  predicate Running(w: World, job: Job) {
    && Fresh(w.(jobs := map[])) && w.last.status.exec == ExecState(NAME, "", None)
    && w.jobs == map[NAME := job] && job.uid in w.trail.ours
  }

  predicate OnRecord(w: World, job: Job) {
    && !w.gone && !w.last.deleting && w.last.status.phase == Approved && w.last.status.playbook == NO_PLAYBOOK
    && w.last.status.exitCode.None? && w.last.status.exec == ExecState(NAME, "", Some(job.uid))
    && w.jobs == map[NAME := job] && w.pods == [] && w.trail.exits == {} && w.outputs == map[]
  }

  /** Nothing of the result is stored yet. */
  predicate NoResult(w: World) {
    w.last.status.phase == Approved && w.last.status.exitCode.None? && w.outputs == map[]
  }

  function ExitedPod(uid: Uid, code: int): Pod {
    Pod(uid, NAME, [ContainerStatus("executor", Terminated(code, 0)), ContainerStatus("sidecar", ContainerState.Running)], [])
  }

  lemma ApproveStep(svc: Service, w: World, r: Resolution)
    requires Initial(svc, w) && w.spec.playbook.None? && !svc.crossNamespace(w.spec) && w.pods == []
    requires svc.accepted(w.spec) && ResolvesTo(svc, w.spec, r) && svc.gate(w.spec, r.image).Some?
    ensures
      var a := Write(Resolve(r), Review(AutoApprove(w.now)));
      && Enabled(svc, w, a) && Fresh(Apply(svc, w, a)) && Apply(svc, w, a).spec == w.spec
      && Apply(svc, w, a).last.status.exec == ExecState("", "", None) && Apply(svc, w, a).trail.uids == w.trail.uids
  {
    assert ExitsOf([]) == {};
  }

  lemma MintStep(svc: Service, w: World)
    requires Fresh(w) && !svc.crossNamespace(w.spec) && w.last.status.exec == ExecState("", "", None)
    ensures
      var a := Write(NoEdit, Exec(MintNames(NAME, "")));
      && Enabled(svc, w, a) && Minted(Apply(svc, w, a))
      && Apply(svc, w, a).spec == w.spec && Apply(svc, w, a).trail.uids == w.trail.uids
  {
  }

  lemma CreateStep(svc: Service, w: World, job: Job)
    requires Minted(w) && !svc.crossNamespace(w.spec)
    requires job.uid !in w.trail.uids && !job.finished && !job.terminating && svc.jobFor(w.last, NAME) == Some(job.spec)
    ensures
      var a := Own(CreateJob(NAME, job));
      Enabled(svc, w, a) && Running(Apply(svc, w, a), job) && Apply(svc, w, a).spec == w.spec
  {
  }

  lemma RecordStep(svc: Service, w: World, job: Job)
    requires Running(w, job)
    ensures
      var a := Write(NoEdit, Exec(RecordUid(job.uid)));
      Enabled(svc, w, a) && OnRecord(Apply(svc, w, a), job) && Apply(svc, w, a).spec == w.spec
  {
  }

  lemma ExitStep(svc: Service, w: World, job: Job, code: int)
    requires OnRecord(w, job) && !job.finished
    ensures
      var a := Outside(PodsChange([ExitedPod(job.uid, code)]));
      && Enabled(svc, w, a)
      && TwoPhase(Apply(svc, w, a), job.uid, code) && HeldOpen(Apply(svc, w, a), job.uid, code)
      && NoResult(Apply(svc, w, a))
  {
    var pod := ExitedPod(job.uid, code);
    var w' := Apply(svc, w, Outside(PodsChange([pod])));
    assert pod in w'.pods && pod.containers[0] in pod.containers;
    assert ExecutorExited(pod, code);
  }

  /** Every exit code can be the one a sidecar's teardown starts from. */
  lemma HeldRun(svc: Service, w: World, r: Resolution, uid: Uid, code: int) returns (run: seq<World>, labels: seq<Action>)
    requires Initial(svc, w) && w.spec.playbook.None? && !svc.crossNamespace(w.spec) && w.pods == []
    requires svc.accepted(w.spec) && ResolvesTo(svc, w.spec, r) && svc.gate(w.spec, r.image).Some?
    requires uid !in w.trail.uids
    requires forall sr: Request, name {:trigger svc.jobFor(sr, name)} :: sr.spec == w.spec ==> svc.jobFor(sr, name).Some?
    ensures IsRun(svc, run, labels) && run[0] == w
    ensures TwoPhase(run[|run| - 1], uid, code) && HeldOpen(run[|run| - 1], uid, code)
    ensures NoResult(run[|run| - 1])
  {
    hide Initial, Enabled, Apply, TwoPhase, HeldOpen, NoResult, ResolvesTo, Fresh, Minted, Running, OnRecord;
    InitialIsARun(svc, w);
    run, labels := [w], [];
    ApproveStep(svc, w, r);
    run, labels := Then(svc, run, labels, Write(Resolve(r), Review(AutoApprove(w.now))));
    MintStep(svc, run[1]);
    run, labels := Then(svc, run, labels, Write(NoEdit, Exec(MintNames(NAME, ""))));
    MintedRequest(run[2]);
    var job := Job(uid, JobOf(svc, run[2]), 0, false, false);
    CreateStep(svc, run[2], job);
    run, labels := Then(svc, run, labels, Own(CreateJob(NAME, job)));
    RecordStep(svc, run[3], job);
    run, labels := Then(svc, run, labels, Write(NoEdit, Exec(RecordUid(uid))));
    ExitStep(svc, run[4], job, code);
    run, labels := Then(svc, run, labels, Outside(PodsChange([ExitedPod(uid, code)])));
  }

  lemma MintedRequest(w: World)
    requires Minted(w)
    ensures !w.gone && w.last.spec == w.spec
  {
  }

  lemma InitialIsARun(svc: Service, w: World)
    requires Initial(svc, w)
    ensures IsRun(svc, [w], [])
  {
  }

  function JobOf(svc: Service, w: World): JobSpec
    requires !w.gone && svc.jobFor(w.last, NAME).Some?
  {
    svc.jobFor(w.last, NAME).value
  }
}
