/** Reading the executor pod (executor.go): which pod is the Job's, what it says about the outcome, and
    when it counts as never started. */
module Pods {
  import opened Prelude
  import opened SudoTypes
  import opened Lifecycle
  import opened Api

  /** The first listed pod the Job controls. */
  function FirstOwned(pods: seq<Pod>, uid: Uid): Option<Pod> {
    if pods == [] then None else if pods[0].owner == uid then Some(pods[0]) else FirstOwned(pods[1..], uid)
  }

  function JobPod(w: World, name: string, uid: Uid): Option<Pod> {
    FirstOwned(PodsLabelled(w.pods, name), uid)
  }

  method FindOwned(pods: seq<Pod>, uid: Uid) returns (pod: Option<Pod>)
    ensures pod == FirstOwned(pods, uid)
  {
    for i := 0 to |pods|
      invariant FirstOwned(pods, uid) == FirstOwned(pods[i..], uid)
    {
      if pods[i].owner == uid {
        return Some(pods[i]);
      }
      assert pods[i..][1..] == pods[i + 1..];
    }
    return None;
  }

  lemma {:induction false} FirstOwnedIsListed(pods: seq<Pod>, uid: Uid)
    ensures FirstOwned(pods, uid).Some? ==> FirstOwned(pods, uid).value in pods && FirstOwned(pods, uid).value.owner == uid
    ensures FirstOwned(pods, uid).None? ==> forall p :: p in pods ==> p.owner != uid
  {
    if pods != [] && pods[0].owner != uid {
      FirstOwnedIsListed(pods[1..], uid);
    }
  }

  lemma {:induction false} LabelledAreListed(pods: seq<Pod>, name: string)
    ensures forall p :: p in PodsLabelled(pods, name) <==> p in pods && p.job == name
  {
    if pods != [] {
      LabelledAreListed(pods[1..], name);
    }
  }

  /** getJobPod finds a pod exactly when the Job has one, and only ever one of the Job's own. */
  lemma JobPodIsTheJobs(w: World, name: string, uid: Uid)
    ensures JobPod(w, name, uid).Some? <==> exists p :: p in w.pods && p.owner == uid && p.job == name
    ensures JobPod(w, name, uid).Some? ==>
              var p := JobPod(w, name, uid).value; p in w.pods && p.owner == uid && p.job == name
  {
    LabelledAreListed(w.pods, name);
    FirstOwnedIsListed(PodsLabelled(w.pods, name), uid);
  }

  predicate ExecutorTerminated(pod: Pod) {
    exists c :: c in pod.containers && c.name == "executor" && c.state.Terminated?
  }

  predicate ExecutorStarted(pod: Pod) {
    exists c :: c in pod.containers && c.name == "executor" && !c.state.Waiting?
  }

  // ----- containerToReport -----

  function FirstExecutorExit(cs: seq<ContainerStatus>): Option<int> {
    if cs == [] then None
    else if cs[0].name == "executor" && cs[0].state.Terminated? then Some(cs[0].state.code)
    else FirstExecutorExit(cs[1..])
  }

  function FirstFailedInit(cs: seq<ContainerStatus>): Option<(string, int)> {
    if cs == [] then None
    else if cs[0].state.Terminated? && cs[0].state.code != 0 then Some((cs[0].name, cs[0].state.code))
    else FirstFailedInit(cs[1..])
  }

  /** The executor's exit if it has one, else the failed init container that kept it from starting. */
  function ContainerToReport(pod: Pod): Option<(string, int)> {
    var executor := FirstExecutorExit(pod.containers);
    if executor.Some? then Some(("executor", executor.value)) else FirstFailedInit(pod.inits)
  }

  lemma {:induction false} ExecutorExitFound(cs: seq<ContainerStatus>)
    ensures FirstExecutorExit(cs).Some? <==> exists c :: c in cs && c.name == "executor" && c.state.Terminated?
    ensures FirstExecutorExit(cs).Some? ==>
              exists c :: c in cs && c.name == "executor" && c.state.Terminated? && c.state.code == FirstExecutorExit(cs).value
  {
    if cs != [] && !(cs[0].name == "executor" && cs[0].state.Terminated?) {
      ExecutorExitFound(cs[1..]);
    }
  }

  /** The init container whose exit is reported is the first that failed. */
  lemma {:induction false} FirstFailureIsReported(cs: seq<ContainerStatus>)
    ensures FirstFailedInit(cs).Some? <==> exists c :: c in cs && c.state.Terminated? && c.state.code != 0
    ensures FirstFailedInit(cs).Some? ==>
              exists i :: 0 <= i < |cs| && cs[i].state.Terminated? && cs[i].state.code != 0
                          && FirstFailedInit(cs).value == (cs[i].name, cs[i].state.code)
                          && forall j :: 0 <= j < i ==> !(cs[j].state.Terminated? && cs[j].state.code != 0)
  {
    if cs != [] && !(cs[0].state.Terminated? && cs[0].state.code != 0) {
      FirstFailureIsReported(cs[1..]);
      if FirstFailedInit(cs[1..]).Some? {
        var i :| 0 <= i < |cs[1..]| && cs[1..][i].state.Terminated? && cs[1..][i].state.code != 0
                 && FirstFailedInit(cs[1..]).value == (cs[1..][i].name, cs[1..][i].state.code)
                 && forall j :: 0 <= j < i ==> !(cs[1..][j].state.Terminated? && cs[1..][j].state.code != 0);
        assert cs[i + 1] == cs[1..][i];
        assert forall j :: 0 < j < i + 1 ==> cs[j] == cs[1..][j - 1];
      }
    }
  }

  lemma {:induction false} FailedInitFound(cs: seq<ContainerStatus>)
    ensures FirstFailedInit(cs).Some? ==>
              exists c :: c in cs && c.state.Terminated? && c.state.code != 0 && FirstFailedInit(cs).value == (c.name, c.state.code)
  {
    if cs != [] && !(cs[0].state.Terminated? && cs[0].state.code != 0) {
      FailedInitFound(cs[1..]);
    }
  }

  /** A reported exit is one the pod shows; the executor's is reported whenever there is one. */
  lemma ReportIsShown(pods: seq<Pod>, pod: Pod)
    requires pod in pods
    ensures ContainerToReport(pod).Some? ==>
              ExitFact(pod.owner, ContainerToReport(pod).value.0, ContainerToReport(pod).value.1) in ExitsOf(pods)
    ensures ExecutorTerminated(pod) <==> ContainerToReport(pod).Some? && FirstExecutorExit(pod.containers).Some?
    ensures ExecutorTerminated(pod) ==> ContainerToReport(pod).value.0 == "executor"
  {
    ExecutorExitFound(pod.containers);
    FailedInitFound(pod.inits);
    var report := ContainerToReport(pod);
    if report.Some? {
      var c :| c in pod.containers + pod.inits && c.state.Terminated? && report.value == (c.name, c.state.code);
      assert ExitFact(pod.owner, c.name, c.state.code) in ExitsOf(pods);
    }
  }

  /** Something is reported exactly when the executor has exited or an init container has failed; and what is
      not the executor's exit is a failure. */
  lemma ReportedExactlyWhen(pod: Pod)
    ensures ContainerToReport(pod).Some? <==>
              || (exists c :: c in pod.containers && c.name == "executor" && c.state.Terminated?)
              || exists c :: c in pod.inits && c.state.Terminated? && c.state.code != 0
    ensures ContainerToReport(pod).Some? && !(exists c :: c in pod.containers && c.name == "executor" && c.state.Terminated?) ==>
              ContainerToReport(pod).value.1 != 0
    ensures ExecutorTerminated(pod) <==> exists c :: c in pod.containers && c.name == "executor" && c.state.Terminated?
  {
    ExecutorExitFound(pod.containers);
    FirstFailureIsReported(pod.inits);
  }

  // ----- The start deadline -----

  function LatestFinish(inits: seq<ContainerStatus>): Time {
    if inits == [] then 0
    else
      var rest := LatestFinish(inits[..|inits| - 1]);
      var last := inits[|inits| - 1].state;
      if last.Terminated? && last.finishedAt > rest then last.finishedAt else rest
  }

  /** When the executor's own start window opened: after the last init container once all have finished,
      at the Job's creation until then. */
  function WaitStart(pod: Pod, createdAt: Time): Time {
    if pod.inits != [] && (forall c :: c in pod.inits ==> c.state.Terminated?) && LatestFinish(pod.inits) != 0
    then LatestFinish(pod.inits)
    else createdAt
  }

  method ExecutorWaitStart(pod: Pod, createdAt: Time) returns (start: Time)
    ensures start == WaitStart(pod, createdAt)
  {
    if |pod.inits| == 0 {
      return createdAt;
    }
    var latest: Time := 0;
    for i := 0 to |pod.inits|
      invariant forall k :: 0 <= k < i ==> pod.inits[k].state.Terminated?
      invariant latest == LatestFinish(pod.inits[..i])
    {
      var state := pod.inits[i].state;
      if !state.Terminated? {
        assert pod.inits[i] in pod.inits;
        return createdAt;
      }
      assert pod.inits[..i + 1][..i] == pod.inits[..i];
      if state.finishedAt > latest {
        latest := state.finishedAt;
      }
    }
    assert pod.inits[..|pod.inits|] == pod.inits;
    return if latest == 0 then createdAt else latest;
  }

  lemma {:induction false} LatestFinishIsLatest(inits: seq<ContainerStatus>)
    ensures forall c :: c in inits && c.state.Terminated? ==> c.state.finishedAt <= LatestFinish(inits)
    ensures LatestFinish(inits) != 0 ==> exists c :: c in inits && c.state.Terminated? && c.state.finishedAt == LatestFinish(inits)
  {
    if inits != [] {
      var front := inits[..|inits| - 1];
      LatestFinishIsLatest(front);
      assert inits == front + [inits[|inits| - 1]];
      assert inits[|inits| - 1] in inits;
    }
  }

  predicate StartOverdue(now: Time, job: Job, pod: Option<Pod>) {
    if pod.None? then now - job.createdAt > EXECUTOR_START_DEADLINE * SECOND
    else !ExecutorStarted(pod.value) && now - WaitStart(pod.value, job.createdAt) > EXECUTOR_START_DEADLINE * SECOND
  }

  // ----- What the two amount to, in container states -----

  /** The executor's window opened at `t`: when the last init container finished, if all have and say when;
      at the Job's creation otherwise. */
  ghost predicate WindowOpensAt(pod: Option<Pod>, createdAt: Time, t: Time) {
    if pod.Some? && pod.value.inits != [] && (forall c :: c in pod.value.inits ==> c.state.Terminated?)
       && exists c :: c in pod.value.inits && c.state.finishedAt != 0
    then
      && (exists c :: c in pod.value.inits && c.state.finishedAt == t)
      && forall c :: c in pod.value.inits ==> c.state.finishedAt <= t
    else t == createdAt
  }

  lemma WindowIsOne(pod: Option<Pod>, createdAt: Time, t: Time)
    ensures WindowOpensAt(pod, createdAt, t) <==> t == if pod.Some? then WaitStart(pod.value, createdAt) else createdAt
  {
    if pod.Some? {
      LatestFinishIsLatest(pod.value.inits);
    }
  }

  /** Some container "executor" of the pod runs or has exited. */
  ghost predicate ShowsExecutor(pod: Pod) {
    exists c :: c in pod.containers && c.name == "executor" && (c.state.Running? || c.state.Terminated?)
  }

  /** No executor of the pod, if there is one, runs or has exited, and its window opened more than 600 seconds
      ago. */
  ghost predicate NeverStarted(now: Time, job: Job, pod: Option<Pod>) {
    && (pod.Some? ==> !ShowsExecutor(pod.value))
    && exists t: Time {:trigger WindowOpensAt(pod, job.createdAt, t)} ::
         WindowOpensAt(pod, job.createdAt, t) && now > t + 600_000_000_000
  }

  lemma OverdueExactlyWhen(now: Time, job: Job, pod: Option<Pod>)
    ensures StartOverdue(now, job, pod) <==> NeverStarted(now, job, pod)
  {
    hide WindowOpensAt, WaitStart;
    var start := if pod.Some? then WaitStart(pod.value, job.createdAt) else job.createdAt;
    WindowIsOne(pod, job.createdAt, start);
    forall t: Time | WindowOpensAt(pod, job.createdAt, t)
      ensures t == start
    {
      WindowIsOne(pod, job.createdAt, t);
    }
  }

  /** The executor runs, and has not exited. */
  ghost predicate IsUp(p: Pod) {
    && (exists c :: c in p.containers && c.name == "executor" && c.state.Running?)
    && forall c :: c in p.containers && c.name == "executor" ==> !c.state.Terminated?
  }

  /** The request's recorded Job is unfinished, and its pods show a running executor. */
  ghost predicate IsRunning(w: World, sr: Request) {
    var name, uid := sr.status.exec.jobName, sr.status.exec.jobUid;
    && name in w.jobs && Some(w.jobs[name].uid) == uid && !w.jobs[name].finished
    && (exists p :: p in w.pods && Some(p.owner) == uid && p.job == name)
    && forall p :: p in w.pods && Some(p.owner) == uid && p.job == name ==> IsUp(p)
  }

  /** A running executor has not exited and is never overdue, however old its Job. */
  lemma RunningIsNotOverdue(w: World, sr: Request, job: Job, now: Time)
    requires IsRunning(w, sr) && job == w.jobs[sr.status.exec.jobName]
    ensures
      var pod := JobPod(w, sr.status.exec.jobName, job.uid);
      pod.Some? && !ExecutorTerminated(pod.value) && !NeverStarted(now, job, pod)
  {
    JobPodIsTheJobs(w, sr.status.exec.jobName, job.uid);
    var pod := JobPod(w, sr.status.exec.jobName, job.uid);
    assert IsUp(pod.value);
  }
}
