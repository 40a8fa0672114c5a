/** What was reviewed is what runs (review.go, executor.go), over whole runs of the service as configured. */
module ReviewedRuns {
  import opened Prelude
  import opened SudoTypes
  import opened PodBuild
  import opened Lifecycle
  import opened Invariants
  import opened Stability
  import opened Runs
  import opened Wiring
  import Profiles
  import opened Validation

  const MINTED_LATER := "<minted-at-approval>"

  /** displayPodTemplate: the pod shown to the reviewer. */
  function DisplayPod(cfg: Config, sr: Request): Option<PodSpec> {
    var extras := DecodePodExtras(cfg.lib, sr.spec);
    if extras.None? then None
    else
      var shown := if sr.spec.stdin != "" && sr.status.exec.stdinName == ""
                   then sr.(status := sr.status.(exec := sr.status.exec.(stdinName := MINTED_LATER))) else sr;
      Some(JobFor(cfg, shown, extras.value, MINTED_LATER).pod)
  }

  function WithSecretName(v: Volume, name: string): Volume {
    if v.name == STDIN_VOLUME then StdinVolume(name) else v
  }

  /** The pod with its stdin volume, if it has one, backed by the Secret `name`. */
  function WithStdinSecret(pod: PodSpec, name: string): PodSpec {
    pod.(volumes := seq(|pod.volumes|, i requires 0 <= i < |pod.volumes| => WithSecretName(pod.volumes[i], name)))
  }

  /** Two renderings of one spec and image differ in the stdin Secret's name only. */
  lemma PodUpToStdin(cfg: Config, a: Request, b: Request, extras: PodExtras)
    requires a.spec == b.spec && a.status.resolution == b.status.resolution
    requires forall v :: v in extras.volumes ==> v.name !in RESERVED_VOLUMES
    ensures PodFor(cfg, b, extras) == WithStdinSecret(PodFor(cfg, a, extras), b.status.exec.stdinName)
  {
    assert ExecutorContainer(cfg, a, extras) == ExecutorContainer(cfg, b, extras);
    var bare := BareContainers(cfg, a, extras);
    assert bare == BareContainers(cfg, b, extras);
    VolumesUpToStdin(bare, a, b, extras);
  }

  lemma VolumesUpToStdin(bare: seq<Container>, a: Request, b: Request, extras: PodExtras)
    requires a.spec == b.spec
    requires forall v :: v in extras.volumes ==> v.name !in RESERVED_VOLUMES
    ensures
      var from, to := PodVolumes(bare, a, extras), PodVolumes(bare, b, extras);
      |from| == |to| && forall i :: 0 <= i < |from| ==> to[i] == WithSecretName(from[i], b.status.exec.stdinName)
  {
  }

  predicate Creates(a: Action, name: string, job: Job) {
    a == Own(CreateJob(name, job))
  }

  /** A Job is only ever created as rendered for the approved request as it was last stored, whether or not
      that object has been deleted since. */
  lemma CreatedAsRendered(cfg: Config, run: seq<World>, labels: seq<Action>, j: nat, name: string, job: Job)
    requires IsRun(ServiceOf(cfg), run, labels) && j < |labels| && Creates(labels[j], name, job)
    ensures
      var sr := run[j].last;
      && sr.status.phase == Approved && Accepted(cfg, sr.spec) && SpecExtrasOk(cfg, sr.spec)
      && DecodePodExtras(cfg.lib, sr.spec).Some?
      && job.spec == JobFor(cfg, sr, DecodePodExtras(cfg.lib, sr.spec).value, name)
  {
    var svc := ServiceOf(cfg);
    assert Step(svc, run[j], labels[j], run[j + 1]);
    RunInv(svc, run, labels, j);
    RenderedNow(cfg, run[j], name, job);
  }

  lemma RenderedNow(cfg: Config, w: World, name: string, job: Job)
    requires Inv(ServiceOf(cfg), w) && EffectEnabled(ServiceOf(cfg), w, CreateJob(name, job))
    ensures
      var sr := w.last;
      && sr.spec == w.spec && sr.status.phase == Approved && Accepted(cfg, sr.spec) && SpecExtrasOk(cfg, sr.spec)
      && DecodePodExtras(cfg.lib, sr.spec).Some?
      && job.spec == JobFor(cfg, sr, DecodePodExtras(cfg.lib, sr.spec).value, name)
  {
    hide JobFor, DecodePodExtras, GenuineResult, JobInv, ExecInv, ResultInv, LinkInv, TrailInv, SecretInv;
  }

  lemma AcceptedVolumes(cfg: Config, spec: Spec)
    requires SpecExtrasOk(cfg, spec)
    ensures forall v :: v in DecodePodExtras(cfg.lib, spec).value.volumes ==> v.name !in RESERVED_VOLUMES
  {
  }

  /** The pod a reviewer is shown at any time while the request is Pending is, up to the name of the stdin
      Secret minted after the approval, the pod of every Job ever created for it. */
  lemma ReviewedEqualsExecuted(cfg: Config, run: seq<World>, labels: seq<Action>, i: nat, j: nat, name: string, job: Job)
    requires IsRun(ServiceOf(cfg), run, labels) && i <= j < |labels|
    requires PhaseOf(run[i]) == Some(Pending)
    requires Creates(labels[j], name, job)
    ensures DisplayPod(cfg, run[i].last).Some?
    ensures job.spec.pod == WithStdinSecret(DisplayPod(cfg, run[i].last).value, run[j].last.status.exec.stdinName)
  {
    hide PodFor, WithStdinSecret, Accepted, SpecExtrasOk, ServiceOf;
    CreatedAsRendered(cfg, run, labels, j, name, job);
    AcceptedVolumes(cfg, run[j].last.spec);
    RunReach(ServiceOf(cfg), run, labels, i, j);
    var a, b := run[i].last, run[j].last;
    var extras := DecodePodExtras(cfg.lib, b.spec).value;
    assert a.spec == b.spec && a.status.resolution == b.status.resolution;
    var shown := if a.spec.stdin != "" && a.status.exec.stdinName == ""
                 then a.(status := a.status.(exec := a.status.exec.(stdinName := MINTED_LATER))) else a;
    PodUpToStdin(cfg, shown, b, extras);
  }

  // ----- Which argv -----

  predicate AutoApproves(a: Action) {
    a.Write? && a.mutation.Review? && a.mutation.review.AutoApprove?
  }

  ghost predicate WasAutoApproved(labels: seq<Action>, j: nat)
    requires j <= |labels|
  {
    exists i :: 0 <= i < j && AutoApproves(labels[i])
  }

  lemma {:induction false} TrailKnowsAutoApproval(svc: Service, run: seq<World>, labels: seq<Action>, j: nat)
    requires IsRun(svc, run, labels) && j < |run|
    ensures run[j].trail.autoApproved <==> WasAutoApproved(labels, j)
    decreases j
  {
    if j > 0 {
      assert Step(svc, run[j - 1], labels[j - 1], run[j - 1 + 1]);
      TrailKnowsAutoApproval(svc, run, labels, j - 1);
      StepMarksAutoApproval(svc, run[j - 1], labels[j - 1]);
    }
  }

  lemma StepMarksAutoApproval(svc: Service, w: World, a: Action)
    requires Enabled(svc, w, a)
    ensures Apply(svc, w, a).trail.autoApproved <==> w.trail.autoApproved || AutoApproves(a)
  {
    match a
    case Outside(e) => EventLeavesTrail(svc, w, e);
    case Own(e) => EffectKeepsTrail(w, e);
    case Write(e, m) => WriteMarksAutoApproval(w, e, m);
    case Jobs(_) =>
  }

  lemma WriteMarksAutoApproval(w: World, e: Edit, m: Mutation)
    requires !w.gone
    ensures AfterWrite(w, e, m).trail.autoApproved <==> w.trail.autoApproved || AutoApproves(Write(e, m))
  {
    hide MutateReview, MutateExec, MutateNote, Edited;
  }

  /** A playbook is never auto-approved by the command allowlist. */
  lemma {:induction false} AutoApprovedPassedTheGate(cfg: Config, run: seq<World>, labels: seq<Action>, j: nat)
    requires IsRun(ServiceOf(cfg), run, labels) && j < |run| && run[j].trail.autoApproved
    ensures !HasSpecExtras(run[j].spec)
    decreases j
  {
    hide Inv, Apply, RequestReach, TokensReach;
    var svc := ServiceOf(cfg);
    if j > 0 {
      assert Step(svc, run[j - 1], labels[j - 1], run[j - 1 + 1]);
      RunReach(svc, run, labels, j - 1, j);
      if run[j - 1].trail.autoApproved {
        AutoApprovedPassedTheGate(cfg, run, labels, j - 1);
      } else {
        StepMarksAutoApproval(svc, run[j - 1], labels[j - 1]);
        AutoApprovalPassesTheGate(cfg, run[j - 1], labels[j - 1]);
      }
    }
  }

  lemma AutoApprovalPassesTheGate(cfg: Config, w: World, a: Action)
    requires Enabled(ServiceOf(cfg), w, a) && AutoApproves(a)
    ensures !HasSpecExtras(w.spec)
  {
  }

  /** Tokenised argv runs exactly when the allowlist approved the request, and then it is the argv the
      allowlist read; in every other case the command goes to a shell. */
  lemma TokensRunExactlyWhenAutoApproved(cfg: Config, run: seq<World>, labels: seq<Action>, j: nat, name: string, job: Job)
    requires IsRun(ServiceOf(cfg), run, labels) && j < |labels|
    requires Creates(labels[j], name, job)
    ensures
      var sr := run[j].last;
      var gate := Gate(cfg, sr.spec, sr.status.resolution.image);
      && |job.spec.pod.containers| == 1
      && (WasAutoApproved(labels, j) <==> gate.Some?)
      && job.spec.pod.containers[0].command == if WasAutoApproved(labels, j) then gate.value else ShellCommand(sr.spec)
  {
    var svc := ServiceOf(cfg);
    CreatedAsRendered(cfg, run, labels, j, name, job);
    TrailKnowsAutoApproval(svc, run, labels, j);
    RunInv(svc, run, labels, j);
    if run[j].trail.autoApproved {
      AutoApprovedPassedTheGate(cfg, run, labels, j);
    }
    GateDecided(cfg, run[j]);
    GateIsAutoApproveTokens(cfg, run[j].last);
  }

  lemma GateDecided(cfg: Config, w: World)
    requires Inv(ServiceOf(cfg), w) && w.last.status.phase == Approved
    requires w.trail.autoApproved ==> !HasSpecExtras(w.spec)
    ensures
      var sr := w.last;
      && (w.trail.autoApproved <==> Gate(cfg, sr.spec, sr.status.resolution.image).Some?)
      && Gate(cfg, sr.spec, Profiles.ImageFor(sr)) == Gate(cfg, sr.spec, sr.status.resolution.image)
  {
    hide GenuineResult, JobInv, ExecInv, ResultInv, LinkInv, TrailInv, SecretInv;
  }

  /** Every executor pod ever created is well-formed, provided the requester's volume names differ. */
  lemma ExecutedPodsAreWellFormed(cfg: Config, run: seq<World>, labels: seq<Action>, j: nat, name: string, job: Job)
    requires IsRun(ServiceOf(cfg), run, labels) && j < |labels|
    requires Creates(labels[j], name, job)
    ensures
      var extras := DecodePodExtras(cfg.lib, run[j].spec);
      extras.Some? && (WellFormed(job.spec.pod) <==> VolumeNamesDistinct(extras.value.volumes))
  {
    CreatedAsRendered(cfg, run, labels, j, name, job);
    RunInv(ServiceOf(cfg), run, labels, j);
    AcceptedPodWellFormed(cfg, run[j].last, DecodePodExtras(cfg.lib, run[j].last.spec).value);
  }

  /** Every executor Job ever created is confined and kept as its request calls for, runs its command, and sees
      no volume of the node and none that could hold an API token: neither the requester's nor the controller's
      own. */
  lemma ExecutedJobsAreConfined(cfg: Config, run: seq<World>, labels: seq<Action>, j: nat, name: string, job: Job)
    requires IsRun(ServiceOf(cfg), run, labels) && j < |labels| && Creates(labels[j], name, job)
    ensures
      var sr := run[j].last;
      var extras := DecodePodExtras(cfg.lib, sr.spec);
      && extras.Some? && sr.spec == run[j].spec
      && RunsConfined(cfg, sr.spec, job.spec) && IsKept(cfg, sr, job.spec) && job.spec.name == name
      && RunsCommand(cfg, sr, extras.value, job.spec.pod) && SeesVolumes(sr, extras.value, job.spec.pod)
    ensures forall v :: v in job.spec.pod.volumes ==> v.source.hostPath.None? && !v.source.projected
  {
    hide RunsConfined, IsKept, RunsCommand, SeesVolumes, PodFor, Accepted;
    CreatedAsRendered(cfg, run, labels, j, name, job);
    RunInv(ServiceOf(cfg), run, labels, j);
    var sr := run[j].last;
    var extras := DecodePodExtras(cfg.lib, sr.spec).value;
    JobIsConfined(cfg, sr, extras, name);
    JobRunsCommand(cfg, sr, extras);
    JobSeesVolumes(cfg, sr, extras);
    SeenVolumesAreHarmless(cfg, sr, extras, job.spec.pod);
  }

  lemma SeenVolumesAreHarmless(cfg: Config, sr: Request, extras: PodExtras, pod: PodSpec)
    requires SpecExtrasOk(cfg, sr.spec) && DecodePodExtras(cfg.lib, sr.spec) == Some(extras) && SeesVolumes(sr, extras, pod)
    ensures forall v :: v in pod.volumes ==> v.source.hostPath.None? && !v.source.projected
  {
    forall i | 0 <= i < |pod.volumes|
      ensures pod.volumes[i].source.hostPath.None? && !pod.volumes[i].source.projected
    {
      if i < |extras.volumes| {
        assert pod.volumes[i] == extras.volumes[i] && pod.volumes[i] in extras.volumes;
      }
    }
  }
}
