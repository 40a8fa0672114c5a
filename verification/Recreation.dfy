/** How often the executor Job of one request may be created (handleApproved in reconciler.go): when another
    Job can follow, what is left of the earlier one by then, and that the command may have run before. */
module Recreation {
  import opened Prelude
  import opened SudoTypes
  import opened Lifecycle
  import opened Invariants
  import opened Stability
  import opened Api
  import opened Runs
  import opened PlaybookRuns
  import opened TeardownRun
  import opened Wiring

  // ----- One Job at a time -----

  /** When a Job is created no Job of ours exists, so two of them never coexist. */
  lemma NeverTwoJobs(svc: Service, run: seq<World>, labels: seq<Action>)
    requires IsRun(svc, run, labels)
    ensures forall j, n :: 0 <= j < |labels| && CreatesJob(labels[j]) ==> !OwnJob(run[j], n)
    ensures forall k, m, n :: 0 <= k < |run| && OwnJob(run[k], m) && OwnJob(run[k], n) ==> m == n
  {
    forall k | 0 <= k < |run|
      ensures forall m, n :: OwnJob(run[k], m) && OwnJob(run[k], n) ==> m == n
    {
      RunInv(svc, run, labels, k);
    }
    forall j | 0 <= j < |labels| && CreatesJob(labels[j])
      ensures forall n :: !OwnJob(run[j], n)
    {
      RunInv(svc, run, labels, j);
      assert Step(svc, run[j], labels[j], run[j + 1]);
    }
  }

  // ----- When a Job can be created -----

  /** Nothing is on record, and the request is as a handler needs it. In the controller's namespace one that
      has read its copy does not even need the object to be there still. */
  predicate Open(svc: Service, w: World) {
    && w.trail.recorded.None? && w.last.status.phase == Approved
    && (svc.crossNamespace(w.spec) ==> !w.gone)
  }

  /** What passed validation renders. */
  ghost predicate Renders(svc: Service) {
    forall sr: Request, name {:trigger svc.jobFor(sr, name)} :: svc.accepted(sr.spec) ==> svc.jobFor(sr, name).Some?
  }

  lemma ServiceRenders(cfg: Config, svc: Service)
    requires Wired(cfg, svc)
    ensures Renders(svc)
  {
    forall sr: Request, name {:trigger svc.jobFor(sr, name)} | svc.accepted(sr.spec)
      ensures svc.jobFor(sr, name).Some?
    {
      AcceptedRenders(cfg, svc, sr, name);
    }
  }

  ghost predicate CreatesFrom(labels: seq<Action>, from: nat) {
    exists j :: from <= j < |labels| && CreatesJob(labels[j])
  }

  ghost predicate CanCreate(svc: Service, run: seq<World>, labels: seq<Action>) {
    exists run', labels' :: Continues(svc, run, labels, run', labels') && CreatesFrom(labels', |labels|)
  }

  /** A named request that is over stays over, whether or not it has a playbook. */
  lemma {:induction false} NamedStaysOver(svc: Service, run: seq<World>, labels: seq<Action>, i: nat, j: nat)
    requires IsRun(svc, run, labels) && i <= j < |run|
    requires IsMinted(run[i]) && IsTerminal(run[i].last.status.phase)
    ensures run[j].last.status.phase == run[i].last.status.phase
    decreases j
  {
    if i < j {
      NamedStaysOver(svc, run, labels, i, j - 1);
      RunReach(svc, run, labels, i, j - 1);
      assert Step(svc, run[j - 1], labels[j - 1], run[j - 1 + 1]);
      NamedStepStaysOver(svc, run[j - 1], labels[j - 1]);
    }
  }

  lemma NamedStepStaysOver(svc: Service, w: World, a: Action)
    requires Enabled(svc, w, a) && IsMinted(w) && IsTerminal(w.last.status.phase)
    ensures Apply(svc, w, a).last.status.phase == w.last.status.phase
  {
    hide AfterEvent, AfterEffect, AfterJobChange, EventEnabled, EffectEnabled, JobChangeEnabled;
    match a
    case Outside(e) => EventKeepsStatus(svc, w, e);
    case Own(e) => EffectKeepsStatus(w, e);
    case Jobs(c) => JobChangeKeepsStatus(w, c);
    case Write(e, m) =>
  }

  lemma NamedIsCarriedOut(svc: Service, w: World)
    requires Inv(svc, w) && IsMinted(w)
    ensures w.last.status.phase == Approved || IsTerminal(w.last.status.phase)
    ensures !w.last.status.playbook.autoApproved && w.last.spec == w.spec
    ensures w.last.status.phase == Approved ==> svc.accepted(w.spec)
    ensures w.last.deleting ==> w.last.finalizer
  {
    hide GenuineResult, JobInv, ResultInv, LinkInv, TrailInv, SecretInv;
  }

  lemma CreatingNeedsOpen(svc: Service, run: seq<World>, labels: seq<Action>, i: nat, j: nat)
    requires IsRun(svc, run, labels) && i <= j < |labels| && IsMinted(run[i]) && CreatesJob(labels[j])
    ensures Open(svc, run[i])
  {
    hide Inv;
    assert Step(svc, run[j], labels[j], run[j + 1]);
    RunReach(svc, run, labels, i, j);
    RunInv(svc, run, labels, i);
    NamedIsCarriedOut(svc, run[i]);
    if IsTerminal(run[i].last.status.phase) {
      NamedStaysOver(svc, run, labels, i, j);
    }
  }

  lemma {:induction false} Above(uids: set<Uid>) returns (u: Uid)
    ensures forall v :: v in uids ==> v < u
    decreases uids
  {
    u := 0;
    if uids != {} {
      var v :| v in uids;
      var rest := Above(uids - {v});
      u := if v < rest then rest else v + 1;
      assert forall x :: x in uids ==> x == v || x in uids - {v};
    }
  }

  predicate OpenAt(svc: Service, w: World, name: string) {
    && Open(svc, w) && name != "" && w.last.status.exec.jobName == name && !w.last.status.playbook.autoApproved
    && w.last.spec == w.spec && svc.accepted(w.spec) && (w.last.deleting ==> w.last.finalizer)
  }

  lemma FinalizerStep(svc: Service, w: World, name: string)
    requires OpenAt(svc, w, name) && !w.gone && !w.last.finalizer
    ensures Enabled(svc, w, Own(SetFinalizer)) && OpenAt(svc, Apply(svc, w, Own(SetFinalizer)), name)
    ensures Apply(svc, w, Own(SetFinalizer)).last.finalizer && Apply(svc, w, Own(SetFinalizer)).spec == w.spec
  {
  }

  lemma GoneStep(svc: Service, w: World, name: string)
    requires OpenAt(svc, w, name) && name in w.jobs
    ensures
      var a := Jobs(Goes(name));
      var w' := Apply(svc, w, a);
      && Enabled(svc, w, a) && OpenAt(svc, w', name) && name !in w'.jobs
      && w'.spec == w.spec && w'.last == w.last && w'.gone == w.gone
  {
  }

  lemma RecreateStep(svc: Service, w: World, name: string, job: Job)
    requires OpenAt(svc, w, name) && name !in w.jobs && (svc.crossNamespace(w.spec) ==> w.last.finalizer)
    requires job.uid !in w.trail.uids && !job.finished && !job.terminating && svc.jobFor(w.last, name) == Some(job.spec)
    ensures Enabled(svc, w, Own(CreateJob(name, job)))
  {
  }

  lemma OpenAllowsCreating(svc: Service, run: seq<World>, labels: seq<Action>, name: string)
    requires IsRun(svc, run, labels) && |run| == |labels| + 1 && OpenAt(svc, run[|labels|], name) && Renders(svc)
    ensures CanCreate(svc, run, labels)
  {
    hide IsRun, Enabled, Apply, OpenAt;
    var run1, labels1 := run, labels;
    assert OpenAt(svc, run[|labels|], name);
    OpenFacts(svc, run[|labels|], name);
    if svc.crossNamespace(run[|labels|].spec) && !run[|labels|].last.finalizer {
      FinalizerStep(svc, run[|labels|], name);
      run1, labels1 := Then(svc, run, labels, Own(SetFinalizer));
    }
    var run2, labels2 := run1, labels1;
    if name in run1[|labels1|].jobs {
      GoneStep(svc, run1[|labels1|], name);
      run2, labels2 := Then(svc, run1, labels1, Jobs(Goes(name)));
    }
    var w := run2[|labels2|];
    OpenFacts(svc, w, name);
    var uid := Above(w.trail.uids);
    var job := Job(uid, svc.jobFor(w.last, name).value, w.now, false, false);
    RecreateStep(svc, w, name, job);
    var run3, labels3 := Then(svc, run2, labels2, Own(CreateJob(name, job)));
    assert CreatesJob(labels3[|labels2|]);
    assert Continues(svc, run, labels, run3, labels3);
  }

  lemma OpenFacts(svc: Service, w: World, name: string)
    requires OpenAt(svc, w, name) && Renders(svc)
    ensures svc.jobFor(w.last, name).Some? && (svc.crossNamespace(w.spec) ==> !w.gone)
  {
    assert svc.accepted(w.last.spec);
  }

  /** Once its Job is named, an executor Job, be it the first or another, can be created for a request exactly
      while it is approved with no UID on record; across namespaces, while the object is there too. */
  lemma CreatableExactlyWhenOpen(svc: Service, run: seq<World>, labels: seq<Action>)
    requires IsRun(svc, run, labels) && IsMinted(run[|run| - 1]) && Renders(svc)
    ensures CanCreate(svc, run, labels) <==> Open(svc, run[|run| - 1])
  {
    hide Enabled, Apply, Open, OpenAt, Inv, Initial;
    RunLengths(svc, run, labels);
    if CanCreate(svc, run, labels) {
      var run': seq<World>, labels': seq<Action> :|
        Continues(svc, run, labels, run', labels') && CreatesFrom(labels', |labels|);
      var j :| |labels| <= j < |labels'| && CreatesJob(labels'[j]);
      RunLengths(svc, run', labels');
      CreatingNeedsOpen(svc, run', labels', |labels|, j);
    }
    var w := run[|labels|];
    if Open(svc, w) {
      RunInv(svc, run, labels, |labels|);
      NamedIsCarriedOut(svc, w);
      OpenIsOpenAt(svc, w);
      OpenAllowsCreating(svc, run, labels, w.last.status.exec.jobName);
    }
  }

  lemma OpenIsOpenAt(svc: Service, w: World)
    requires Open(svc, w) && IsMinted(w) && !w.last.status.playbook.autoApproved && w.last.spec == w.spec
    requires (w.last.status.phase == Approved ==> svc.accepted(w.spec)) && (w.last.deleting ==> w.last.finalizer)
    ensures OpenAt(svc, w, w.last.status.exec.jobName)
  {
  }

  /** Of two creations in one run: up to the second nothing was on record, the request stayed approved, and
      the first Job was gone. */
  lemma CreatedAgain(svc: Service, run: seq<World>, labels: seq<Action>, i: nat, j: nat)
    requires IsRun(svc, run, labels) && i < j < |labels| && CreatesJob(labels[i]) && CreatesJob(labels[j])
    ensures forall k :: i <= k <= j ==> Open(svc, run[k])
    ensures labels[i].effect.name == labels[j].effect.name && labels[i].effect.job.uid != labels[j].effect.job.uid
    ensures forall n :: n in run[j].jobs ==> run[j].jobs[n].uid != labels[i].effect.job.uid
  {
    hide Inv, Open;
    assert Step(svc, run[i], labels[i], run[i + 1]);
    assert Step(svc, run[j], labels[j], run[j + 1]);
    NeverTwoJobs(svc, run, labels);
    RunReach(svc, run, labels, i + 1, j);
    forall k | i <= k <= j
      ensures Open(svc, run[k])
    {
      RunReach(svc, run, labels, i, k);
      CreatingNeedsOpen(svc, run, labels, k, j);
    }
    forall n | n in run[j].jobs
      ensures run[j].jobs[n].uid != labels[i].effect.job.uid
    {
      assert !OwnJob(run[j], n);
    }
  }

  // ----- And the command may have run before -----

  predicate CommandRan(w: World, uid: Uid, code: int) {
    ExitFact(uid, "executor", code) in w.trail.exits
  }

  /** Named, nothing on record, nothing there. */
  predicate Vacant(w: World) {
    && !w.gone && w.last.spec == w.spec && !w.last.deleting && w.last.status.phase == Approved
    && !w.last.status.playbook.autoApproved && w.last.status.exec == ExecState(NAME, "", None)
    && w.jobs == map[] && w.trail.recorded.None?
  }

  lemma MintedIsVacant(w: World)
    requires Minted(w)
    ensures Vacant(w)
  {
  }

  predicate Occupied(w: World, job: Job) {
    Vacant(w.(jobs := map[])) && w.jobs == map[NAME := job] && job.uid in w.trail.uids
  }

  lemma OccupyStep(svc: Service, w: World, job: Job)
    requires Vacant(w) && !svc.crossNamespace(w.spec)
    requires job.uid !in w.trail.uids && !job.finished && !job.terminating && svc.jobFor(w.last, NAME) == Some(job.spec)
    ensures
      var a := Own(CreateJob(NAME, job));
      var w' := Apply(svc, w, a);
      && Enabled(svc, w, a) && Occupied(w', job) && w'.spec == w.spec && w'.last == w.last
      && w'.trail.uids == w.trail.uids + {job.uid} && w'.trail.exits == w.trail.exits
  {
  }

  lemma RanStep(svc: Service, w: World, job: Job, code: int)
    requires Occupied(w, job)
    ensures
      var a := Outside(PodsChange([ExitedPod(job.uid, code)]));
      var w' := Apply(svc, w, a);
      && Enabled(svc, w, a) && Occupied(w', job) && CommandRan(w', job.uid, code) && w'.spec == w.spec && w'.last == w.last
      && w'.trail.uids == w.trail.uids && w.trail.exits <= w'.trail.exits
  {
    var pod := ExitedPod(job.uid, code);
    assert pod in [ExitedPod(job.uid, code)] && pod.containers[0] in pod.containers + pod.inits;
  }

  /** The Job goes: the controller's own rollback, or anyone's deletion. */
  predicate Removes(a: Action) {
    a == Own(DeleteJob(NAME)) || a == Jobs(Goes(NAME))
  }

  lemma RemoveStep(svc: Service, w: World, job: Job, a: Action)
    requires Occupied(w, job) && Removes(a)
    ensures
      var w' := Apply(svc, w, a);
      Enabled(svc, w, a) && Vacant(w') && w'.spec == w.spec && w'.last == w.last && w'.trail == w.trail
  {
    assert w.jobs - {NAME} == map[];
  }

  lemma VacantRenders(svc: Service, w: World)
    requires Vacant(w) && Renders(svc) && svc.accepted(w.spec)
    ensures svc.jobFor(w.last, NAME).Some? && !w.gone
  {
    assert svc.accepted(w.last.spec);
  }

  /** A Job is created, its executor exits, and it goes, by the controller's rollback or otherwise, before its
      UID is stored; then another is created, whose executor exits too: the approved command has run twice. */
  lemma RanTwice(svc: Service, w: World, r: Resolution, uid: Uid, code: int, uid2: Uid, code2: int, removal: Action)
    returns (run: seq<World>, labels: seq<Action>)
    requires Initial(svc, w) && w.spec.playbook.None? && !svc.crossNamespace(w.spec) && w.pods == []
    requires svc.accepted(w.spec) && ResolvesTo(svc, w.spec, r) && svc.gate(w.spec, r.image).Some?
    requires uid !in w.trail.uids && uid2 !in w.trail.uids && uid != uid2 && Renders(svc) && Removes(removal)
    ensures IsRun(svc, run, labels) && run[0] == w && |labels| == 7
    ensures CreatesJob(labels[2]) && labels[2].effect.job.uid == uid && CommandRan(run[4], uid, code)
    ensures labels[4] == removal
    ensures CreatesJob(labels[5]) && labels[5].effect.job.uid == uid2 && CommandRan(run[7], uid2, code2)
    ensures CommandRan(run[7], uid, code)
  {
    hide Initial, Enabled, Apply, ResolvesTo, Fresh, Minted, Vacant, Occupied, CommandRan;
    InitialIsARun(svc, w);
    ApproveStep(svc, w, r);
    run, labels := Then(svc, [w], [], Write(Resolve(r), Review(AutoApprove(w.now))));
    MintStep(svc, run[1]);
    run, labels := Then(svc, run, labels, Write(NoEdit, Exec(MintNames(NAME, ""))));
    MintedIsVacant(run[2]);
    VacantRenders(svc, run[2]);
    run, labels := CreateAndRun(svc, run, labels, uid, code);
    RemoveStep(svc, run[4], labels[2].effect.job, removal);
    run, labels := Then(svc, run, labels, removal);
    RanLater(run[4], run[5], uid, code);
    run, labels := CreateAndRun(svc, run, labels, uid2, code2);
    RanLater(run[5], run[7], uid, code);
  }

  lemma RanLater(w: World, w': World, uid: Uid, code: int)
    requires CommandRan(w, uid, code) && w.trail.exits <= w'.trail.exits
    ensures CommandRan(w', uid, code)
  {
  }

  lemma CreateAndRun(svc: Service, run: seq<World>, labels: seq<Action>, uid: Uid, code: int)
    returns (run': seq<World>, labels': seq<Action>)
    requires IsRun(svc, run, labels) && |run| == |labels| + 1 && Renders(svc)
    requires
      var w := run[|labels|];
      Vacant(w) && !svc.crossNamespace(w.spec) && svc.accepted(w.spec) && uid !in w.trail.uids
    ensures IsRun(svc, run', labels') && run <= run' && labels <= labels' && |labels'| == |labels| + 2
    ensures CreatesJob(labels'[|labels|]) && labels'[|labels|].effect.job.uid == uid
    ensures
      var w, w' := run[|labels|], run'[|labels| + 2];
      && Occupied(w', labels'[|labels|].effect.job) && CommandRan(w', uid, code)
      && w'.spec == w.spec && w'.trail.uids == w.trail.uids + {uid} && w.trail.exits <= w'.trail.exits
  {
    hide IsRun, Enabled, Apply, Vacant, Occupied, CommandRan;
    var w := run[|labels|];
    VacantRenders(svc, w);
    var job := Job(uid, svc.jobFor(w.last, NAME).value, 0, false, false);
    OccupyStep(svc, w, job);
    run', labels' := Then(svc, run, labels, Own(CreateJob(NAME, job)));
    RanStep(svc, run'[|labels| + 1], job, code);
    run', labels' := Then(svc, run', labels', Outside(PodsChange([ExitedPod(uid, code)])));
  }
}
