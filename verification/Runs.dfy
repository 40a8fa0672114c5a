/** The promises of the lifecycle, over every run: any interleaving of reconciler, approvers, garbage
    collector, users, kubelet and tenants, with crashes and lost writes wherever they fall. */
module Runs {
  import opened Prelude
  import opened SudoTypes
  import opened Lifecycle
  import opened Invariants
  import opened Stability

  lemma RunStep(svc: Service, run: seq<World>, labels: seq<Action>, k: nat)
    requires IsRun(svc, run, labels) && k < |labels| && Inv(svc, run[k])
    ensures Inv(svc, run[k + 1]) && Reach(run[k], run[k + 1])
  {
    assert Step(svc, run[k], labels[k], run[k + 1]);
    StepKeepsInv(svc, run[k], labels[k]);
    StepReach(svc, run[k], labels[k]);
  }

  lemma {:induction false} RunInv(svc: Service, run: seq<World>, labels: seq<Action>, k: nat)
    requires IsRun(svc, run, labels) && k < |run|
    ensures Inv(svc, run[k])
    decreases k
  {
    if k == 0 {
      InitialInv(svc, run[0]);
    } else {
      RunInv(svc, run, labels, k - 1);
      RunStep(svc, run, labels, k - 1);
    }
  }

  lemma {:induction false} RunReach(svc: Service, run: seq<World>, labels: seq<Action>, i: nat, j: nat)
    requires IsRun(svc, run, labels) && i <= j < |run|
    ensures Reach(run[i], run[j])
    decreases j
  {
    if i < j {
      RunReach(svc, run, labels, i, j - 1);
      RunInv(svc, run, labels, j - 1);
      RunStep(svc, run, labels, j - 1);
      ReachTransitive(run[i], run[j - 1], run[j]);
    }
  }

  lemma ExtendRun(svc: Service, run: seq<World>, labels: seq<Action>, a: Action)
    requires IsRun(svc, run, labels) && Enabled(svc, run[|run| - 1], a)
    ensures IsRun(svc, run + [Apply(svc, run[|run| - 1], a)], labels + [a])
  {
  }

  // ----- Phase machine -----

  function PhaseOf(w: World): Option<Phase> {
    if !w.gone then Some(w.last.status.phase) else None
  }

  ghost predicate PhaseKeptOrEdge(w: World, w': World) {
    !w'.gone ==>
      !w.gone && (PhaseOf(w') == PhaseOf(w) || IsEdge(w.last.status.phase, w'.last.status.phase))
  }

  predicate IsPlaybookApproval(a: Action) {
    a.Write? && a.mutation.Review? && a.mutation.review.ApprovePlaybook?
  }

  /** Every step keeps to the machine but a playbook's approval of a request that is over. */
  lemma StepKeepsPhaseOrTakesEdge(svc: Service, w: World, a: Action)
    requires Enabled(svc, w, a)
    ensures PhaseKeptOrEdge(w, Apply(svc, w, a)) <==> !(IsPlaybookApproval(a) && IsTerminal(w.last.status.phase))
    ensures IsPlaybookApproval(a) ==> w.spec.playbook.Some?
  {
    match a
    case Outside(e) => EventKeepsStatus(svc, w, e);
    case Own(e) => EffectKeepsStatus(w, e);
    case Write(e, m) => WriteTakesEdge(svc, w, e, m);
    case Jobs(_) =>
  }

  lemma WriteTakesEdge(svc: Service, w: World, e: Edit, m: Mutation)
    requires !w.gone && MayWrite(svc, w, e, m)
    ensures PhaseKeptOrEdge(w, AfterWrite(w, e, m)) <==> !(IsPlaybookApproval(Write(e, m)) && IsTerminal(w.last.status.phase))
    ensures IsPlaybookApproval(Write(e, m)) ==> w.spec.playbook.Some?
  {
  }

  /** Of any request: a stored phase change is off the machine exactly when a playbook's approval lands on a
      request that is over. */
  lemma OffTheMachineExactlyWhen(svc: Service, run: seq<World>, labels: seq<Action>, k: nat)
    requires IsRun(svc, run, labels) && k < |labels|
    ensures !PhaseKeptOrEdge(run[k], run[k + 1]) <==> IsPlaybookApproval(labels[k]) && IsTerminal(run[k].last.status.phase)
  {
    assert Step(svc, run[k], labels[k], run[k + 1]);
    StepKeepsPhaseOrTakesEdge(svc, run[k], labels[k]);
  }

  /** For a request without a playbook, every stored phase change is an edge of the machine, terminal
      phases absorb, and the stored token hash is non-empty exactly while the request is Pending. */
  lemma PhaseMachine(svc: Service, run: seq<World>, labels: seq<Action>)
    requires IsRun(svc, run, labels) && run[0].spec.playbook.None?
    ensures forall k :: 0 <= k < |labels| ==> PhaseKeptOrEdge(run[k], run[k + 1])
    ensures forall k {:trigger labels[k]} :: 0 <= k < |labels| && !run[k + 1].gone ==>
              match run[k].last.status.phase
              case New => run[k + 1].last.status.phase in {New, Pending, Approved, Denied}
              case Pending => run[k + 1].last.status.phase in {Pending, Approved, Denied, Expired}
              case Approved => run[k + 1].last.status.phase in {Approved, Executed, Failed}
              case over => run[k + 1].last.status.phase == over
    ensures forall i, j :: 0 <= i <= j < |run| && !run[j].gone ==>
              !run[i].gone && (IsTerminal(run[i].last.status.phase) ==> PhaseOf(run[j]) == PhaseOf(run[i]))
    ensures forall k :: 0 <= k < |run| && !run[k].gone ==>
              (run[k].last.status.token.hash != "" <==> run[k].last.status.phase == Pending)
  {
    forall k | 0 <= k < |labels|
      ensures PhaseKeptOrEdge(run[k], run[k + 1])
    {
      RunReach(svc, run, labels, 0, k);
      assert Step(svc, run[k], labels[k], run[k + 1]);
      StepKeepsPhaseOrTakesEdge(svc, run[k], labels[k]);
    }
    forall i, j | 0 <= i <= j < |run| && !run[j].gone
      ensures !run[i].gone && (IsTerminal(run[i].last.status.phase) ==> PhaseOf(run[j]) == PhaseOf(run[i]))
    {
      RunReach(svc, run, labels, 0, i);
      RunReach(svc, run, labels, i, j);
    }
    forall k | 0 <= k < |run| && !run[k].gone
      ensures run[k].last.status.token.hash != "" <==> run[k].last.status.phase == Pending
    {
      RunReach(svc, run, labels, 0, k);
      RunInv(svc, run, labels, k);
    }
  }

  /** How often the stored phase changes in the first n steps. */
  ghost function PhaseChanges(run: seq<World>, n: nat): nat
    requires n < |run|
  {
    if n == 0 then 0
    else PhaseChanges(run, n - 1) + (if !run[n].gone && PhaseOf(run[n]) != PhaseOf(run[n - 1]) then 1 else 0)
  }

  function Rank(p: Phase): nat {
    match p
    case New => 0
    case Pending => 1
    case Approved => 2
    case _ => 3
  }

  lemma {:induction false} ChangesClimb(svc: Service, run: seq<World>, labels: seq<Action>, n: nat)
    requires IsRun(svc, run, labels) && run[0].spec.playbook.None? && n < |run|
    ensures PhaseChanges(run, n) <= 3
    ensures !run[n].gone ==> PhaseChanges(run, n) <= Rank(run[n].last.status.phase)
    decreases n
  {
    if n > 0 {
      ChangesClimb(svc, run, labels, n - 1);
      PhaseMachine(svc, run, labels);
      assert PhaseKeptOrEdge(run[n - 1], run[n - 1 + 1]);
    }
  }

  /** A request without a playbook changes phase at most three times, so it has at most three phase
      events to publish. */
  lemma AtMostThreePhaseChanges(svc: Service, run: seq<World>, labels: seq<Action>)
    requires IsRun(svc, run, labels) && run[0].spec.playbook.None?
    ensures PhaseChanges(run, |run| - 1) <= 3
  {
    ChangesClimb(svc, run, labels, |run| - 1);
  }

  // ----- Where results come from -----

  lemma StepExitsAreListed(svc: Service, w: World, a: Action, f: ExitFact)
    requires Enabled(svc, w, a)
    requires f !in w.trail.exits && f in Apply(svc, w, a).trail.exits
    ensures f in ExitsOf(Apply(svc, w, a).pods)
  {
    hide Enabled, AfterEvent, AfterEffect, AfterWrite, ExitsOf;
    if a.Outside? {
      EventListsExits(svc, w, a.event, f);
    } else if a.Own? {
      EffectKeepsTrail(w, a.effect);
    } else if a.Write? {
      WriteKeepsExits(w, a.edit, a.mutation);
    }
  }

  lemma EventListsExits(svc: Service, w: World, e: Event, f: ExitFact)
    requires f !in w.trail.exits && f in AfterEvent(svc, w, e).trail.exits
    ensures f in ExitsOf(AfterEvent(svc, w, e).pods)
  {
    match e { case UserDelete => case _ => }
  }

  lemma WriteKeepsExits(w: World, e: Edit, m: Mutation)
    requires !w.gone
    ensures AfterWrite(w, e, m).trail.exits == w.trail.exits && AfterWrite(w, e, m).trail.vetted == w.trail.vetted
    ensures AfterWrite(w, e, m).trail.ours == w.trail.ours
  {
    hide MutateReview, MutateExec, MutateNote, Edited, AfterReview;
    if m.Review? {
      ReviewKeepsExits(w, e, m.review);
    }
  }

  lemma ReviewKeepsExits(w: World, e: Edit, m: ReviewWrite)
    requires !w.gone
    ensures AfterReview(w, e, m).trail.exits == w.trail.exits && AfterReview(w, e, m).trail.vetted == w.trail.vetted
    ensures AfterReview(w, e, m).trail.ours == w.trail.ours
  {
    hide MutateReview, Edited;
  }

  ghost predicate WasListed(run: seq<World>, k: nat, f: ExitFact)
    requires k < |run|
  {
    exists i :: 0 <= i <= k && f in ExitsOf(run[i].pods)
  }

  /** Every exit the trail remembers was at some time shown by a pod of that owner. */
  lemma {:induction false} ExitWasListed(svc: Service, run: seq<World>, labels: seq<Action>, k: nat, f: ExitFact)
    requires IsRun(svc, run, labels) && k < |run| && f in run[k].trail.exits
    ensures WasListed(run, k, f)
    decreases k
  {
    if k == 0 {
      assert f in ExitsOf(run[0].pods);
    } else {
      assert Step(svc, run[k - 1], labels[k - 1], run[k - 1 + 1]);
      if f in run[k - 1].trail.exits {
        ExitWasListed(svc, run, labels, k - 1, f);
      } else {
        StepExitsAreListed(svc, run[k - 1], labels[k - 1], f);
      }
    }
  }

  // ----- No replay -----

  predicate CreatesJob(a: Action) {
    a.Own? && a.effect.CreateJob?
  }

  /** A result on record that a Job, not a playbook, is answerable for. */
  predicate StoresResult(w: World) {
    !w.gone && w.last.status.exitCode.Some? && !w.last.status.playbook.autoApproved
  }

  /** Once an executor Job UID is stored it never changes, no later step of any run creates an executor
      Job, and whatever result or output is ever stored came out of a pod controlled by that Job. */
  lemma NoReplay(svc: Service, run: seq<World>, labels: seq<Action>, i: nat, uid: Uid)
    requires IsRun(svc, run, labels) && i < |run|
    requires !run[i].gone && run[i].last.status.exec.jobUid == Some(uid)
    ensures forall j :: i <= j < |run| && !run[j].gone ==> run[j].last.status.exec.jobUid == Some(uid)
    ensures forall j :: i <= j < |labels| ==> !CreatesJob(labels[j])
    ensures forall j, n :: 0 <= j < |run| && n in run[j].outputs ==>
              run[j].outputs[n].owner == uid && run[j].outputs[n] in run[j].trail.logs
    ensures forall j :: 0 <= j < |run| && StoresResult(run[j]) ==>
              var s := run[j].last.status;
              GenuineResult(svc, run[j].trail.exits, run[j].trail.logs, uid, s.exitCode.value, s.output)
  {
    RunInv(svc, run, labels, i);
    forall j | i <= j < |run|
      ensures run[j].trail.recorded == Some(uid)
      ensures !run[j].gone ==> run[j].last.status.exec.jobUid == Some(uid)
    {
      RunReach(svc, run, labels, i, j);
      RunInv(svc, run, labels, j);
    }
    forall j | i <= j < |labels|
      ensures !CreatesJob(labels[j])
    {
      assert Step(svc, run[j], labels[j], run[j + 1]);
    }
    forall j, n | 0 <= j < |run| && n in run[j].outputs
      ensures run[j].outputs[n].owner == uid && run[j].outputs[n] in run[j].trail.logs
    {
      RunInv(svc, run, labels, j);
      if j < i {
        RunReach(svc, run, labels, j, i);
      }
    }
    forall j | 0 <= j < |run| && StoresResult(run[j])
      ensures
        var s := run[j].last.status;
        GenuineResult(svc, run[j].trail.exits, run[j].trail.logs, uid, s.exitCode.value, s.output)
    {
      RunInv(svc, run, labels, j);
      if j < i {
        RunReach(svc, run, labels, j, i);
      }
    }
  }

  /** Behind every stored result there is a container of a pod of the recorded Job that was listed, by then,
      as terminated with that very code. */
  lemma ResultWasListed(svc: Service, run: seq<World>, labels: seq<Action>, j: nat) returns (f: ExitFact)
    requires IsRun(svc, run, labels) && j < |run| && StoresResult(run[j])
    ensures WasListed(run, j, f) && f.code == run[j].last.status.exitCode.value
    ensures run[j].last.status.exec.jobUid == Some(f.owner)
  {
    RunInv(svc, run, labels, j);
    var w, s := run[j], run[j].last.status;
    f :| f in w.trail.exits && ResultOf(svc, f, w.trail.logs, s.exec.jobUid.value, s.exitCode.value, s.output);
    ExitWasListed(svc, run, labels, j, f);
  }

  ghost predicate CreatedBefore(labels: seq<Action>, k: nat, uid: Uid)
    requires k <= |labels|
  {
    exists i :: 0 <= i < k && CreatesJob(labels[i]) && labels[i].effect.job.uid == uid
  }

  lemma StepOwnsByCreating(svc: Service, w: World, a: Action, uid: Uid)
    requires Enabled(svc, w, a) && uid !in w.trail.ours && uid in Apply(svc, w, a).trail.ours
    ensures CreatesJob(a) && a.effect.job.uid == uid
  {
    hide Enabled, AfterEvent, AfterEffect, AfterWrite, AfterJobChange;
    match a
    case Outside(e) => EventLeavesObjects(svc, w, e);
    case Jobs(c) => JobChangeKeepsTrail(w, c);
    case Write(e, m) => if !w.gone { WriteKeepsExits(w, e, m); }
    case Own(e) => EffectOwnsByCreating(w, e, uid);
  }

  lemma JobChangeKeepsTrail(w: World, c: JobChange)
    ensures AfterJobChange(w, c).trail.ours == w.trail.ours && AfterJobChange(w, c).trail.linked == w.trail.linked
    ensures AfterJobChange(w, c).trail.pinned == w.trail.pinned
  {
  }

  lemma EffectOwnsByCreating(w: World, e: Effect, uid: Uid)
    requires uid !in w.trail.ours && uid in AfterEffect(w, e).trail.ours
    ensures e.CreateJob? && e.job.uid == uid
  {
    match e { case SetFinalizer => case _ => }
  }

  lemma {:induction false} OursWereCreated(svc: Service, run: seq<World>, labels: seq<Action>, k: nat, uid: Uid)
    requires IsRun(svc, run, labels) && k < |run| && uid in run[k].trail.ours
    ensures CreatedBefore(labels, k, uid)
    decreases k
  {
    if k > 0 {
      assert Step(svc, run[k - 1], labels[k - 1], run[k - 1 + 1]);
      if uid in run[k - 1].trail.ours {
        OursWereCreated(svc, run, labels, k - 1, uid);
      } else {
        StepOwnsByCreating(svc, run[k - 1], labels[k - 1], uid);
      }
    }
  }

  /** The recorded UID is that of a Job this controller created, earlier in the run. */
  lemma RecordedWasCreated(svc: Service, run: seq<World>, labels: seq<Action>, k: nat)
    requires IsRun(svc, run, labels) && k < |run|
    requires !run[k].gone && run[k].last.status.exec.jobUid.Some?
    ensures CreatedBefore(labels, k, run[k].last.status.exec.jobUid.value)
  {
    RunInv(svc, run, labels, k);
    OursWereCreated(svc, run, labels, k, run[k].last.status.exec.jobUid.value);
  }

  // ----- No orphan -----

  predicate OwnJob(w: World, name: string) {
    name in w.jobs && w.jobs[name].uid in w.trail.ours
  }

  predicate IsOver(w: World) {
    !w.gone && IsTerminal(w.last.status.phase)
  }

  /** From the step that makes any request terminal, nothing this controller created for it is left
      running; from the step that releases a cross-namespace request, nothing it created is left at
      all. Both hold ever after. */
  lemma NoOrphan(svc: Service, run: seq<World>, labels: seq<Action>)
    requires IsRun(svc, run, labels)
    ensures forall k, n :: 0 <= k < |run| && OwnJob(run[k], n) && IsTerminal(run[k].last.status.phase) ==>
              run[k].jobs[n].finished
    ensures svc.crossNamespace(run[0].spec) ==>
              forall k, n :: 0 <= k < |run| && run[k].gone ==> !OwnJob(run[k], n)
  {
    forall k | 0 <= k < |run|
      ensures Inv(svc, run[k]) && run[k].spec == run[0].spec
    {
      RunInv(svc, run, labels, k);
      RunReach(svc, run, labels, 0, k);
    }
  }

  // ----- One durable link -----

  predicate Sends(a: Action, token: string) {
    a == Own(Send(token))
  }

  predicate StoresHash(a: Action, hash: string) {
    a.Write? && a.mutation.Review? && a.mutation.review.Pend? && a.mutation.review.token.hash == hash
  }

  ghost predicate PendedBefore(labels: seq<Action>, k: nat, hash: string)
    requires k <= |labels|
  {
    exists i :: 0 <= i < k && StoresHash(labels[i], hash)
  }

  /** Pending, and younger than the request's time to live. */
  predicate AwaitsApproval(w: World) {
    && !w.gone && w.last.status.phase == Pending
    && Unix(w.now) < w.last.createdAt + PENDING_REQUEST_TTL
  }

  lemma StepLinksOnlyByPend(svc: Service, w: World, a: Action, hash: string)
    requires Enabled(svc, w, a)
    requires hash !in w.trail.linked && hash in Apply(svc, w, a).trail.linked
    ensures StoresHash(a, hash)
  {
    hide Enabled, AfterEvent, AfterEffect, AfterWrite, AfterJobChange;
    match a
    case Outside(e) => EventLeavesTrail(svc, w, e);
    case Jobs(c) => JobChangeKeepsTrail(w, c);
    case Write(e, m) => if !w.gone { WriteLinksOnlyByPend(w, e, m, hash); }
    case Own(e) => EffectKeepsTrail(w, e);
  }

  lemma WriteLinksOnlyByPend(w: World, e: Edit, m: Mutation, hash: string)
    requires !w.gone && hash !in w.trail.linked && hash in AfterWrite(w, e, m).trail.linked
    ensures StoresHash(Write(e, m), hash)
  {
    hide MutateReview, MutateExec, MutateNote, Edited;
  }

  lemma EffectKeepsTrail(w: World, e: Effect)
    ensures AfterEffect(w, e).trail.linked == w.trail.linked && AfterEffect(w, e).trail.exits == w.trail.exits
    ensures AfterEffect(w, e).trail.vetted == w.trail.vetted && AfterEffect(w, e).trail.pinned == w.trail.pinned
    ensures AfterEffect(w, e).trail.autoApproved == w.trail.autoApproved
  {
    match e { case SetFinalizer => case _ => }
  }

  lemma {:induction false} LinkedWasPended(svc: Service, run: seq<World>, labels: seq<Action>, k: nat, hash: string)
    requires IsRun(svc, run, labels) && k < |run| && hash in run[k].trail.linked
    ensures PendedBefore(labels, k, hash)
    decreases k
  {
    if k > 0 {
      assert Step(svc, run[k - 1], labels[k - 1], run[k - 1 + 1]);
      if hash in run[k - 1].trail.linked {
        LinkedWasPended(svc, run, labels, k - 1, hash);
      } else {
        StepLinksOnlyByPend(svc, run[k - 1], labels[k - 1], hash);
      }
    }
  }

  lemma SendWasLinked(svc: Service, run: seq<World>, labels: seq<Action>, j: nat, token: string)
    requires IsRun(svc, run, labels) && j < |labels| && Sends(labels[j], token)
    ensures svc.sha256(token) in run[|run| - 1].trail.linked
    ensures PendedBefore(labels, j, svc.sha256(token))
  {
    assert Step(svc, run[j], labels[j], run[j + 1]);
    RunReach(svc, run, labels, j, |run| - 1);
    LinkedWasPended(svc, run, labels, j, svc.sha256(token));
  }

  lemma LinkedIsOne(svc: Service, run: seq<World>, labels: seq<Action>, g: string, h: string)
    requires IsRun(svc, run, labels)
    requires g in run[|run| - 1].trail.linked && h in run[|run| - 1].trail.linked
    ensures g == h
  {
    RunInv(svc, run, labels, |run| - 1);
  }

  lemma LinkSurvivesSweeps(svc: Service, run: seq<World>, labels: seq<Action>, k: nat)
    requires IsRun(svc, run, labels) && k < |run| && AwaitsApproval(run[k])
    ensures
      var token := run[k].last.status.token;
      token.secretName in run[k].tokens && svc.sha256(run[k].tokens[token.secretName].token) == token.hash
  {
    RunInv(svc, run, labels, k);
  }

  /** Every notification ever sent carries one and the same token; its hash was stored by the Pending
      write before the first send; and while the request is Pending and younger than its TTL the Secret
      that link is rebuilt from is there, whatever has been swept. */
  lemma OneDurableLink(svc: Service, run: seq<World>, labels: seq<Action>)
    requires IsRun(svc, run, labels)
    requires forall s, t :: svc.sha256(s) == svc.sha256(t) ==> s == t
    ensures forall i, j, s, t :: 0 <= i < |labels| && 0 <= j < |labels| && Sends(labels[i], s) && Sends(labels[j], t) ==> s == t
    ensures forall j, t :: 0 <= j < |labels| && Sends(labels[j], t) ==> PendedBefore(labels, j, svc.sha256(t))
    ensures forall k :: 0 <= k < |run| && AwaitsApproval(run[k]) ==>
              var token := run[k].last.status.token;
              token.secretName in run[k].tokens && svc.sha256(run[k].tokens[token.secretName].token) == token.hash
  {
    forall j, t | 0 <= j < |labels| && Sends(labels[j], t)
      ensures PendedBefore(labels, j, svc.sha256(t))
    {
      SendWasLinked(svc, run, labels, j, t);
    }
    forall i, j, s, t | 0 <= i < |labels| && 0 <= j < |labels| && Sends(labels[i], s) && Sends(labels[j], t)
      ensures s == t
    {
      SendWasLinked(svc, run, labels, i, s);
      SendWasLinked(svc, run, labels, j, t);
      LinkedIsOne(svc, run, labels, svc.sha256(s), svc.sha256(t));
    }
    forall k | 0 <= k < |run| && AwaitsApproval(run[k])
      ensures
        var token := run[k].last.status.token;
        token.secretName in run[k].tokens && svc.sha256(run[k].tokens[token.secretName].token) == token.hash
    {
      LinkSurvivesSweeps(svc, run, labels, k);
    }
  }

  // ----- The forward link -----

  /** supersededByUID is write-once. */
  lemma SupersededByIsWriteOnce(svc: Service, run: seq<World>, labels: seq<Action>, i: nat, j: nat)
    requires IsRun(svc, run, labels) && i <= j < |run|
    requires !run[i].gone && run[i].last.status.supersededBy.Some? && !run[j].gone
    ensures run[j].last.status.supersededBy == run[i].last.status.supersededBy
  {
    RunReach(svc, run, labels, i, j);
  }

  // ----- The notification -----

  /** Once recorded as delivered, the approval notification stays so. */
  lemma DeliveredForGood(svc: Service, run: seq<World>, labels: seq<Action>, i: nat, j: nat)
    requires IsRun(svc, run, labels) && i <= j < |run| && run[i].last.status.notification.state == NotificationDelivered
    ensures run[j].last.status.notification.state == NotificationDelivered
  {
    RunReach(svc, run, labels, i, j);
  }
}
