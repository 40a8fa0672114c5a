/** Cleanup playbooks (playbooks.go) over whole runs: which Jobs they may delete, and the one write
    that does not respect the phase machine. */
module PlaybookRuns {
  import opened Prelude
  import opened SudoTypes
  import opened Lifecycle
  import opened Invariants
  import opened Stability
  import opened Runs

  predicate DeletesTarget(a: Action, uid: Uid) {
    a == Own(DeleteTarget(uid))
  }

  predicate PinsTarget(a: Action, uid: Uid) {
    IsPlaybookApproval(a) && a.mutation.review.targetUid == Some(uid) && !a.mutation.review.absent
  }

  predicate IsHumanApproval(a: Action) {
    a.Write? && a.mutation.Review? && a.mutation.review.Approve?
  }

  /** The Job was seen terminal and allowlisted. */
  predicate SeenFit(svc: Service, w: World, uid: Uid) {
    w.target.Some? && w.target.value.uid == uid && svc.vetted(w.spec, w.target.value)
  }

  lemma WritePinsOnlyByApproval(svc: Service, w: World, e: Edit, m: Mutation, uid: Uid)
    requires !w.gone && MayWrite(svc, w, e, m)
    requires uid !in w.trail.pinned && uid in AfterWrite(w, e, m).trail.pinned
    ensures PinsTarget(Write(e, m), uid) && uid in w.trail.vetted
  {
    hide MutateReview, MutateExec, MutateNote, Edited, MayExecute, MayNote;
  }

  lemma StepPinsOnlyByApproval(svc: Service, w: World, a: Action, uid: Uid)
    requires Enabled(svc, w, a)
    requires uid !in w.trail.pinned && uid in Apply(svc, w, a).trail.pinned
    ensures PinsTarget(a, uid) && uid in w.trail.vetted
  {
    hide MayWrite, EventEnabled, JobChangeEnabled, EffectEnabled, AfterEvent, AfterEffect, AfterWrite, AfterJobChange, PinsTarget;
    match a
    case Outside(e) => EventLeavesTrail(svc, w, e);
    case Jobs(c) => JobChangeKeepsTrail(w, c);
    case Write(e, m) => WritePinsOnlyByApproval(svc, w, e, m, uid);
    case Own(e) => EffectKeepsTrail(w, e);
  }

  lemma StepVetsOnlyTheSeen(svc: Service, w: World, a: Action, uid: Uid)
    requires Enabled(svc, w, a)
    requires uid !in w.trail.vetted && uid in Apply(svc, w, a).trail.vetted
    ensures SeenFit(svc, Apply(svc, w, a), uid)
  {
    hide Enabled, AfterEvent, AfterEffect, AfterWrite, SeenFit;
    if a.Outside? {
      EventVetsTheSeen(svc, w, a.event, uid);
    } else if a.Own? {
      EffectKeepsTrail(w, a.effect);
    } else if a.Write? {
      WriteKeepsExits(w, a.edit, a.mutation);
    }
  }

  lemma EventVetsTheSeen(svc: Service, w: World, e: Event, uid: Uid)
    requires uid !in w.trail.vetted && uid in AfterEvent(svc, w, e).trail.vetted
    ensures SeenFit(svc, AfterEvent(svc, w, e), uid)
  {
    match e { case UserDelete => case _ => }
  }

  ghost predicate SeenFitBy(svc: Service, run: seq<World>, k: nat, uid: Uid)
    requires k < |run|
  {
    exists i :: 0 <= i <= k && SeenFit(svc, run[i], uid)
  }

  lemma {:induction false} VettedWasSeen(svc: Service, run: seq<World>, labels: seq<Action>, k: nat, uid: Uid)
    requires IsRun(svc, run, labels) && k < |run| && uid in run[k].trail.vetted
    ensures SeenFitBy(svc, run, k, uid)
    decreases k
  {
    if k == 0 {
      assert SeenFit(svc, run[0], uid);
    } else {
      assert Step(svc, run[k - 1], labels[k - 1], run[k - 1 + 1]);
      if uid in run[k - 1].trail.vetted {
        VettedWasSeen(svc, run, labels, k - 1, uid);
      } else {
        StepVetsOnlyTheSeen(svc, run[k - 1], labels[k - 1], uid);
      }
    }
  }

  ghost predicate PinnedBefore(svc: Service, run: seq<World>, labels: seq<Action>, k: nat, uid: Uid)
    requires |run| == |labels| + 1 && k <= |labels|
  {
    exists i :: 0 <= i < k && PinsTarget(labels[i], uid) && SeenFitBy(svc, run, i, uid)
  }

  lemma {:induction false} PinnedWasApproved(svc: Service, run: seq<World>, labels: seq<Action>, k: nat, uid: Uid)
    requires IsRun(svc, run, labels) && k < |run| && uid in run[k].trail.pinned
    ensures PinnedBefore(svc, run, labels, k, uid)
    decreases k
  {
    if k > 0 {
      assert Step(svc, run[k - 1], labels[k - 1], run[k - 1 + 1]);
      if uid in run[k - 1].trail.pinned {
        PinnedWasApproved(svc, run, labels, k - 1, uid);
      } else {
        StepPinsOnlyByApproval(svc, run[k - 1], labels[k - 1], uid);
        VettedWasSeen(svc, run, labels, k - 1, uid);
      }
    }
  }

  /** Every deletion the playbook path issues names, as its precondition, the UID stored by an earlier
      automatic approval of a Job that had by then been seen terminal and allowlisted. */
  lemma DeletionsArePinned(svc: Service, run: seq<World>, labels: seq<Action>, j: nat, uid: Uid)
    requires IsRun(svc, run, labels) && j < |labels| && DeletesTarget(labels[j], uid)
    ensures PinnedBefore(svc, run, labels, j, uid)
  {
    assert Step(svc, run[j], labels[j], run[j + 1]);
    PinnedWasApproved(svc, run, labels, j, uid);
  }

  // ----- More than one approval -----

  predicate IsApproval(a: Action) {
    IsPlaybookApproval(a) || IsHumanApproval(a) || (a.Write? && a.mutation.Review? && a.mutation.review.AutoApprove?)
  }

  lemma ApprovalDecides(svc: Service, w: World, a: Action)
    requires Enabled(svc, w, a) && IsApproval(a)
    ensures Apply(svc, w, a).last.status.phase == Approved
    ensures !IsPlaybookApproval(a) ==> !Decided(w.last.status.phase)
  {
    hide AfterReview, EventEnabled, JobChangeEnabled, EffectEnabled;
    ReviewApproves(w, a.edit, a.mutation.review);
  }

  lemma ReviewApproves(w: World, e: Edit, m: ReviewWrite)
    requires !w.gone && (m.Approve? || m.AutoApprove? || m.ApprovePlaybook?)
    ensures AfterReview(w, e, m).last.status.phase == Approved
    ensures m.Approve? ==> AfterReview(w, e, m).last.status.playbook == NO_PLAYBOOK
    ensures m.ApprovePlaybook? ==> AfterReview(w, e, m).last.status.playbook == PlaybookState(true, m.targetUid, m.absent)
  {
  }

  /** After any approval the only further one is a playbook's, and it lands on a request already decided. */
  lemma LaterApprovalIsLate(svc: Service, run: seq<World>, labels: seq<Action>, i: nat, j: nat)
    requires IsRun(svc, run, labels) && i < j < |labels| && IsApproval(labels[i]) && IsApproval(labels[j])
    ensures IsPlaybookApproval(labels[j]) && Decided(run[j].last.status.phase)
  {
    assert Step(svc, run[i], labels[i], run[i + 1]);
    assert Step(svc, run[j], labels[j], run[j + 1]);
    ApprovalDecides(svc, run[i], labels[i]);
    ApprovalDecides(svc, run[j], labels[j]);
    RunReach(svc, run, labels, i + 1, j);
  }

  /** Every approval of a playbook lands on a request still new. It need not: handleNew may work from a copy
      that another party's write, or the controller's own behind a lagging cache, has overtaken. */
  ghost predicate ApprovedWhenNew(run: seq<World>, labels: seq<Action>) {
    forall k :: 0 <= k < |labels| && k < |run| && IsPlaybookApproval(labels[k]) ==> PhaseOf(run[k]) == Some(New)
  }

  /** If so, a playbook approval is the only approval of its run. */
  lemma OnlyApproval(svc: Service, run: seq<World>, labels: seq<Action>, i: nat, j: nat)
    requires IsRun(svc, run, labels) && ApprovedWhenNew(run, labels)
    requires i < |labels| && j < |labels| && IsPlaybookApproval(labels[i]) && IsApproval(labels[j])
    ensures i == j
  {
    if i < j {
      LaterApprovalIsLate(svc, run, labels, i, j);
    } else if j < i {
      LaterApprovalIsLate(svc, run, labels, j, i);
    }
  }

  // ----- Approvals that should delete nothing -----

  /** By a human, or of a target recorded as absent. */
  predicate ShouldDeleteNothing(a: Action) {
    IsHumanApproval(a) || (IsPlaybookApproval(a) && a.mutation.review.absent)
  }

  ghost predicate PinnedLate(run: seq<World>, labels: seq<Action>, i: nat, k: nat, uid: Uid)
    requires |run| == |labels| + 1 && k <= |labels|
  {
    exists p :: i < p < k && PinsTarget(labels[p], uid) && Decided(run[p].last.status.phase)
  }

  predicate IsPinned(s: Status, uid: Uid) {
    s.playbook == PlaybookState(true, Some(uid), false)
  }

  lemma StepPinsStatus(svc: Service, w: World, a: Action, uid: Uid)
    requires Enabled(svc, w, a) && !IsPinned(w.last.status, uid) && IsPinned(Apply(svc, w, a).last.status, uid)
    ensures PinsTarget(a, uid)
  {
    hide Enabled, AfterEvent, AfterEffect, AfterJobChange, AfterWrite;
    match a
    case Outside(e) => EventKeepsStatus(svc, w, e);
    case Own(e) => EffectKeepsStatus(w, e);
    case Jobs(c) => JobChangeKeepsStatus(w, c);
    case Write(e, m) => if !w.gone { WritePinsStatus(w, e, m, uid); }
  }

  lemma WritePinsStatus(w: World, e: Edit, m: Mutation, uid: Uid)
    requires !w.gone && !IsPinned(w.last.status, uid) && IsPinned(AfterWrite(w, e, m).last.status, uid)
    ensures PinsTarget(Write(e, m), uid)
  {
    hide AfterReview, AfterExec, AfterNote;
    if m.Review? && (m.review.Approve? || m.review.ApprovePlaybook?) {
      ReviewApproves(w, e, m.review);
    } else {
      WriteKeepsPlaybook(w, e, m);
    }
  }

  lemma WriteKeepsPlaybook(w: World, e: Edit, m: Mutation)
    requires !w.gone && !(m.Review? && (m.review.Approve? || m.review.ApprovePlaybook?))
    ensures AfterWrite(w, e, m).last.status.playbook == w.last.status.playbook
  {
    hide Mutate, AfterWrite;
    WriteMutates(w, e, m);
    MutateKeepsPlaybook(m, Edited(e, w.last.status));
  }

  lemma WriteMutates(w: World, e: Edit, m: Mutation)
    requires !w.gone
    ensures AfterWrite(w, e, m).last.status == Mutate(m, Edited(e, w.last.status))
  {
    hide MutateReview, MutateExec, MutateNote, Edited;
  }

  lemma MutateKeepsPlaybook(m: Mutation, s: Status)
    requires !(m.Review? && (m.review.Approve? || m.review.ApprovePlaybook?))
    ensures Mutate(m, s).playbook == s.playbook
  {
  }

  lemma ApprovalUnpins(svc: Service, w: World, a: Action, uid: Uid)
    requires Enabled(svc, w, a) && ShouldDeleteNothing(a)
    ensures !IsPinned(Apply(svc, w, a).last.status, uid)
  {
    hide AfterReview, EventEnabled, JobChangeEnabled, EffectEnabled;
    ReviewApproves(w, a.edit, a.mutation.review);
  }

  lemma {:induction false} PinAfterIsLate(svc: Service, run: seq<World>, labels: seq<Action>, i: nat, k: nat, uid: Uid)
    requires IsRun(svc, run, labels) && i < k < |run| && ShouldDeleteNothing(labels[i])
    requires IsPinned(run[k].last.status, uid)
    ensures PinnedLate(run, labels, i, k, uid)
    decreases k
  {
    assert Step(svc, run[k - 1], labels[k - 1], run[k - 1 + 1]);
    if i == k - 1 {
      ApprovalUnpins(svc, run[i], labels[i], uid);
    } else if IsPinned(run[k - 1].last.status, uid) {
      PinAfterIsLate(svc, run, labels, i, k - 1, uid);
    } else {
      StepPinsStatus(svc, run[k - 1], labels[k - 1], uid);
      LaterApprovalIsLate(svc, run, labels, i, k - 1);
    }
  }

  /** After a human's approval, or one of a target recorded as absent, a deletion needs a later approval that
      pins its target and lands on a request already decided. A human's approval has no deletion before it
      either, nor has any approval of a new request. */
  lemma DeletionNeedsLatePin(svc: Service, run: seq<World>, labels: seq<Action>, i: nat, j: nat, uid: Uid)
    requires IsRun(svc, run, labels) && i < |labels| && j < |labels|
    requires ShouldDeleteNothing(labels[i]) && DeletesTarget(labels[j], uid)
    requires i < j || IsHumanApproval(labels[i]) || PhaseOf(run[i]) == Some(New)
    ensures PinnedLate(run, labels, i, j, uid)
  {
    assert Step(svc, run[j], labels[j], run[j + 1]);
    if i < j {
      PinAfterIsLate(svc, run, labels, i, j, uid);
    } else {
      assert Step(svc, run[i], labels[i], run[i + 1]);
      ApprovalDecides(svc, run[i], labels[i]);
      RunReach(svc, run, labels, j, i);
    }
  }

  /** If every playbook approval lands on a new request, such an approval leaves its whole run without a
      deletion. */
  lemma AbsentAndHumanDeleteNothing(svc: Service, run: seq<World>, labels: seq<Action>, i: nat, j: nat, uid: Uid)
    requires IsRun(svc, run, labels) && ApprovedWhenNew(run, labels)
    requires i < |labels| && j < |labels| && ShouldDeleteNothing(labels[i])
    ensures !DeletesTarget(labels[j], uid)
  {
    if DeletesTarget(labels[j], uid) {
      DeletionNeedsLatePin(svc, run, labels, i, j, uid);
    }
  }

  ghost predicate Continues(svc: Service, run: seq<World>, labels: seq<Action>, run': seq<World>, labels': seq<Action>) {
    IsRun(svc, run', labels') && run <= run' && labels <= labels'
  }

  ghost predicate Deletes(labels: seq<Action>, from: nat, uid: Uid) {
    exists j :: from <= j < |labels| && DeletesTarget(labels[j], uid)
  }

  ghost predicate CanDelete(svc: Service, run: seq<World>, labels: seq<Action>, uid: Uid) {
    exists run', labels' :: Continues(svc, run, labels, run', labels') && Deletes(labels', |labels|, uid)
  }

  ghost predicate CanPin(svc: Service, run: seq<World>, labels: seq<Action>, run': seq<World>, labels': seq<Action>, uid: Uid) {
    Continues(svc, run, labels, run', labels') && PinsLate(run', labels', |labels|, uid)
  }

  ghost predicate PinsLate(run: seq<World>, labels: seq<Action>, from: nat, uid: Uid)
    requires |run| == |labels| + 1
  {
    exists p :: from <= p < |labels| && PinsTarget(labels[p], uid) && Decided(run[p].last.status.phase)
  }

  ghost predicate CanPinLate(svc: Service, run: seq<World>, labels: seq<Action>, uid: Uid) {
    exists run', labels' :: CanPin(svc, run, labels, run', labels', uid)
  }

  lemma PinEnablesDeletion(svc: Service, w: World, a: Action, uid: Uid)
    requires Enabled(svc, w, a) && PinsTarget(a, uid)
    ensures Enabled(svc, Apply(svc, w, a), Own(DeleteTarget(uid)))
  {
  }

  lemma PrefixIsRun(svc: Service, run: seq<World>, labels: seq<Action>, n: nat)
    requires IsRun(svc, run, labels) && n <= |labels|
    ensures IsRun(svc, run[..n + 1], labels[..n])
  {
    forall k | 0 <= k < n
      ensures Step(svc, run[..n + 1][k], labels[..n][k], run[..n + 1][k + 1])
    {
      assert Step(svc, run[k], labels[k], run[k + 1]);
    }
  }

  lemma PinThenDelete(svc: Service, run: seq<World>, labels: seq<Action>, p: nat, uid: Uid)
    requires IsRun(svc, run, labels) && p < |labels| && PinsTarget(labels[p], uid)
    ensures IsRun(svc, run[..p + 2] + [Apply(svc, run[p + 1], Own(DeleteTarget(uid)))], labels[..p + 1] + [Own(DeleteTarget(uid))])
  {
    PrefixIsRun(svc, run, labels, p + 1);
    assert Step(svc, run[p], labels[p], run[p + 1]);
    PinEnablesDeletion(svc, run[p], labels[p], uid);
    ExtendRun(svc, run[..p + 2], labels[..p + 1], Own(DeleteTarget(uid)));
  }

  lemma DeletionTakesLatePin(svc: Service, run: seq<World>, labels: seq<Action>, uid: Uid)
    requires IsRun(svc, run, labels) && labels != [] && ShouldDeleteNothing(labels[|labels| - 1])
    requires CanDelete(svc, run, labels, uid)
    ensures CanPinLate(svc, run, labels, uid)
  {
    hide IsRun, ShouldDeleteNothing, DeletesTarget, PinsTarget;
    var n := |labels|;
    var run': seq<World>, labels': seq<Action> :| Continues(svc, run, labels, run', labels') && Deletes(labels', n, uid);
    var j :| n <= j < |labels'| && DeletesTarget(labels'[j], uid);
    assert labels'[n - 1] == labels[n - 1];
    RunLengths(svc, run', labels');
    DeletionNeedsLatePin(svc, run', labels', n - 1, j, uid);
    assert PinsLate(run', labels', n, uid);
    assert CanPin(svc, run, labels, run', labels', uid);
  }

  lemma RunLengths(svc: Service, run: seq<World>, labels: seq<Action>)
    requires IsRun(svc, run, labels)
    ensures |run| == |labels| + 1
  {
  }

  lemma LatePinAllowsDeletion(svc: Service, run: seq<World>, labels: seq<Action>, uid: Uid)
    requires IsRun(svc, run, labels) && CanPinLate(svc, run, labels, uid)
    ensures CanDelete(svc, run, labels, uid)
  {
    hide IsRun, PinsTarget, Apply;
    var n := |labels|;
    RunLengths(svc, run, labels);
    var run': seq<World>, labels': seq<Action> :| CanPin(svc, run, labels, run', labels', uid);
    RunLengths(svc, run', labels');
    var p :| n <= p < |labels'| && PinsTarget(labels'[p], uid) && Decided(run'[p].last.status.phase);
    PinThenDelete(svc, run', labels', p, uid);
    var labels2 := labels'[..p + 1] + [Own(DeleteTarget(uid))];
    assert DeletesTarget(labels2[p + 1], uid) && Deletes(labels2, n, uid);
    assert Continues(svc, run, labels, run'[..p + 2] + [Apply(svc, run'[p + 1], Own(DeleteTarget(uid)))], labels2);
  }

  /** Exactly so: from such an approval on, a deletion can follow if and only if a pinning approval can land on
      the request, which is no longer new. */
  lemma DeletableExactlyWhenPinnedLate(svc: Service, run: seq<World>, labels: seq<Action>, uid: Uid)
    requires IsRun(svc, run, labels) && labels != [] && ShouldDeleteNothing(labels[|labels| - 1])
    ensures CanDelete(svc, run, labels, uid) <==> CanPinLate(svc, run, labels, uid)
  {
    if CanDelete(svc, run, labels, uid) {
      DeletionTakesLatePin(svc, run, labels, uid);
    }
    if CanPinLate(svc, run, labels, uid) {
      LatePinAllowsDeletion(svc, run, labels, uid);
    }
  }

  // ----- The write that looks at no phase -----

  /** The state machine as stored: an edge or nothing, and a token exactly while Pending. */
  ghost predicate Lawful(w: World, w': World) {
    && PhaseKeptOrEdge(w, w')
    && (!w'.gone ==> (w'.last.status.token.hash != "" <==> w'.last.status.phase == Pending))
  }

  /** The playbook mutator keeps the machine's law exactly when it lands on a request that is still new
      or already approved. */
  lemma PlaybookApprovalLawfulExactlyWhen(svc: Service, w: World, e: Edit, m: ReviewWrite)
    requires !w.gone && m.ApprovePlaybook? && MayReview(svc, w, e, m)
    requires w.last.status.token.hash != "" <==> w.last.status.phase == Pending
    ensures Lawful(w, AfterReview(w, e, m)) <==> w.last.status.phase == New || w.last.status.phase == Approved
  {
  }

  function PutLink(w: World, token: string): Action {
    Own(PutToken("sudo-approval-token", TokenSecret(token, w.last.createdAt + PENDING_REQUEST_TTL)))
  }

  function PendWith(svc: Service, r: Resolution, token: string): Action {
    Write(Resolve(r), Review(Pend(TokenRef(svc.sha256(token), None, "sudo-approval-token"), false)))
  }

  predicate Unminted(w: World, p: Phase) {
    !w.gone && w.last.status.phase == p && w.last.status.exec.jobName == ""
  }

  predicate Mintable(svc: Service, token: string) {
    token != "" && svc.sha256(token) != ""
  }

  lemma QueueSteps(svc: Service, w: World, r: Resolution, token: string)
    requires Initial(svc, w) && svc.accepted(w.spec)
    requires ResolvesTo(svc, w.spec, r) && svc.gate(w.spec, r.image).None? && Mintable(svc, token)
    ensures
      var put, pend := PutLink(w, token), PendWith(svc, r, token);
      var w1 := Apply(svc, w, put);
      && Enabled(svc, w, put) && Enabled(svc, w1, pend)
      && Unminted(Apply(svc, w1, pend), Pending) && Apply(svc, w1, pend).spec == w.spec
  {
  }

  /** One step more. */
  lemma Then(svc: Service, run: seq<World>, labels: seq<Action>, a: Action) returns (run': seq<World>, labels': seq<Action>)
    requires IsRun(svc, run, labels) && Enabled(svc, run[|run| - 1], a)
    ensures IsRun(svc, run', labels')
    ensures run' == run + [Apply(svc, run[|run| - 1], a)] && labels' == labels + [a]
  {
    ExtendRun(svc, run, labels, a);
    run', labels' := run + [Apply(svc, run[|run| - 1], a)], labels + [a];
  }

  lemma NewRun(svc: Service, w: World)
    requires Initial(svc, w)
    ensures IsRun(svc, [w], []) && Unminted(w, New)
  {
  }

  /** A playbook request that needed a human, up to the human's decision. */
  lemma DecidedRun(svc: Service, w: World, r: Resolution, token: string, m: ReviewWrite)
    returns (run: seq<World>, labels: seq<Action>)
    requires Initial(svc, w) && svc.accepted(w.spec) && (m.Approve? || m.Deny?)
    requires ResolvesTo(svc, w.spec, r) && svc.gate(w.spec, r.image).None? && Mintable(svc, token)
    ensures IsRun(svc, run, labels) && run[0] == w && run[|run| - 1].spec == w.spec && |labels| == 3
    ensures labels[2] == Write(NoEdit, Review(m)) && Unminted(run[3], if m.Approve? then Approved else Denied)
  {
    hide Initial, Enabled, Apply, PutLink, PendWith, ResolvesTo, Unminted;
    NewRun(svc, w);
    QueueSteps(svc, w, r, token);
    run, labels := Then(svc, [w], [], PutLink(w, token));
    run, labels := Then(svc, run, labels, PendWith(svc, r, token));
    DecideStep(svc, run[2], m);
    run, labels := Then(svc, run, labels, Write(NoEdit, Review(m)));
  }

  lemma DecideStep(svc: Service, w: World, m: ReviewWrite)
    requires Unminted(w, Pending) && (m.Approve? || m.Deny?)
    ensures
      var a := Write(NoEdit, Review(m));
      && Enabled(svc, w, a) && Unminted(Apply(svc, w, a), if m.Approve? then Approved else Denied)
      && Apply(svc, w, a).spec == w.spec
  {
  }

  /** The target appears, terminal and allowlisted, and a handler that has seen the request new records it. */
  lemma LatePinSteps(svc: Service, w: World, p: Phase, job: TargetJob)
    requires Unminted(w, p) && w.spec.playbook.Some? && svc.accepted(w.spec) && svc.vetted(w.spec, job)
    ensures
      var appear := Outside(TargetChange(Some(job)));
      var pin := Write(NoEdit, Review(ApprovePlaybook(Some(job.uid), false, w.now)));
      var w1 := Apply(svc, w, appear);
      && Enabled(svc, w, appear) && Enabled(svc, w1, pin) && PhaseOf(w1) == Some(p)
      && PhaseOf(Apply(svc, w1, pin)) == Some(Approved)
      && Enabled(svc, Apply(svc, w1, pin), Own(DeleteTarget(job.uid)))
  {
  }

  /** Some Job of that UID would pass for the playbook's target. */
  ghost predicate HasFitTarget(svc: Service, spec: Spec, uid: Uid) {
    spec.playbook.Some? && exists job :: svc.vetted(spec, job) && job.uid == uid
  }

  lemma ApprovalLeavesUnminted(svc: Service, w: World, a: Action)
    requires Inv(svc, w) && Enabled(svc, w, a) && ShouldDeleteNothing(a)
    ensures Unminted(Apply(svc, w, a), Approved) && svc.accepted(w.spec) && Apply(svc, w, a).spec == w.spec
  {
    hide GenuineResult, ResultInv, JobInv, LinkInv, TrailInv, SecretInv, EventEnabled, JobChangeEnabled, EffectEnabled;
  }

  lemma PinNeedsFitTarget(svc: Service, run: seq<World>, labels: seq<Action>, p: nat, uid: Uid)
    requires IsRun(svc, run, labels) && p < |labels| && PinsTarget(labels[p], uid)
    ensures HasFitTarget(svc, run[0].spec, uid)
  {
    assert Step(svc, run[p], labels[p], run[p + 1]);
    VettedWasSeen(svc, run, labels, p, uid);
    var i :| 0 <= i <= p && SeenFit(svc, run[i], uid);
    RunReach(svc, run, labels, 0, i);
    RunReach(svc, run, labels, 0, p);
  }

  lemma FitTargetCanBePinned(svc: Service, run: seq<World>, labels: seq<Action>, job: TargetJob)
    requires IsRun(svc, run, labels) && labels != []
    requires Unminted(run[|labels|], Approved) && svc.accepted(run[|labels|].spec) && run[|labels|].spec.playbook.Some?
    requires svc.vetted(run[|labels|].spec, job)
    ensures CanPinLate(svc, run, labels, job.uid)
  {
    hide IsRun, Enabled, Apply, Unminted;
    RunLengths(svc, run, labels);
    var n := |labels|;
    LatePinSteps(svc, run[n], Approved, job);
    var pin := Write(NoEdit, Review(ApprovePlaybook(Some(job.uid), false, run[n].now)));
    var run1, labels1 := Then(svc, run, labels, Outside(TargetChange(Some(job))));
    var run2, labels2 := Then(svc, run1, labels1, pin);
    assert labels2[n + 1] == pin && PinsTarget(pin, job.uid) && run2[n + 1] == run1[n + 1];
    assert PinsLate(run2, labels2, n, job.uid);
    assert CanPin(svc, run, labels, run2, labels2, job.uid);
  }

  /** And nothing in the state after such an approval stands in its way: a deletion can follow exactly when the
      request names a playbook for which some Job of that UID would do. */
  lemma DeletableExactlyWhenFit(svc: Service, run: seq<World>, labels: seq<Action>, uid: Uid)
    requires IsRun(svc, run, labels) && labels != [] && ShouldDeleteNothing(labels[|labels| - 1])
    ensures CanDelete(svc, run, labels, uid) <==> HasFitTarget(svc, run[0].spec, uid)
  {
    hide IsRun, Enabled, Apply, Unminted, ShouldDeleteNothing, PinsTarget, Inv;
    RunLengths(svc, run, labels);
    var n := |labels|;
    DeletableExactlyWhenPinnedLate(svc, run, labels, uid);
    if CanPinLate(svc, run, labels, uid) {
      var run': seq<World>, labels': seq<Action> :| CanPin(svc, run, labels, run', labels', uid);
      RunLengths(svc, run', labels');
      var p :| n <= p < |labels'| && PinsTarget(labels'[p], uid) && Decided(run'[p].last.status.phase);
      PinNeedsFitTarget(svc, run', labels', p, uid);
    }
    if HasFitTarget(svc, run[0].spec, uid) {
      var job :| svc.vetted(run[0].spec, job) && job.uid == uid;
      LastStep(svc, run, labels);
      ApprovalLeavesUnminted(svc, run[n - 1], labels[n - 1]);
      FitTargetCanBePinned(svc, run, labels, job);
    }
  }

  lemma LastStep(svc: Service, run: seq<World>, labels: seq<Action>)
    requires IsRun(svc, run, labels) && labels != []
    ensures
      var n := |labels|;
      Step(svc, run[n - 1], labels[n - 1], run[n]) && Inv(svc, run[n - 1]) && run[n - 1].spec == run[0].spec
  {
    hide Enabled, Apply, Inv, Initial, RequestReach, TokensReach;
    var n := |labels|;
    assert Step(svc, run[n - 1], labels[n - 1], run[n - 1 + 1]);
    RunInv(svc, run, labels, n - 1);
    RunReach(svc, run, labels, 0, n - 1);
  }

  /** And it does land elsewhere: a handler that saw the request new, and whose write loses a race to
      a human's denial, approves the denied request. */
  lemma DeniedPlaybookApproved(svc: Service, w: World, r: Resolution, job: TargetJob, token: string)
    returns (run: seq<World>, labels: seq<Action>, k: nat)
    requires Initial(svc, w) && w.spec.playbook.Some? && svc.accepted(w.spec)
    requires ResolvesTo(svc, w.spec, r) && svc.gate(w.spec, r.image).None? && Mintable(svc, token)
    requires svc.vetted(w.spec, job)
    ensures IsRun(svc, run, labels) && run[0] == w && k < |labels|
    ensures PhaseOf(run[k]) == Some(Denied) && PhaseOf(run[k + 1]) == Some(Approved)
  {
    hide Initial, Enabled, Apply, ResolvesTo, Unminted;
    run, labels := DecidedRun(svc, w, r, token, Deny("reviewer", "no", w.now));
    LatePinSteps(svc, run[3], Denied, job);
    run, labels := Then(svc, run, labels, Outside(TargetChange(Some(job))));
    run, labels := Then(svc, run, labels, Write(NoEdit, Review(ApprovePlaybook(Some(job.uid), false, run[3].now))));
    k := 4;
  }

  /** A human's approval, and a deletion all the same. */
  lemma HumanApprovedThenDeleted(svc: Service, w: World, r: Resolution, job: TargetJob, token: string)
    returns (run: seq<World>, labels: seq<Action>)
    requires Initial(svc, w) && w.spec.playbook.Some? && svc.accepted(w.spec)
    requires ResolvesTo(svc, w.spec, r) && svc.gate(w.spec, r.image).None? && Mintable(svc, token)
    requires svc.vetted(w.spec, job)
    ensures IsRun(svc, run, labels) && run[0] == w && |labels| == 6
    ensures IsHumanApproval(labels[2]) && DeletesTarget(labels[5], job.uid)
  {
    hide Initial, Enabled, Apply, ResolvesTo, Unminted;
    run, labels := DecidedRun(svc, w, r, token, Approve("reviewer", w.now));
    LatePinSteps(svc, run[3], Approved, job);
    run, labels := Then(svc, run, labels, Outside(TargetChange(Some(job))));
    run, labels := Then(svc, run, labels, Write(NoEdit, Review(ApprovePlaybook(Some(job.uid), false, run[3].now))));
    run, labels := Then(svc, run, labels, Own(DeleteTarget(job.uid)));
  }

  lemma AbsentStep(svc: Service, w: World)
    requires Unminted(w, New) && w.spec.playbook.Some? && svc.accepted(w.spec) && svc.mayBeAbsent(w.spec)
    ensures
      var a := Write(NoEdit, Review(ApprovePlaybook(None, true, w.now)));
      Enabled(svc, w, a) && Unminted(Apply(svc, w, a), Approved) && Apply(svc, w, a).spec == w.spec
  {
  }

  /** A target recorded as absent, and deleted all the same: it appears after the approval, and a second
      handleNew, from a copy the cache still shows as new, pins it. No other writer is needed. */
  lemma AbsentThenDeleted(svc: Service, w: World, job: TargetJob) returns (run: seq<World>, labels: seq<Action>)
    requires Initial(svc, w) && w.spec.playbook.Some? && svc.accepted(w.spec)
    requires svc.mayBeAbsent(w.spec) && svc.vetted(w.spec, job)
    ensures IsRun(svc, run, labels) && run[0] == w && |labels| == 4
    ensures IsPlaybookApproval(labels[0]) && labels[0].mutation.review.absent && DeletesTarget(labels[3], job.uid)
  {
    hide Initial, Enabled, Apply, Unminted;
    NewRun(svc, w);
    AbsentStep(svc, w);
    run, labels := Then(svc, [w], [], Write(NoEdit, Review(ApprovePlaybook(None, true, w.now))));
    LatePinSteps(svc, run[1], Approved, job);
    run, labels := Then(svc, run, labels, Outside(TargetChange(Some(job))));
    run, labels := Then(svc, run, labels, Write(NoEdit, Review(ApprovePlaybook(Some(job.uid), false, run[1].now))));
    run, labels := Then(svc, run, labels, Own(DeleteTarget(job.uid)));
  }

  /** Were names minted when the approval lands, the playbook path would then record the request as executed
      with the Job as it is: nothing of ours is left running exactly when nothing of ours was. */
  lemma ApprovalOrphansExactlyWhen(w: World, e: Edit, m: ReviewWrite)
    requires !w.gone && m.ApprovePlaybook?
    ensures
      var w' := AfterExec(AfterReview(w, e, m), NoEdit, FinishPlaybook);
      IsTerminal(w'.last.status.phase) && (NoLiveOwnJob(w') <==> NoLiveOwnJob(w))
  {
  }
}
