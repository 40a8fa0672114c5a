/** What every reachable world satisfies, and what no step can undo. */
module Invariants {
  import opened Prelude
  import opened SudoTypes
  import opened Lifecycle

  // ----- The invariants -----

  /** Phases a request reaches only through an approval. */
  predicate CarriedOut(p: Phase) {
    p == Approved || p == Executed || p == Failed
  }

  ghost predicate ObjectInv(w: World) {
    && w.last.spec == w.spec
    && (w.last.deleting ==> w.last.finalizer)
    && w.last.createdAt * SECOND <= w.now
  }

  /** Jobs this controller created sit at the minted name only, and across namespaces the finalizer
      holds the request as long as one exists. */
  ghost predicate JobInv(svc: Service, w: World) {
    && (forall u :: u in w.trail.ours ==> u in w.trail.uids)
    && (forall n :: n in w.jobs ==> w.jobs[n].uid in w.trail.uids)
    && (!svc.crossNamespace(w.spec) ==> forall n :: n in w.jobs ==> w.jobs[n].uid in w.trail.ours)
    && forall n :: n in w.jobs && w.jobs[n].uid in w.trail.ours ==>
         && n != "" && n == w.last.status.exec.jobName
         && (svc.crossNamespace(w.spec) ==> !w.gone && w.last.finalizer)
  }

  ghost predicate ExecInv(w: World) {
    && (w.trail.recorded.Some? ==> w.trail.recorded.value in w.trail.ours)
    && var s := w.last.status;
       && s.exec.jobUid == w.trail.recorded
       && (s.exec.jobUid.Some? ==> s.exec.jobName != "")
       && (!CarriedOut(s.phase) ==> s.exec == ExecState("", "", None))
       && (s.playbook.autoApproved ==> s.exec.jobName == "")
  }

  /** A stored result is genuine unless a playbook ran instead of a Job, execution leaves a result only after
      an approval, and nothing of ours runs once the phase is terminal. */
  ghost predicate ResultInv(svc: Service, w: World) {
    var s := w.last.status;
    && (s.exitCode.Some? && !s.playbook.autoApproved ==>
          s.exec.jobUid.Some? && GenuineResult(svc, w.trail.exits, w.trail.logs, s.exec.jobUid.value, s.exitCode.value, s.output))
    && (!CarriedOut(s.phase) ==> s.exitCode.None?)
    && (s.exitCode.None? ==> s.output == NO_OUTPUT)
    && (s.phase == Executed ==> s.exitCode == Some(0))
    && (IsTerminal(s.phase) ==> NoLiveOwnJob(w))
    && (w.spec.playbook.None? ==> s.playbook == NO_PLAYBOOK)
  }

  ghost predicate LinkInv(svc: Service, w: World) {
    && |w.trail.linked| <= 1
    && (forall t :: t in w.trail.sent ==> svc.sha256(t) in w.trail.linked)
    && var s := w.last.status;
       && (s.phase == New ==>
             && w.trail.linked == [] && s.token == NO_TOKEN
             && s.notification == EMPTY_STATUS.notification && s.assessment == AssessmentUnset)
       && (s.token.hash != "" ==> s.token.hash in w.trail.linked)
       && (s.phase == Pending ==> s.token.hash != "" && (!w.gone ==> LinkAlive(svc, w, w.last.createdAt, s.token)))
       && (w.spec.playbook.None? && s.phase != Pending ==> s.token == NO_TOKEN)
  }

  /** The recorded image, if any, is the one the spec resolves to. */
  predicate ImageSettled(svc: Service, spec: Spec, s: Status) {
    s.resolution.image != "" ==> svc.resolve(spec).Some? && s.resolution.image == svc.resolve(spec).value.image
  }

  ghost predicate GateInv(svc: Service, w: World) {
    var s := w.last.status;
    && (s.phase != New && s.phase != Denied ==> svc.accepted(w.spec))
    && ImageSettled(svc, w.spec, s)
    && (s.phase == New ==> s.resolution.image == "" && !w.trail.autoApproved)
    && (w.spec.playbook.None? && s.phase != New && s.phase != Denied ==> s.resolution.image != "")
    && (w.spec.playbook.None? && s.phase == Pending ==> !w.trail.autoApproved && svc.gate(w.spec, s.resolution.image).None?)
    && (w.spec.playbook.None? && CarriedOut(s.phase) ==>
          (w.trail.autoApproved <==> svc.gate(w.spec, s.resolution.image).Some?))
  }

  /** The audit trail records what it should: vetted targets, pinned approvals. */
  ghost predicate TrailInv(svc: Service, w: World) {
    && (w.target.Some? && svc.vetted(w.spec, w.target.value) ==> w.target.value.uid in w.trail.vetted)
    && (forall u :: u in w.trail.pinned ==> u in w.trail.vetted)
    && var p := w.last.status.playbook;
       && (p.targetUid.Some? ==> p.targetUid.value in w.trail.pinned)
       && (p.targetAbsent ==> p.targetUid.None?)
       && (p.autoApproved ==> w.spec.playbook.Some?)
  }

  /** Every output Secret holds the log of a container of our Job; token names are never reused. */
  ghost predicate SecretInv(w: World) {
    && (forall n :: n in w.tokens ==> n in w.trail.tokenNames)
    && forall n :: n in w.outputs ==> w.outputs[n] in w.trail.logs && w.trail.recorded == Some(w.outputs[n].owner)
  }

  ghost predicate Inv(svc: Service, w: World) {
    && ObjectInv(w) && JobInv(svc, w) && ExecInv(w) && ResultInv(svc, w)
    && LinkInv(svc, w) && GateInv(svc, w) && TrailInv(svc, w) && SecretInv(w)
    && ExitsOf(w.pods) <= w.trail.exits
  }

  lemma InitialInv(svc: Service, w: World)
    requires Initial(svc, w)
    ensures Inv(svc, w)
  {
  }

  // ----- Each step keeps them -----

  lemma GenuineResultLasts(svc: Service, w: World, w': World, uid: Uid, code: int, output: Output)
    requires GenuineResult(svc, w.trail.exits, w.trail.logs, uid, code, output)
    requires w.trail.exits <= w'.trail.exits && w.trail.logs <= w'.trail.logs
    ensures GenuineResult(svc, w'.trail.exits, w'.trail.logs, uid, code, output)
  {
  }

  /** What time, users, the kubelet and the target namespace leave alone. */
  ghost predicate EventFrame(svc: Service, w: World, w': World) {
    && w'.spec == w.spec && w.now <= w'.now && w'.jobs == w.jobs && w'.tokens == w.tokens
    && w'.last == w.last.(deleting := w'.last.deleting, version := w'.last.version)
    && (w'.last.deleting ==> w.last.deleting || w.last.finalizer)
    && (w.gone ==> w'.gone) && (w'.gone && !w.gone ==> !w.last.finalizer)
    && w'.trail == w.trail.(exits := w'.trail.exits, logs := w'.trail.logs, vetted := w'.trail.vetted)
    && w.trail.exits <= w'.trail.exits && w.trail.logs <= w'.trail.logs && w.trail.vetted <= w'.trail.vetted
    && (w'.target.Some? && svc.vetted(w.spec, w'.target.value) ==> w'.target == w.target || w'.target.value.uid in w'.trail.vetted)
    && (w'.pods == w.pods || ExitsOf(w'.pods) <= w'.trail.exits)
    && forall n :: n in w'.outputs ==> n in w.outputs && w'.outputs[n] == w.outputs[n]
  }

  lemma EventsFrame(svc: Service, w: World, e: Event)
    ensures EventFrame(svc, w, AfterEvent(svc, w, e))
  {
    hide ExitsOf;
    match e { case UserDelete => case _ => }
  }

  lemma FrameKeepsExecution(svc: Service, w: World, w': World)
    requires EventFrame(svc, w, w') && ObjectInv(w) && JobInv(svc, w) && ExecInv(w) && ResultInv(svc, w)
    ensures ObjectInv(w') && JobInv(svc, w') && ExecInv(w') && ResultInv(svc, w')
  {
  }

  lemma FrameKeepsRecords(svc: Service, w: World, w': World)
    requires EventFrame(svc, w, w') && LinkInv(svc, w) && GateInv(svc, w) && TrailInv(svc, w) && SecretInv(w)
    ensures LinkInv(svc, w') && GateInv(svc, w') && TrailInv(svc, w') && SecretInv(w')
  {
  }

  lemma EventKeepsInv(svc: Service, w: World, e: Event)
    requires Inv(svc, w) && EventEnabled(svc, w, e)
    ensures Inv(svc, AfterEvent(svc, w, e))
  {
    hide AfterEvent;
    EventsFrame(svc, w, e);
    FrameKeepsExecution(svc, w, AfterEvent(svc, w, e));
    FrameKeepsRecords(svc, w, AfterEvent(svc, w, e));
  }

  lemma JobChangeKeepsExecution(svc: Service, w: World, c: JobChange)
    requires Inv(svc, w) && JobChangeEnabled(svc, w, c)
    ensures
      var w' := AfterJobChange(w, c);
      ObjectInv(w') && JobInv(svc, w') && ExecInv(w') && ResultInv(svc, w')
  {
    hide LinkInv, GateInv, TrailInv, SecretInv, GenuineResult;
  }

  lemma JobChangeKeepsRecords(svc: Service, w: World, c: JobChange)
    requires Inv(svc, w) && JobChangeEnabled(svc, w, c)
    ensures
      var w' := AfterJobChange(w, c);
      LinkInv(svc, w') && GateInv(svc, w') && TrailInv(svc, w') && SecretInv(w') && ExitsOf(w'.pods) <= w'.trail.exits
  {
  }

  lemma JobChangeKeepsInv(svc: Service, w: World, c: JobChange)
    requires Inv(svc, w) && JobChangeEnabled(svc, w, c)
    ensures Inv(svc, AfterJobChange(w, c))
  {
    JobChangeKeepsExecution(svc, w, c);
    JobChangeKeepsRecords(svc, w, c);
  }

  lemma EffectKeepsExecution(svc: Service, w: World, e: Effect)
    requires Inv(svc, w) && EffectEnabled(svc, w, e)
    ensures
      var w' := AfterEffect(w, e);
      ObjectInv(w') && JobInv(svc, w') && ExecInv(w')
  {
    hide ResultInv, LinkInv, GateInv, TrailInv, SecretInv, GenuineResult;
  }

  lemma EffectKeepsResult(svc: Service, w: World, e: Effect)
    requires Inv(svc, w) && EffectEnabled(svc, w, e)
    ensures ResultInv(svc, AfterEffect(w, e))
  {
    hide ObjectInv, LinkInv, GateInv, TrailInv, SecretInv;
  }

  lemma EffectKeepsLink(svc: Service, w: World, e: Effect)
    requires Inv(svc, w) && EffectEnabled(svc, w, e)
    ensures LinkInv(svc, AfterEffect(w, e))
  {
    hide JobInv, ExecInv, GateInv, TrailInv, GenuineResult;
  }

  lemma EffectKeepsGate(svc: Service, w: World, e: Effect)
    requires Inv(svc, w) && EffectEnabled(svc, w, e)
    ensures GateInv(svc, AfterEffect(w, e))
  {
    hide ObjectInv, JobInv, ExecInv, ResultInv, LinkInv, TrailInv, SecretInv, GenuineResult;
  }

  lemma EffectKeepsRecords(svc: Service, w: World, e: Effect)
    requires Inv(svc, w) && EffectEnabled(svc, w, e)
    ensures
      var w' := AfterEffect(w, e);
      TrailInv(svc, w') && SecretInv(w') && ExitsOf(w'.pods) <= w'.trail.exits
  {
    hide ObjectInv, JobInv, ResultInv, LinkInv, GateInv, GenuineResult;
  }

  lemma EffectKeepsInv(svc: Service, w: World, e: Effect)
    requires Inv(svc, w) && EffectEnabled(svc, w, e)
    ensures Inv(svc, AfterEffect(w, e))
  {
    EffectKeepsExecution(svc, w, e);
    EffectKeepsResult(svc, w, e);
    EffectKeepsLink(svc, w, e);
    EffectKeepsGate(svc, w, e);
    EffectKeepsRecords(svc, w, e);
  }

  lemma ReviewKeepsExecution(svc: Service, w: World, e: Edit, m: ReviewWrite)
    requires Inv(svc, w) && !w.gone && MayReview(svc, w, e, m)
    ensures
      var w' := AfterReview(w, e, m);
      ObjectInv(w') && JobInv(svc, w') && ExecInv(w') && ResultInv(svc, w')
  {
  }

  lemma ReviewKeepsRecords(svc: Service, w: World, e: Edit, m: ReviewWrite)
    requires Inv(svc, w) && !w.gone && MayReview(svc, w, e, m)
    ensures
      var w' := AfterReview(w, e, m);
      LinkInv(svc, w') && GateInv(svc, w') && TrailInv(svc, w') && SecretInv(w') && ExitsOf(w'.pods) <= w'.trail.exits
  {
  }

  lemma ReviewKeepsInv(svc: Service, w: World, e: Edit, m: ReviewWrite)
    requires Inv(svc, w) && !w.gone && MayReview(svc, w, e, m)
    ensures Inv(svc, AfterReview(w, e, m))
  {
    ReviewKeepsExecution(svc, w, e, m);
    ReviewKeepsRecords(svc, w, e, m);
  }

  lemma ExecKeepsExecution(svc: Service, w: World, e: Edit, m: ExecWrite)
    requires Inv(svc, w) && !w.gone && MayExecute(svc, w, e, m)
    ensures
      var w' := AfterExec(w, e, m);
      ObjectInv(w') && JobInv(svc, w') && ExecInv(w') && ResultInv(svc, w')
  {
  }

  lemma ExecKeepsRecords(svc: Service, w: World, e: Edit, m: ExecWrite)
    requires Inv(svc, w) && !w.gone && MayExecute(svc, w, e, m)
    ensures
      var w' := AfterExec(w, e, m);
      LinkInv(svc, w') && GateInv(svc, w') && TrailInv(svc, w') && SecretInv(w') && ExitsOf(w'.pods) <= w'.trail.exits
  {
  }

  lemma ExecKeepsInv(svc: Service, w: World, e: Edit, m: ExecWrite)
    requires Inv(svc, w) && !w.gone && MayExecute(svc, w, e, m)
    ensures Inv(svc, AfterExec(w, e, m))
  {
    ExecKeepsExecution(svc, w, e, m);
    ExecKeepsRecords(svc, w, e, m);
  }

  lemma NoteKeepsInv(svc: Service, w: World, e: Edit, n: Note)
    requires Inv(svc, w) && !w.gone && MayNote(w, e, n)
    ensures Inv(svc, AfterNote(w, e, n))
  {
  }

  lemma StepKeepsInv(svc: Service, w: World, a: Action)
    requires Inv(svc, w) && Enabled(svc, w, a)
    ensures Inv(svc, Apply(svc, w, a))
  {
    match a
    case Outside(e) => EventKeepsInv(svc, w, e);
    case Jobs(c) => JobChangeKeepsInv(svc, w, c);
    case Write(e, Review(m)) => ReviewKeepsInv(svc, w, e, m);
    case Write(e, Exec(m)) => ExecKeepsInv(svc, w, e, m);
    case Write(e, Noted(n)) => NoteKeepsInv(svc, w, e, n);
    case Own(e) => EffectKeepsInv(svc, w, e);
  }
}
