/** What the reconciler's calls amount to: what they ask of the work queue, where they take a request, and
    the small facts about single writes that their proofs rest on. */
module Outcomes {
  import opened Prelude
  import opened SudoTypes
  import opened Lifecycle
  import opened Invariants
  import opened Stability
  import opened Api
  import AutoApprove
  import opened Reviewing
  import Profiles
  import Runs
  import opened Playbooks
  import opened PodBuild
  import opened Validation
  import opened Wiring
  import opened Writes

  /** What a reconcile asks of the work queue. Nothing means it is done with the request. */
  datatype Reply = Nothing | Requeue | RequeueAfter(delay: int) | Failure

  /** The target is as the playbook's approval recorded it. */
  predicate MayProceed(target: Option<TargetJob>, playbook: PlaybookState) {
    target.Some? ==> !playbook.targetAbsent && playbook.targetUid == Some(target.value.uid) && JobTerminal(target.value)
  }

  /** The request is over with this result: Executed for exit code zero, Failed for any other. */
  predicate Concluded(w: World, code: int, output: Output) {
    && !w.gone && w.last.status.exitCode == Some(code) && w.last.status.output == output
    && w.last.status.phase == (if code == 0 then Executed else Failed)
  }

  /** Names minted for a spec: a stdin Secret only for one that has stdin. */
  predicate NamesFit(spec: Spec, exec: ExecState) {
    && HasPrefix(exec.jobName, "sudo-exec-")
    && (if spec.stdin != "" then HasPrefix(exec.stdinName, "sudo-stdin-") else exec.stdinName == "")
  }

  /** A result was stored before the Job went. */
  predicate HasResult(s: Status) {
    s.exitCode.Some? && (s.output.secretRef != "" || s.output.capture != CaptureUnset)
  }

  lemma WritingLeavesJobs(w: World, e: Edit, m: Mutation)
    requires !w.gone
    ensures AfterWrite(w, e, m).jobs == w.jobs
  {
    hide MutateReview, MutateExec, MutateNote, Edited;
  }

  lemma ApprovedNow(sr: Request, w: World)
    requires StillApproved(sr, w)
    ensures !w.gone ==> w.last.status.phase == Approved
  {
  }

  lemma ReleasedLeavesNoJob(svc: Service, w: World)
    requires Inv(svc, w)
    ensures svc.crossNamespace(w.spec) && w.gone ==> forall n :: !Runs.OwnJob(w, n)
  {
  }

  lemma FinishKeepsTarget(w: World)
    requires !w.gone
    ensures AfterWrite(w, NoEdit, Exec(FinishPlaybook)).target == w.target
  {
  }

  lemma AcceptedPlaybook(cfg: Config, svc: Service, spec: Spec)
    requires Wired(cfg, svc) && svc.accepted(spec) && spec.playbook.Some?
    ensures CleanupParameters(cfg.lib, spec).Some?
  {
  }

  /** The answer of prepareAutoApprovedPlaybook: an approval to record, or a reason to ask a human. */
  datatype Preparation = ByPlaybook(state: PlaybookState) | ByHuman(reason: string) | Unprepared

  /** Where the first undisturbed reconcile takes a new request. */
  function FirstPhase(cfg: Config, spec: Spec, target: Option<TargetJob>): Phase {
    if !Accepted(cfg, spec) then Denied
    else if spec.playbook.Some? && Prepared(cfg, spec, target).Some? then Approved
    else if Gate(cfg, spec, Profiles.ResolveAndPreflight(cfg, spec).value.image).Some? then Approved
    else Pending
  }

  /** The status an undisturbed first reconcile at `now` leaves: its phase, who decided, when and on what record,
      the image settled on, and for a human's decision a link to send, good for an hour. Without a playbook
      nothing but a plain command on an allowlist is approved. */
  ghost predicate FirstDecision(cfg: Config, spec: Spec, target: Option<TargetJob>, now: Time, s: Status) {
    && s.phase == FirstPhase(cfg, spec, target)
    && (s.phase == Denied ==>
          && s.decision.deniedBy == (if cfg.lib.shellSyntaxOk(spec.command) then "spec-validation" else "syntax-check")
          && s.decision.deniedAt == Some(now) && s.decision.denialReason != "")
    && (s.phase == Approved ==>
          && s.decision.approvedBy == "auto-approve" && s.decision.approvedAt == Some(now)
          && (spec.playbook.Some? ==> Prepared(cfg, spec, target).Some? && s.playbook == Prepared(cfg, spec, target).value)
          && (spec.playbook.None? ==>
                IsPlain(spec) && cfg.lib.shlexSplit(spec.command).Some?
                && AutoApprove.Admits(cfg.autoApproveRules, cfg.lib.shlexSplit(spec.command).value, s.resolution.image)))
    && (s.phase == Pending ==>
          && s.token.hash != "" && s.token.expiresAt == Some(now + 3_600_000_000_000)
          && s.notification.state == NotificationPending && s.notification.nextAttempt.None?
          && s.assessment == if cfg.assessments then AssessmentPending else AssessmentUnset)
    && (s.phase != Denied ==> IsSettled(cfg, spec, spec.playbook.Some? && s.phase == Pending, s.resolution))
  }

  /** The profile, image and warnings of the preflight, with one more warning where a playbook is left to a human. */
  ghost predicate IsSettled(cfg: Config, spec: Spec, fallsBack: bool, r: Resolution) {
    var found := Profiles.ResolveAndPreflight(cfg, spec);
    && found.Some? && r.profile == found.value.profile && r.image == found.value.image
    && found.value.warnings <= r.warnings && |r.warnings| == |found.value.warnings| + if fallsBack then 1 else 0
  }

  lemma GateAdmitsThePlain(cfg: Config, spec: Spec, image: string)
    ensures Gate(cfg, spec, image).Some? ==>
              IsPlain(spec) && cfg.lib.shlexSplit(spec.command).Some?
              && AutoApprove.Admits(cfg.autoApproveRules, cfg.lib.shlexSplit(spec.command).value, image)
  {
    ExtrasAreNotPlain(spec);
    if Gate(cfg, spec, image).Some? {
      AutoApprove.ParsedExactlyWhen(cfg, spec.command, image, Gate(cfg, spec, image).value);
    }
  }

  lemma PlaybookDecides(cfg: Config, spec: Spec, target: Option<TargetJob>, now: Time, s: Status)
    requires Accepted(cfg, spec) && spec.playbook.Some? && Prepared(cfg, spec, target) == Some(s.playbook)
    requires s.phase == Approved && s.decision.approvedBy == "auto-approve" && s.decision.approvedAt == Some(now)
    requires IsSettled(cfg, spec, false, s.resolution)
    ensures FirstDecision(cfg, spec, target, now, s)
  {
    hide Prepared, Profiles.ResolveAndPreflight, SpecExtrasOk, PlaybookOk;
  }

  lemma AllowlistDecides(cfg: Config, spec: Spec, target: Option<TargetJob>, now: Time, s: Status)
    requires Accepted(cfg, spec) && (spec.playbook.Some? ==> Prepared(cfg, spec, target).None?)
    requires Gate(cfg, spec, s.resolution.image).Some?
    requires s.phase == Approved && s.decision.approvedBy == "auto-approve" && s.decision.approvedAt == Some(now)
    requires IsSettled(cfg, spec, spec.playbook.Some?, s.resolution)
    ensures FirstDecision(cfg, spec, target, now, s)
  {
    GateAdmitsThePlain(cfg, spec, s.resolution.image);
    hide Prepared, Profiles.ResolveAndPreflight, SpecExtrasOk, PlaybookOk, Gate, AutoApprove.Admits;
  }

  lemma QueueDecides(cfg: Config, spec: Spec, target: Option<TargetJob>, now: Time, s: Status)
    requires Accepted(cfg, spec) && (spec.playbook.Some? ==> Prepared(cfg, spec, target).None?)
    requires Gate(cfg, spec, s.resolution.image).None?
    requires s.phase == Pending && s.token.hash != "" && s.token.expiresAt == Some(now + 3_600_000_000_000)
    requires s.notification.state == NotificationPending && s.notification.nextAttempt.None?
    requires s.assessment == if cfg.assessments then AssessmentPending else AssessmentUnset
    requires IsSettled(cfg, spec, spec.playbook.Some?, s.resolution)
    ensures FirstDecision(cfg, spec, target, now, s)
  {
    hide Prepared, Profiles.ResolveAndPreflight, SpecExtrasOk, PlaybookOk, Gate, AutoApprove.Admits;
  }

  lemma NewIsBlank(svc: Service, w: World)
    requires Inv(svc, w) && w.last.status.phase == New
    ensures w.last.status.notification.nextAttempt.None? && w.last.status.assessment == AssessmentUnset
  {
    hide GenuineResult;
  }

  lemma ResolutionFits(cfg: Config, svc: Service, spec: Spec)
    requires Wired(cfg, svc)
    ensures Profiles.ResolveAndPreflight(cfg, spec).Some? ==>
              EditFits(svc, spec, Resolve(Profiles.ResolveAndPreflight(cfg, spec).value))
  {
  }

  /** The gate sees the image just resolved. */
  lemma AdmissionFacts(cfg: Config, svc: Service, sr: Request, resolution: Resolution, resolved: Resolution)
    requires Wired(cfg, svc) && Accepted(cfg, sr.spec)
    requires Profiles.ResolveAndPreflight(cfg, sr.spec) == Some(resolution)
    requires resolved.profile == resolution.profile && resolved.image == resolution.image
    ensures svc.accepted(sr.spec) && EditFits(svc, sr.spec, Resolve(resolved))
    ensures svc.gate(sr.spec, resolved.image) == Gate(cfg, sr.spec, resolution.image)
    ensures AutoApproveTokens(cfg, sr.(status := sr.status.(resolution := resolved))) == Gate(cfg, sr.spec, resolution.image)
  {
  }

  lemma AcceptedTarget(cfg: Config, spec: Spec)
    requires Accepted(cfg, spec)
    ensures spec.playbook.Some? ==> CleanupParameters(cfg.lib, spec).Some?
  {
  }

  lemma DroppingReaches(svc: Service, w: World, name: string)
    ensures Reach(w, w) && Reach(w, AfterEffect(w, DropToken(name)))
    ensures AfterEffect(w, DropToken(name)).Shown() == w.Shown()
  {
  }

  lemma DecisionDecides(sr: Request, m: ReviewWrite)
    requires m.Approve? || m.Deny?
    ensures Decided(Stored(sr, NoEdit, Review(m)).status.phase)
  {
  }

  lemma DeletingIsNotHeld(mode: Mode, w: World, w': World)
    requires Reach(w, w') && ModeInv(mode, w') && !w.gone && w.last.deleting
    ensures !mode.SidecarHeld?
  {
  }

  lemma MayRelease(svc: Service, mode: Mode, w0: World, sr: Request)
    requires Inv(svc, w0) && !mode.SidecarHeld? && sr.deleting && sr.finalizer
    requires sr.status.exec.jobName == "" || NameClear(w0, sr.status.exec.jobName)
    ensures forall w {:trigger Between(svc, Controller, w0, w)} ::
              Between(svc, Controller, w0, w) && w.Shown() == Some(sr) && Inv(svc, w) && ModeInv(mode, w)
              ==> Enabled(svc, w, Own(ReleaseFinalizer)) && ModeInv(mode, Apply(svc, w, Own(ReleaseFinalizer)))
  {
    forall w | Between(svc, Controller, w0, w) && w.Shown() == Some(sr) && Inv(svc, w)
      ensures Enabled(svc, w, Own(ReleaseFinalizer))
    {
      if sr.status.exec.jobName == "" {
        NoNamelessJob(svc, w);
      } else {
        NameStaysClear(svc, w0, w, sr.status.exec.jobName);
      }
      hide Between, Inv;
    }
  }

  lemma NoNamelessJob(svc: Service, w: World)
    requires Inv(svc, w) && !w.gone && w.last.status.exec.jobName == ""
    ensures !OwnJobAtName(w)
  {
  }

  /** A second past the end of the request's time to live. */
  function UntilExpiry(sr: Request, now: Time): int {
    (sr.createdAt + PENDING_REQUEST_TTL + 1) * SECOND - now
  }

  /** The Secret holds the token whose hash was stored. */
  predicate Deliverable(svc: Service, w: World) {
    var ref := w.last.status.token;
    && ref.secretName != "" && ref.secretName in w.tokens && w.tokens[ref.secretName].token != ""
    && svc.sha256(w.tokens[ref.secretName].token) == ref.hash
  }

  lemma DeliverableWhilePending(svc: Service, w: World)
    requires Inv(svc, w)
    ensures Runs.PhaseOf(w) == Some(Pending) && w.now < (w.last.createdAt + PENDING_REQUEST_TTL) * SECOND ==> Deliverable(svc, w)
  {
  }

  /** What the model that assesses requests may answer: an assessment, or that there is none, or an error. */
  predicate IsAnswer(a: Assessment) {
    a.AssessmentGenerated? || a.AssessmentFailed?
  }

  /** The first answer stays. */
  function Assessed(a: Assessment, answer: Assessment): Assessment {
    if a == AssessmentPending then answer else a
  }

  /** One more attempt, made at `at`: delivered, and nothing left to send; or failed, and due again thirty
      seconds later. */
  predicate Attempted(n: Notification, n': Notification, sent: bool, at: Time) {
    && n'.attempts == n.attempts + 1 && n'.lastAttempt == Some(at)
    && if sent then
         n'.state == NotificationDelivered && n'.nextAttempt.None? && n'.deliveredAt.Some? && n'.lastError == ""
       else
         n'.state == n.state && n'.nextAttempt == Some(at + 30_000_000_000) && n'.deliveredAt == n.deliveredAt
  }

  predicate AtMostOneSent(w: World, w': World) {
    w'.trail.sent == w.trail.sent || (|w'.trail.sent| == |w.trail.sent| + 1 && w.trail.sent <= w'.trail.sent)
  }

  /** What a round leaves of the notification of `sr`, and of what has been sent. `accepts`: the send, if
      there is one, succeeds. */
  predicate Notified(sr: Request, accepts: bool, w: World, w': World) {
    var n, n' := sr.status.notification, w'.last.status.notification;
    if n.state == NotificationPending && (n.nextAttempt.None? || n.nextAttempt.value <= w.now) then
      && Attempted(n, n', accepts, w.now) && sr.status.token.secretName in w.tokens
      && w'.trail.sent == w.trail.sent + if accepts then [w.tokens[sr.status.token.secretName].token] else []
    else n' == n && w'.trail.sent == w.trail.sent
  }

  /** When the next round is due: a second after the request's hour is over, unless an attempt is to be repeated
      or waited for. */
  function NextRound(sr: Request, accepts: bool, now: Time): int {
    var n := sr.status.notification;
    if n.state == NotificationPending && n.nextAttempt.Some? && now < n.nextAttempt.value then n.nextAttempt.value - now
    else if n.state == NotificationPending && !accepts then 30_000_000_000
    else (sr.createdAt + 3601) * 1_000_000_000 - now
  }

  /** What a round leaves of a request that stays Pending: assessed, and notified once if that was due. */
  predicate StillPending(sr: Request, answer: Assessment, accepts: bool, w: World, w': World) {
    && !w'.gone && w'.last.status.phase == Pending
    && w'.last.status.assessment == Assessed(sr.status.assessment, answer)
    && Notified(sr, accepts, w, w')
  }

  lemma AttemptIsRecorded(sr: Request, sent: bool, at: Time, deliveredAt: Time)
    ensures
      var note := if sent then SendDelivered(at, deliveredAt, "") else SendFailed(at, at + 30 * SECOND, "send failed");
      var s := Stored(sr, NoEdit, Noted(note)).status;
      && Attempted(sr.status.notification, s.notification, sent, at)
      && s.phase == sr.status.phase && s.assessment == sr.status.assessment
  {
  }

  lemma NotingTakesNoTime(w: World, n: Note)
    requires !w.gone
    ensures AfterWrite(w, NoEdit, Noted(n)).now == w.now && AfterWrite(w, NoEdit, Noted(n)).tokens == w.tokens
    ensures AfterWrite(w, NoEdit, Noted(n)).trail == w.trail
  {
  }

  lemma AssessingAssesses(sr: Request, answer: Assessment)
    ensures Stored(sr, NoEdit, Noted(Assess(answer))).status == sr.status.(assessment := answer)
  {
  }

  lemma OthersSendNothing(svc: Service, w: World, w': World)
    requires Rely(svc, w, w')
    ensures w'.trail.sent == w.trail.sent
  {
  }

  lemma ReviewSendsNothing(w: World, e: Edit, m: ReviewWrite)
    requires !w.gone
    ensures AfterWrite(w, e, Review(m)).trail.sent == w.trail.sent && AfterWrite(w, e, Review(m)).tokens == w.tokens
  {
    hide MutateReview, Edited;
  }

  lemma DecidedLater(w: World, w': World)
    requires Reach(w, w') && !w.gone && Decided(w.last.status.phase)
    ensures w'.gone || Decided(w'.last.status.phase)
  {
  }

  /** The link is burnt: its Secret is gone. */
  predicate IsSpent(token: TokenRef, w: World) {
    token.secretName != "" ==> token.secretName !in w.tokens
  }

  predicate HappenedBetween(at: Option<Time>, w: World, w': World) {
    at.Some? && w.now <= at.value <= w'.now
  }

  lemma ClockRuns(w: World, w': World)
    requires Reach(w, w')
    ensures w.now <= w'.now
  {
  }

  // ----- What the writes leave alone -----

  /** Who decides, decides; the execution state, the result and the links are not touched. */
  lemma DecisionsDecide(m: ReviewWrite, s: Status)
    ensures
      var t := MutateReview(m, s);
      && t.exec == s.exec && t.exitCode == s.exitCode && t.output == s.output && t.failureReason == s.failureReason
      && t.supersededBy == s.supersededBy && t.resolution == s.resolution
      && (t.phase == Approved <==> m.Approve? || m.AutoApprove? || m.ApprovePlaybook?)
      && (t.phase == Denied <==> m.Deny? || m.DenyInvalid?) && (t.phase == Expired <==> m.Expire?)
      && (t.phase == Approved ==>
            && t.decision.approvedBy == (if m.Approve? then m.actor else "auto-approve") && t.decision.approvedAt == Some(m.at)
            && t.decision.deniedBy == s.decision.deniedBy && t.decision.denialReason == s.decision.denialReason
            && t.playbook == (match m case Approve(_, _) => PlaybookState(false, None, false)
                                      case ApprovePlaybook(uid, absent, _) => PlaybookState(true, uid, absent)
                                      case _ => s.playbook))
      && (t.phase == Denied ==>
            && t.decision.deniedBy == m.actor && t.decision.deniedAt == Some(m.at) && t.decision.denialReason == m.reason
            && t.decision.approvedBy == s.decision.approvedBy && t.decision.approvedAt == s.decision.approvedAt)
      && (m.Approve? || m.Deny? || m.Expire? ==> t.token == TokenRef("", None, ""))
      && (!m.Pend? ==> t.notification == s.notification && t.assessment == s.assessment)
      && (m.Pend? ==>
            && t.phase == Pending && t.token == m.token && t.decision == s.decision
            && t.notification == s.notification.(state := NotificationPending)
            && t.assessment == if m.assess then AssessmentPending else s.assessment)
      && (!m.Approve? && !m.ApprovePlaybook? ==> t.playbook == s.playbook)
  {
  }

  /** Carrying out changes nothing of the decision; a name or UID on record stays, and only an end has an end's
      phase: Executed for exit code zero, Failed otherwise. */
  lemma ExecutionLeavesDecision(m: ExecWrite, s: Status)
    ensures
      var t := MutateExec(m, s);
      && t.decision == s.decision && t.resolution == s.resolution && t.playbook == s.playbook
      && t.supersededBy == s.supersededBy && t.assessment == s.assessment && t.notification == s.notification && t.token == s.token
      && (s.exec.jobName != "" ==> t.exec.jobName == s.exec.jobName && t.exec.stdinName == s.exec.stdinName)
      && (s.exec.jobUid.Some? ==> t.exec.jobUid == s.exec.jobUid)
      && (m.Finish? || m.Capture? ==> t.exitCode == Some(m.code) && t.output == m.output)
      && (m.FinishPlaybook? ==> t.exitCode == Some(0) && t.failureReason == "" && t.output == s.output)
      && (m.Fail? ==> t.failureReason == m.reason && t.exitCode == s.exitCode && t.output == s.output)
      && t.phase == (if m.FinishPlaybook? || (m.Finish? && m.code == 0) then Executed
                     else if m.Fail? || m.Finish? then Failed else s.phase)
  {
  }

  /** Notes note: the phase, the decision, the execution and its result stay. */
  lemma NotesLeaveTheRest(n: Note, s: Status)
    ensures
      var t := MutateNote(n, s);
      && t.phase == s.phase && t.decision == s.decision && t.failureReason == s.failureReason && t.resolution == s.resolution
      && t.playbook == s.playbook && t.exitCode == s.exitCode && t.output == s.output && t.exec == s.exec && t.token == s.token
      && t.supersededBy == (if n.Link? then Some(n.uid) else s.supersededBy)
      && t.assessment == (if n.Assess? then n.assessment else s.assessment)
      && (n.Link? || n.Assess? ==> t.notification == s.notification)
  {
  }

  lemma PlaybookApproves(sr: Request, e: Edit, m: ReviewWrite)
    requires m.ApprovePlaybook?
    ensures Stored(sr, e, Review(m)).status.phase == Approved
    ensures Stored(sr, e, Review(m)).status.playbook == PlaybookState(true, m.targetUid, m.absent)
    ensures Stored(sr, e, Review(m)).status.decision.approvedBy == "auto-approve"
    ensures Stored(sr, e, Review(m)).status.decision.approvedAt == Some(m.at)
    ensures e.Resolve? ==> Stored(sr, e, Review(m)).status.resolution == e.resolution
  {
  }

  lemma UnixOfLater(createdAt: nat, now: Time)
    requires createdAt * SECOND <= now
    ensures Unix(now + PENDING_REQUEST_TTL * SECOND) >= createdAt + PENDING_REQUEST_TTL
  {
  }

  lemma PendingLinkIsAlive(svc: Service, w: World)
    requires Inv(svc, w) && Runs.PhaseOf(w) == Some(Pending)
    ensures LinkAlive(svc, w, w.last.createdAt, w.last.status.token)
  {
  }

  lemma PreparedIsVetted(cfg: Config, svc: Service, w: World, sr: Request, state: PlaybookState)
    requires Wired(cfg, svc) && Inv(svc, w) && w.spec == sr.spec
    requires Prepared(cfg, sr.spec, w.target) == Some(state)
    ensures state.autoApproved
    ensures if state.targetAbsent then state.targetUid.None? && svc.mayBeAbsent(sr.spec)
            else state.targetUid.Some? && state.targetUid.value in w.trail.vetted
  {
  }

  lemma StaysUnminted(svc: Service, w: World, w': World)
    requires Rely(svc, w, w')
    ensures IsMinted(w') == IsMinted(w)
  {
  }

  lemma VettedLater(svc: Service, w: World, w': World)
    requires Rely(svc, w, w')
    ensures w'.spec == w.spec && Subset(w.trail.vetted, w'.trail.vetted)
  {
  }
}
