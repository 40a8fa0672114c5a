/** The lifecycle of one SudoRequest as a labelled transition system: the world of objects behind
    the apiserver, every atomic action any party takes on it, and when that action may happen.
    The reconciler's methods are proved elsewhere to take no step that is not enabled here. */
module Lifecycle {
  import opened Prelude
  import opened SudoTypes

  const PENDING_REQUEST_TTL := 3600
  const EXECUTOR_START_DEADLINE := 600
  const MAX_OUTPUT_BYTES := 1024 * 1024 - 4096

  // ----- Objects -----

  datatype Job = Job(uid: Uid, spec: JobSpec, createdAt: Time, finished: bool, terminating: bool)

  datatype ContainerState = Waiting(reason: string) | Running | Terminated(code: int, finishedAt: Time)

  datatype ContainerStatus = ContainerStatus(name: string, state: ContainerState)

  /** `owner` is the UID in the controller ownerRef, `job` the job-name label. */
  datatype Pod = Pod(owner: Uid, job: string, containers: seq<ContainerStatus>, inits: seq<ContainerStatus>)

  /** A container of a pod controlled by Job `owner` was seen terminated with `code`. */
  datatype ExitFact = ExitFact(owner: Uid, container: string, code: int)

  /** The kubelet once answered `text` for the logs of that container. */
  datatype LogFact = LogFact(owner: Uid, container: string, text: string)

  datatype TokenSecret = TokenSecret(token: string, expiresAt: nat)

  datatype StdinSecret = StdinSecret(owner: Uid, data: string)

  datatype OwnerRef = OwnerRef(controller: bool, apiVersion: string, kind: string, name: string)

  datatype Condition = Condition(kind: string, status: string)

  /** The Job at the namespace and name a cleanup playbook is about. */
  datatype TargetJob = TargetJob(uid: Uid, conditions: seq<Condition>, owners: seq<OwnerRef>)

  /** The audit trail: it only grows, and no code reads it.
      `uids`: UIDs ever given to Jobs at `jobs`; `ours`: those of Jobs this controller created;
      `linked`: token hashes stored by the Pending write; `sent`: tokens in delivered links;
      `vetted`: target UIDs once seen terminal and allowlisted; `pinned`: UIDs stored by a playbook
      approval; `recorded`: the executor Job UID stored for the request; `autoApproved`: the allowlist
      approved the request. */
  datatype Trail = Trail(
    uids: set<Uid>,
    ours: set<Uid>,
    exits: set<ExitFact>,
    logs: set<LogFact>,
    tokenNames: set<string>,
    linked: seq<string>,
    sent: seq<string>,
    vetted: set<Uid>,
    pinned: set<Uid>,
    recorded: Option<Uid>,
    autoApproved: bool)

  /** One request and what surrounds it. `last` is the object as it was last stored, `gone` that it is stored
      no more. */
  datatype World = World(
    now: Time,
    spec: Spec,
    last: Request,
    gone: bool,
    jobs: map<string, Job>,
    pods: seq<Pod>,
    stdins: map<string, StdinSecret>,
    tokens: map<string, TokenSecret>,
    outputs: map<string, LogFact>,
    target: Option<TargetJob>,
    trail: Trail)
  {
    /** The object as the apiserver shows it. */
    function Shown(): Option<Request> {
      if gone then None else Some(last)
    }
  }

  /** What the lifecycle asks of the rest of the service, each a pure question with one answer:
      whether the executor runs in another namespace, whether a spec passes every check before review,
      the profile it resolves to, the argv the auto-approve gate yields for a spec and its image, the
      Job rendered for a request at a name, whether a Job may be cleaned up by the spec's playbook, and
      whether its absence may be taken for a clean-up already done. */
  datatype Service = Service(
    crossNamespace: Spec -> bool,
    accepted: Spec -> bool,
    resolve: Spec -> Option<Resolution>,
    gate: (Spec, string) -> Option<seq<string>>,
    jobFor: (Request, string) -> Option<JobSpec>,
    vetted: (Spec, TargetJob) -> bool,
    mayBeAbsent: Spec -> bool,
    sha256: string -> string)

  // ----- Status writes -----

  /** Every mutation of status the service makes, one per place that makes it: writes that decide
      about a request, writes that carry it out, and notes that leave its phase alone. */
  datatype ReviewWrite =
    | DenyInvalid(actor: string, reason: string, at: Time)
    | AutoApprove(at: Time)
    | ApprovePlaybook(targetUid: Option<Uid>, absent: bool, at: Time)
    | Pend(token: TokenRef, assess: bool)
    | Expire
    | Approve(actor: string, at: Time)
    | Deny(actor: string, reason: string, at: Time)

  datatype ExecWrite =
    | MintNames(job: string, stdin: string)
    | RecordUid(uid: Uid)
    | Capture(code: int, output: Output)
    | Finish(code: int, output: Output)
    | Fail(reason: string)
    | FinishPlaybook

  datatype Note =
    | Assess(assessment: Assessment)
    | SendFailed(at: Time, next: Time, error: string)
    | SendDelivered(at: Time, deliveredAt: Time, id: string)
    | Link(uid: Uid)

  datatype Mutation = Review(review: ReviewWrite) | Exec(exec: ExecWrite) | Noted(note: Note)

  function MutateReview(m: ReviewWrite, s: Status): Status {
    match m
    case DenyInvalid(actor, reason, at) =>
      s.(phase := Denied, decision := s.decision.(deniedBy := actor, deniedAt := Some(at), denialReason := reason))
    case AutoApprove(at) =>
      s.(phase := Approved, decision := s.decision.(approvedBy := "auto-approve", approvedAt := Some(at)))
    case ApprovePlaybook(uid, absent, at) =>
      s.(phase := Approved, decision := s.decision.(approvedBy := "auto-approve", approvedAt := Some(at)),
         playbook := PlaybookState(true, uid, absent))
    case Pend(token, assess) =>
      s.(phase := Pending, token := token, notification := s.notification.(state := NotificationPending),
         assessment := if assess then AssessmentPending else s.assessment)
    case Expire => s.(phase := Expired, token := NO_TOKEN)
    case Approve(actor, at) =>
      s.(phase := Approved, decision := s.decision.(approvedBy := actor, approvedAt := Some(at)),
         playbook := NO_PLAYBOOK, token := NO_TOKEN)
    case Deny(actor, reason, at) =>
      s.(phase := Denied, decision := s.decision.(deniedBy := actor, deniedAt := Some(at), denialReason := reason),
         token := NO_TOKEN)
  }

  function MutateExec(m: ExecWrite, s: Status): Status {
    match m
    case MintNames(job, stdin) =>
      if s.exec.jobName != "" then s else s.(exec := s.exec.(jobName := job, stdinName := stdin))
    case RecordUid(uid) =>
      if s.exec.jobUid.Some? then s else s.(exec := s.exec.(jobUid := Some(uid)))
    case Capture(code, output) => s.(exitCode := Some(code), output := output)
    case Finish(code, output) =>
      s.(exitCode := Some(code), output := output, phase := if code == 0 then Executed else Failed)
    case Fail(reason) => s.(phase := Failed, failureReason := reason)
    case FinishPlaybook => s.(phase := Executed, exitCode := Some(0), failureReason := "")
  }

  function MutateNote(m: Note, s: Status): Status {
    match m
    case Assess(assessment) => s.(assessment := assessment)
    case SendFailed(at, next, error) =>
      s.(notification := s.notification.(attempts := s.notification.attempts + 1, lastAttempt := Some(at),
                                         nextAttempt := Some(next), lastError := error))
    case SendDelivered(at, deliveredAt, id) =>
      s.(notification := Notification(NotificationDelivered, s.notification.attempts + 1, Some(at), None,
                                      Some(deliveredAt), "", id))
    case Link(uid) => s.(supersededBy := Some(uid))
  }

  function Mutate(m: Mutation, s: Status): Status {
    match m
    case Review(r) => MutateReview(r, s)
    case Exec(x) => MutateExec(x, s)
    case Noted(n) => MutateNote(n, s)
  }

  /** What a handler has already changed in its own copy when it makes the write: handleNew records
      the profile resolution, the completion path the captured result. */
  datatype Edit = NoEdit | Resolve(resolution: Resolution) | Result(code: int, output: Output)

  function Edited(e: Edit, s: Status): Status {
    match e
    case NoEdit => s
    case Resolve(r) => s.(resolution := r)
    case Result(code, output) => s.(exitCode := Some(code), output := output)
  }

  predicate ResolvesTo(svc: Service, spec: Spec, r: Resolution) {
    var found := svc.resolve(spec);
    found.Some? && r.profile == found.value.profile && r.image == found.value.image != ""
  }

  // ----- What the guards speak about -----

  /** Past review: the token is spent. */
  predicate Decided(p: Phase) {
    p != New && p != Pending
  }

  /** The Job at the request's minted name, if this controller created it. */
  predicate OwnJobAtName(w: World) {
    w.last.status.exec.jobName in w.jobs && w.jobs[w.last.status.exec.jobName].uid in w.trail.ours
  }

  predicate NoLiveOwnJob(w: World) {
    OwnJobAtName(w) ==> w.jobs[w.last.status.exec.jobName].finished
  }

  /** The persisted link can be rebuilt from its Secret, unless the request has outlived its TTL. */
  predicate LinkAlive(svc: Service, w: World, createdAt: nat, token: TokenRef) {
    || Unix(w.now) >= createdAt + PENDING_REQUEST_TTL
    || (&& token.secretName != "" && token.secretName in w.tokens && w.tokens[token.secretName].token != ""
        && svc.sha256(w.tokens[token.secretName].token) == token.hash
        && w.tokens[token.secretName].expiresAt >= createdAt + PENDING_REQUEST_TTL)
  }

  function Retained(text: string): string {
    if |text| <= MAX_OUTPUT_BYTES then text else text[..MAX_OUTPUT_BYTES]
  }

  /** `output` describes the log `text`: its full length and digest, and how much was kept. */
  predicate Describes(svc: Service, output: Output, text: string) {
    && output.sha256 == svc.sha256(text)
    && output.totalBytes == Some(|text|)
    && output.retainedBytes == Some(|Retained(text)|)
    && output.capture == (if |text| > MAX_OUTPUT_BYTES then CaptureTruncated else CaptureComplete)
  }

  /** Exit code and output both come from one container of a pod controlled by Job `uid`. */
  predicate GenuineResult(svc: Service, exits: set<ExitFact>, logs: set<LogFact>, uid: Uid, code: int, output: Output) {
    && output.capture != CaptureUnset
    && exists f :: f in exits && ResultOf(svc, f, logs, uid, code, output)
  }

  predicate ResultOf(svc: Service, f: ExitFact, logs: set<LogFact>, uid: Uid, code: int, output: Output) {
    && f.owner == uid && f.code == code
    && (output.capture != CaptureFailed ==>
          exists log :: log in logs && log.owner == uid && log.container == f.container && Describes(svc, output, log.text))
  }

  /** What a pod listing shows of terminated containers. */
  function ExitsOf(pods: seq<Pod>): set<ExitFact> {
    set p, c | p in pods && c in p.containers + p.inits && c.state.Terminated? :: ExitFact(p.owner, c.name, c.state.code)
  }

  // ----- Actions -----

  /** What befalls Jobs: the Job controller finishes them, someone deletes them or starts to, a tenant
      of the target namespace plants one. */
  datatype JobChange =
    | Finishes(name: string)
    | Terminates(name: string)
    | Goes(name: string)
    | Planted(name: string, job: Job)

  /** Time, users, kubelet, Job controller, and tenants of the target namespace. */
  datatype Event =
    | Tick(d: nat)
    | UserDelete
    | PodsChange(pods: seq<Pod>)
    | LogRead(fact: LogFact)
    | StdinChange(stdins: map<string, StdinSecret>)
    | TargetChange(target: Option<TargetJob>)
    | OutputGone(name: string)

  /** The service's writes other than to status. */
  datatype Effect =
    | DropToken(name: string)
    | PutToken(name: string, secret: TokenSecret)
    | Send(token: string)
    | SetFinalizer
    | ReleaseFinalizer
    | CreateJob(name: string, job: Job)
    | DeleteJob(name: string)
    | PutStdin(name: string, payload: StdinSecret)
    | PutOutput(name: string, fact: LogFact)
    | DeleteTarget(uid: Uid)

  datatype Action =
    | Outside(event: Event)
    | Jobs(change: JobChange)
    | Write(edit: Edit, mutation: Mutation)
    | Own(effect: Effect)

  /** The state a deciding write needs. The approval of a playbook looks at no phase; that no Job name is
      minted when it lands is for its caller to see to. */
  predicate MayReview(svc: Service, w: World, e: Edit, m: ReviewWrite)
    requires !w.gone
  {
    var s := w.last.status;
    && (e.NoEdit? || (e.Resolve? && s.phase == New && ResolvesTo(svc, w.spec, e.resolution)))
    && match m
       case DenyInvalid(_, _, _) => s.phase == New && !svc.accepted(w.spec)
       case AutoApprove(_) =>
         && s.phase == New && svc.accepted(w.spec) && e.Resolve?
         && svc.gate(w.spec, e.resolution.image).Some?
       case ApprovePlaybook(uid, absent, _) =>
         && w.spec.playbook.Some? && svc.accepted(w.spec) && s.exec.jobName == ""
         && (if absent then uid.None? && svc.mayBeAbsent(w.spec) else uid.Some? && uid.value in w.trail.vetted)
       case Pend(token, _) =>
         && s.phase == New && svc.accepted(w.spec) && e.Resolve?
         && svc.gate(w.spec, e.resolution.image).None?
         && token.hash != "" && LinkAlive(svc, w, w.last.createdAt, token)
       case Expire => s.phase == Pending && w.now >= (w.last.createdAt + PENDING_REQUEST_TTL) * SECOND
       case Approve(_, _) => s.phase == Pending
       case Deny(_, _, _) => s.phase == Pending
  }

  predicate MayExecute(svc: Service, w: World, e: Edit, m: ExecWrite)
    requires !w.gone
  {
    var s := w.last.status;
    && (e.NoEdit? || (e.Result? && m == Finish(e.code, e.output)))
    && s.phase == Approved
    && match m
       case MintNames(job, _) =>
         !s.playbook.autoApproved && job != "" && (svc.crossNamespace(w.spec) ==> w.last.finalizer)
       case RecordUid(uid) => !s.playbook.autoApproved && s.exec.jobName != "" && uid in w.trail.ours
       case Capture(code, output) =>
         && !s.playbook.autoApproved && s.exec.jobUid.Some?
         && GenuineResult(svc, w.trail.exits, w.trail.logs, s.exec.jobUid.value, code, output)
       case Finish(code, output) =>
         && !s.playbook.autoApproved && s.exec.jobUid.Some?
         && GenuineResult(svc, w.trail.exits, w.trail.logs, s.exec.jobUid.value, code, output)
         && NoLiveOwnJob(w)
       case Fail(_) => s.playbook.autoApproved || NoLiveOwnJob(w)
       case FinishPlaybook => s.playbook.autoApproved
  }

  predicate MayNote(w: World, e: Edit, n: Note)
    requires !w.gone
  {
    e.NoEdit? && if n.Link? then w.last.status.supersededBy.None? else w.last.status.phase != New
  }

  predicate MayWrite(svc: Service, w: World, e: Edit, m: Mutation)
    requires !w.gone
  {
    match m
    case Review(r) => MayReview(svc, w, e, r)
    case Exec(x) => MayExecute(svc, w, e, x)
    case Noted(n) => MayNote(w, e, n)
  }

  predicate JobChangeEnabled(svc: Service, w: World, c: JobChange) {
    match c
    case Planted(name, job) => svc.crossNamespace(w.spec) && name !in w.jobs && job.uid !in w.trail.uids
    case _ => c.name in w.jobs
  }

  predicate EventEnabled(svc: Service, w: World, e: Event) {
    match e
    case Tick(_) => true
    case UserDelete => !w.gone
    case PodsChange(_) => true
    case LogRead(fact) => exists p :: p in w.pods && p.owner == fact.owner
    case StdinChange(stdins) => svc.crossNamespace(w.spec) || forall n :: n in stdins ==> n in w.stdins && stdins[n] == w.stdins[n]
    case TargetChange(_) => true
    case OutputGone(name) => name in w.outputs
  }

  predicate EffectEnabled(svc: Service, w: World, e: Effect) {
    match e
    case DropToken(name) =>
      && name in w.tokens
      && (|| Unix(w.now) >= w.tokens[name].expiresAt
          || w.gone || Decided(w.last.status.phase))
    case PutToken(name, _) => name !in w.trail.tokenNames
    case Send(token) => svc.sha256(token) in w.trail.linked
    case SetFinalizer => !w.gone && w.last.status.phase == Approved && !w.last.deleting
    case ReleaseFinalizer => !w.gone && w.last.deleting && w.last.finalizer && !OwnJobAtName(w)
    case CreateJob(name, job) =>
      && name !in w.jobs && job.uid !in w.trail.uids && !job.finished && !job.terminating && name != ""
      && w.trail.recorded.None?
      && w.last.status.phase == Approved && !w.last.status.playbook.autoApproved
      && w.last.status.exec.jobName == name
      && (svc.crossNamespace(w.spec) ==> !w.gone && w.last.finalizer)
      && svc.jobFor(w.last, name) == Some(job.spec)
    case DeleteJob(name) => name in w.jobs
    case PutStdin(name, _) => name !in w.stdins
    case PutOutput(name, fact) =>
      name !in w.outputs && fact in w.trail.logs && w.trail.recorded == Some(fact.owner)
    case DeleteTarget(uid) =>
      && uid in w.trail.pinned
      && w.last.status.phase == Approved
      && w.last.status.playbook == PlaybookState(true, Some(uid), false)
  }

  predicate Enabled(svc: Service, w: World, a: Action) {
    match a
    case Outside(e) => EventEnabled(svc, w, e)
    case Jobs(c) => JobChangeEnabled(svc, w, c)
    case Write(e, m) => !w.gone && MayWrite(svc, w, e, m)
    case Own(e) => EffectEnabled(svc, w, e)
  }

  function WriteRequest(w: World, sr: Request): World {
    w.(last := sr.(version := sr.version + 1))
  }

  function StoreStatus(w: World, s: Status): World
    requires !w.gone
  {
    WriteRequest(w, w.last.(status := s))
  }

  function AfterReview(w: World, e: Edit, m: ReviewWrite): World
    requires !w.gone
  {
    var w' := StoreStatus(w, MutateReview(m, Edited(e, w.last.status)));
    match m
    case Pend(token, _) => w'.(trail := w.trail.(linked := w.trail.linked + [token.hash]))
    case AutoApprove(_) => w'.(trail := w.trail.(autoApproved := true))
    case ApprovePlaybook(uid, _, _) =>
      w'.(trail := w.trail.(pinned := if uid.Some? then w.trail.pinned + {uid.value} else w.trail.pinned))
    case _ => w'
  }

  function AfterExec(w: World, e: Edit, m: ExecWrite): World
    requires !w.gone
  {
    var s := MutateExec(m, Edited(e, w.last.status));
    StoreStatus(w, s).(trail := w.trail.(recorded := s.exec.jobUid))
  }

  function AfterNote(w: World, e: Edit, n: Note): World
    requires !w.gone
  {
    StoreStatus(w, MutateNote(n, Edited(e, w.last.status)))
  }

  function AfterWrite(w: World, e: Edit, m: Mutation): World
    requires !w.gone
  {
    match m
    case Review(r) => AfterReview(w, e, r)
    case Exec(x) => AfterExec(w, e, x)
    case Noted(n) => AfterNote(w, e, n)
  }

  function AfterJobChange(w: World, c: JobChange): World {
    match c
    case Finishes(name) => if name in w.jobs then w.(jobs := w.jobs[name := w.jobs[name].(finished := true)]) else w
    case Terminates(name) => if name in w.jobs then w.(jobs := w.jobs[name := w.jobs[name].(terminating := true)]) else w
    case Goes(name) => w.(jobs := w.jobs - {name})
    case Planted(name, job) => w.(jobs := w.jobs[name := job], trail := w.trail.(uids := w.trail.uids + {job.uid}))
  }

  function AfterEvent(svc: Service, w: World, e: Event): World {
    match e
    case Tick(d) => w.(now := w.now + d)
    case UserDelete =>
      if w.gone then w
      else if w.last.deleting then w
      else if w.last.finalizer then WriteRequest(w, w.last.(deleting := true))
      else w.(gone := true)
    case PodsChange(pods) => w.(pods := pods, trail := w.trail.(exits := w.trail.exits + ExitsOf(pods)))
    case LogRead(fact) => w.(trail := w.trail.(logs := w.trail.logs + {fact}))
    case StdinChange(stdins) => w.(stdins := stdins)
    case TargetChange(target) =>
      var seen := target.Some? && svc.vetted(w.spec, target.value);
      w.(target := target,
         trail := if seen then w.trail.(vetted := w.trail.vetted + {target.value.uid}) else w.trail)
    case OutputGone(name) => w.(outputs := w.outputs - {name})
  }

  function AfterEffect(w: World, e: Effect): World {
    match e
    case DropToken(name) => w.(tokens := w.tokens - {name})
    case PutToken(name, secret) => w.(tokens := w.tokens[name := secret], trail := w.trail.(tokenNames := w.trail.tokenNames + {name}))
    case Send(token) => w.(trail := w.trail.(sent := w.trail.sent + [token]))
    case SetFinalizer => if !w.gone then WriteRequest(w, w.last.(finalizer := true)) else w
    case ReleaseFinalizer => w.(gone := true)
    case CreateJob(name, job) =>
      w.(jobs := w.jobs[name := job],
        trail := w.trail.(uids := w.trail.uids + {job.uid}, ours := w.trail.ours + {job.uid}))
    case DeleteJob(name) => w.(jobs := w.jobs - {name})
    case PutStdin(name, payload) => w.(stdins := w.stdins[name := payload])
    case PutOutput(name, fact) => w.(outputs := w.outputs[name := fact])
    case DeleteTarget(uid) => if w.target.Some? && w.target.value.uid == uid then w.(target := None) else w
  }

  function Apply(svc: Service, w: World, a: Action): World {
    match a
    case Outside(e) => AfterEvent(svc, w, e)
    case Jobs(c) => AfterJobChange(w, c)
    case Write(e, m) => if !w.gone then AfterWrite(w, e, m) else w
    case Own(e) => AfterEffect(w, e)
  }

  /** Steps that are not the reconciler's own: they interleave with it at every API call. */
  predicate FromOutside(a: Action) {
    match a
    case Outside(_) => true
    case Jobs(_) => true
    case Write(e, m) =>
      && e.NoEdit?
      && ((m.Review? && (m.review.Approve? || m.review.Deny? || m.review.Expire?)) || (m.Noted? && m.note.Link?))
    case Own(e) => e.DropToken?
  }

  /** A request as created: nothing decided, nothing minted, nothing run. */
  ghost predicate Initial(svc: Service, w: World) {
    && !w.gone && w.last.status == EMPTY_STATUS && w.last.spec == w.spec
    && !w.last.deleting && !w.last.finalizer
    && w.last.createdAt * SECOND <= w.now
    && (forall n :: n in w.jobs ==> w.jobs[n].uid in w.trail.uids)
    && (svc.crossNamespace(w.spec) || w.jobs == map[])
    && w.trail.ours == {} && w.outputs == map[] && w.tokens == map[] && w.trail.tokenNames == {}
    && w.trail.exits == ExitsOf(w.pods) && w.trail.logs == {}
    && w.trail.linked == [] && w.trail.sent == [] && w.trail.pinned == {} && w.trail.recorded.None? && !w.trail.autoApproved
    && w.trail.vetted == (if w.target.Some? && svc.vetted(w.spec, w.target.value) then {w.target.value.uid} else {})
  }

  // ----- Runs -----

  ghost predicate Step(svc: Service, w: World, a: Action, w': World) {
    Enabled(svc, w, a) && w' == Apply(svc, w, a)
  }

  /** A finite run: `labels[k]` takes `run[k]` to `run[k + 1]`. */
  ghost predicate IsRun(svc: Service, run: seq<World>, labels: seq<Action>) {
    && |run| == |labels| + 1
    && Initial(svc, run[0])
    && forall k {:trigger labels[k]} :: 0 <= k < |labels| ==> Step(svc, run[k], labels[k], run[k + 1])
  }
}
