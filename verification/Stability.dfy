/** What can never be undone, over any number of steps by anyone (Reach), and what the reconciler may
    rely on while it is between two API calls, when everyone else is free to act (Rely). */
module Stability {
  import opened Prelude
  import opened SudoTypes
  import opened Lifecycle
  import opened Invariants

  /** The edges of the state machine. */
  predicate IsEdge(p: Phase, q: Phase) {
    match p
    case New => q == Pending || q == Approved || q == Denied
    case Pending => q == Approved || q == Denied || q == Expired
    case Approved => q == Executed || q == Failed
    case _ => false
  }

  /** Zero or more edges. */
  predicate IsPath(p: Phase, q: Phase) {
    || p == q
    || p == New
    || (p == Pending && q != New)
    || (p == Approved && (q == Executed || q == Failed))
  }

  predicate StatusReach(spec: Spec, s: Status, t: Status) {
    && (s.phase != New ==> t.phase != New && t.resolution == s.resolution)
    && (Decided(s.phase) ==> Decided(t.phase))
    && (s.exec.jobName != "" ==> t.exec.jobName == s.exec.jobName && t.exec.stdinName == s.exec.stdinName)
    && (s.exec.jobUid.Some? ==> t.exec.jobUid == s.exec.jobUid)
    && (s.supersededBy.Some? ==> t.supersededBy == s.supersededBy)
    && (s.exitCode.Some? ==> t.exitCode.Some?)
    && (s.notification.state == NotificationDelivered ==> t.notification.state == NotificationDelivered)
    && (s.phase != New && s.notification.state != NotificationPending ==> t.notification.state != NotificationPending)
    && (spec.playbook.None? ==> IsPath(s.phase, t.phase))
  }

  ghost predicate RequestReach(spec: Spec, a: Request, b: Request) {
    && a.name == b.name && a.uid == b.uid && a.createdAt == b.createdAt && a.spec == b.spec
    && a.version <= b.version
    && (a.version == b.version ==> a == b)
    && (a.deleting ==> b.deleting) && (a.finalizer ==> b.finalizer)
    && StatusReach(spec, a.status, b.status)
  }

  ghost predicate Subset<T(!new)>(a: set<T>, b: set<T>) {
    forall x :: x in a ==> x in b
  }

  ghost predicate TrailReach(w: World, w': World) {
    && w.now <= w'.now && w.spec == w'.spec
    && Subset(w.trail.uids, w'.trail.uids) && Subset(w.trail.ours, w'.trail.ours)
    && Subset(w.trail.exits, w'.trail.exits) && Subset(w.trail.logs, w'.trail.logs)
    && Subset(w.trail.tokenNames, w'.trail.tokenNames)
    && Subset(w.trail.vetted, w'.trail.vetted) && Subset(w.trail.pinned, w'.trail.pinned)
    && (forall h :: h in w.trail.linked ==> h in w'.trail.linked)
    && (w.trail.recorded.Some? ==> w'.trail.recorded == w.trail.recorded)
  }

  /** A token Secret's name is used once, and its content never changes. */
  ghost predicate TokensReach(w: World, w': World) {
    forall n :: n in w'.tokens && n in w.trail.tokenNames ==> n in w.tokens && w.tokens[n] == w'.tokens[n]
  }

  ghost predicate Reach(w: World, w': World) {
    && TrailReach(w, w') && TokensReach(w, w') && RequestReach(w.spec, w.last, w'.last)
    && (w.gone ==> w'.gone)
  }

  lemma ReachTransitive(a: World, b: World, c: World)
    requires Reach(a, b) && Reach(b, c)
    ensures Reach(a, c)
  {
  }

  lemma EventReach(svc: Service, w: World, e: Event)
    requires ObjectInv(w) && EventEnabled(svc, w, e)
    ensures Reach(w, AfterEvent(svc, w, e))
  {
    match e { case UserDelete => case _ => }
  }

  lemma JobChangeReach(svc: Service, w: World, c: JobChange)
    requires JobChangeEnabled(svc, w, c)
    ensures Reach(w, AfterJobChange(w, c))
  {
  }

  lemma EffectTrailReach(w: World, e: Effect)
    requires e.PutToken? ==> e.name !in w.trail.tokenNames
    ensures TrailReach(w, AfterEffect(w, e)) && TokensReach(w, AfterEffect(w, e))
  {
  }

  lemma EffectReach(svc: Service, w: World, e: Effect)
    requires EffectEnabled(svc, w, e)
    ensures Reach(w, AfterEffect(w, e))
  {
    EffectTrailReach(w, e);
  }

  lemma ReviewReach(svc: Service, w: World, e: Edit, m: ReviewWrite)
    requires ResultInv(svc, w) && LinkInv(svc, w) && !w.gone && MayReview(svc, w, e, m)
    ensures Reach(w, AfterReview(w, e, m))
  {
  }

  lemma ExecReach(svc: Service, w: World, e: Edit, m: ExecWrite)
    requires ExecInv(w) && !w.gone && MayExecute(svc, w, e, m)
    ensures Reach(w, AfterExec(w, e, m))
  {
  }

  lemma NoteReach(svc: Service, w: World, e: Edit, n: Note)
    requires !w.gone && MayNote(w, e, n)
    ensures Reach(w, AfterNote(w, e, n))
  {
  }

  lemma StepReach(svc: Service, w: World, a: Action)
    requires Inv(svc, w) && Enabled(svc, w, a)
    ensures Reach(w, Apply(svc, w, a))
  {
    match a
    case Outside(e) => EventReach(svc, w, e);
    case Jobs(c) => JobChangeReach(svc, w, c);
    case Write(e, Review(m)) => ReviewReach(svc, w, e, m);
    case Write(e, Exec(m)) => ExecReach(svc, w, e, m);
    case Write(e, Noted(n)) => NoteReach(svc, w, e, n);
    case Own(e) => EffectReach(svc, w, e);
  }

  /** Only a status write changes the status. */
  lemma EventKeepsStatus(svc: Service, w: World, e: Event)
    ensures AfterEvent(svc, w, e).last.status == w.last.status
  {
    hide AfterEvent;
    EventsFrame(svc, w, e);
  }

  lemma EffectKeepsStatus(w: World, e: Effect)
    ensures AfterEffect(w, e).last.status == w.last.status
  {
    match e { case SetFinalizer => case _ => }
  }

  lemma JobChangeKeepsStatus(w: World, c: JobChange)
    ensures AfterJobChange(w, c).last == w.last && AfterJobChange(w, c).gone == w.gone
  {
  }

  // ----- Between two API calls of the reconciler -----

  /** Everyone else leaves these fields alone, and all of status but the forward link once the request
      is no longer under review. */
  ghost predicate StatusRely(s: Status, t: Status) {
    && t.exec == s.exec && t.exitCode == s.exitCode && t.output == s.output && t.resolution == s.resolution
    && t.assessment == s.assessment && t.notification == s.notification && t.failureReason == s.failureReason
    && (if s.phase == Pending then t.phase == Pending || t.phase == Approved || t.phase == Denied || t.phase == Expired
        else t == s.(supersededBy := t.supersededBy))
  }

  ghost predicate JobsRely(svc: Service, w: World, w': World) {
    && w'.trail.ours == w.trail.ours && w'.trail.recorded == w.trail.recorded
    && (forall n :: n in w'.jobs && w'.jobs[n].uid in w.trail.uids ==>
          && n in w.jobs && w.jobs[n].uid == w'.jobs[n].uid
          && w.jobs[n].spec == w'.jobs[n].spec && w.jobs[n].createdAt == w'.jobs[n].createdAt
          && (w.jobs[n].finished ==> w'.jobs[n].finished))
    && (!svc.crossNamespace(w.spec) ==> forall n :: n in w'.jobs ==> n in w.jobs && w.jobs[n].uid == w'.jobs[n].uid)
  }

  /** No token minted, no link stored or sent, nothing pinned or auto-approved. */
  ghost predicate SameLinks(w: World, w': World) {
    && w'.trail.tokenNames == w.trail.tokenNames && w'.trail.linked == w.trail.linked && w'.trail.sent == w.trail.sent
    && w'.trail.pinned == w.trail.pinned && w'.trail.autoApproved == w.trail.autoApproved
  }

  ghost predicate SameObjects(w: World, w': World) {
    w'.jobs == w.jobs && w'.trail.ours == w.trail.ours && w'.trail.recorded == w.trail.recorded && w'.tokens == w.tokens
  }

  ghost predicate TokensRely(w: World, w': World) {
    && SameLinks(w, w')
    && forall n :: n in w.tokens ==>
         || (n in w'.tokens && w'.tokens[n] == w.tokens[n])
         || Unix(w'.now) >= w.tokens[n].expiresAt
         || w'.gone || Decided(w'.last.status.phase)
  }

  function One(b: bool): nat {
    if b then 1 else 0
  }

  /** How often others can still write the request: to decide about it, to delete it, to link it. */
  function WritesLeft(sr: Request): nat {
    One(sr.status.phase == Pending) + One(!sr.deleting) + One(sr.status.supersededBy.None?)
  }

  lemma WritesAreFew(sr: Request)
    ensures WritesLeft(sr) <= 3
  {
  }

  ghost predicate FewWrites(w: World, w': World) {
    w'.last.version + WritesLeft(w'.last) <= w.last.version + WritesLeft(w.last)
  }

  ghost predicate Rely(svc: Service, w: World, w': World) {
    && Reach(w, w') && JobsRely(svc, w, w') && TokensRely(w, w') && FewWrites(w, w')
    && w'.last.finalizer == w.last.finalizer && StatusRely(w.last.status, w'.last.status)
    && (w'.gone && !w.gone ==> !w.last.finalizer)
  }

  /** A conflict is somebody else's write, of which few are left. */
  lemma ConflictIsSpent(svc: Service, w: World, read: World, w': World)
    requires Rely(svc, w, read) && Rely(svc, read, w') && w'.last.version != read.last.version
    ensures WritesLeft(w'.last) < WritesLeft(w.last)
  {
    hide JobsRely, TokensRely, StatusRely, TrailReach, TokensReach;
  }

  lemma RelyReflexive(svc: Service, w: World)
    ensures Rely(svc, w, w)
  {
  }

  lemma RelyTransitive(svc: Service, a: World, b: World, c: World)
    requires Rely(svc, a, b) && Rely(svc, b, c)
    ensures Rely(svc, a, c)
  {
    ReachTransitive(a, b, c);
  }

  lemma EventLeavesObjects(svc: Service, w: World, e: Event)
    ensures SameObjects(w, AfterEvent(svc, w, e))
  {
    hide AfterEvent;
    EventsFrame(svc, w, e);
  }

  lemma EventLeavesTrail(svc: Service, w: World, e: Event)
    ensures SameLinks(w, AfterEvent(svc, w, e))
  {
    hide AfterEvent;
    EventsFrame(svc, w, e);
  }

  lemma FrameRely(svc: Service, w: World, w': World)
    requires SameObjects(w, w') && SameLinks(w, w')
    ensures JobsRely(svc, w, w') && TokensRely(w, w')
  {
  }

  lemma EventRely(svc: Service, w: World, e: Event)
    requires ObjectInv(w) && EventEnabled(svc, w, e)
    ensures Rely(svc, w, AfterEvent(svc, w, e))
  {
    EventReach(svc, w, e);
    EventLeavesObjects(svc, w, e);
    EventLeavesTrail(svc, w, e);
    FrameRely(svc, w, AfterEvent(svc, w, e));
  }

  lemma JobChangeRely(svc: Service, w: World, c: JobChange)
    requires JobChangeEnabled(svc, w, c)
    ensures Rely(svc, w, AfterJobChange(w, c))
  {
    JobChangeReach(svc, w, c);
  }

  lemma ReviewRely(svc: Service, w: World, m: ReviewWrite)
    requires ResultInv(svc, w) && LinkInv(svc, w) && !w.gone && MayReview(svc, w, NoEdit, m)
    requires m.Approve? || m.Deny? || m.Expire?
    ensures Rely(svc, w, AfterReview(w, NoEdit, m))
  {
    ReviewReach(svc, w, NoEdit, m);
  }

  lemma LinkRely(svc: Service, w: World, uid: Uid)
    requires !w.gone && MayNote(w, NoEdit, Link(uid))
    ensures Rely(svc, w, AfterNote(w, NoEdit, Link(uid)))
  {
    NoteReach(svc, w, NoEdit, Link(uid));
  }

  lemma DropTokenRely(svc: Service, w: World, name: string)
    requires EffectEnabled(svc, w, DropToken(name))
    ensures Rely(svc, w, AfterEffect(w, DropToken(name)))
  {
  }

  lemma OutsideStepRely(svc: Service, w: World, a: Action)
    requires Inv(svc, w) && Enabled(svc, w, a) && FromOutside(a)
    ensures Rely(svc, w, Apply(svc, w, a))
  {
    match a
    case Outside(e) => EventRely(svc, w, e);
    case Jobs(c) => JobChangeRely(svc, w, c);
    case Write(_, Review(m)) => ReviewRely(svc, w, m);
    case Write(_, Noted(n)) => LinkRely(svc, w, n.uid);
    case Own(e) => DropTokenRely(svc, w, e.name);
  }
}
