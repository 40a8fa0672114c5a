/** The apiserver as the controller meets it: versioned objects, compare-and-swap updates, a lagging
    informer cache, calls that fail before or after they took effect, and a process that may die at any
    of them. Other parties act before every call. */
module Api {
  import opened Prelude
  import opened SudoTypes
  import opened Lifecycle
  import opened Invariants
  import opened Stability
  import Runs

  /** Whose call it is: between two calls of the reconciler no other reconciler step happens, between
      two calls of anyone else every step may. */
  datatype Caller = Controller | Another

  ghost predicate Between(svc: Service, caller: Caller, w: World, w': World) {
    if caller.Controller? then Rely(svc, w, w') else Reach(w, w')
  }

  lemma BetweenTransitive(svc: Service, caller: Caller, a: World, b: World, c: World)
    requires Between(svc, caller, a, b) && Between(svc, caller, b, c)
    ensures Between(svc, caller, a, c)
  {
    if caller.Controller? {
      RelyTransitive(svc, a, b, c);
    } else {
      ReachTransitive(a, b, c);
    }
  }

  // ----- Environments -----

  /** Hostile: anything goes. Silent: nobody else moves, no call fails, and cached Secrets
      have caught up. Faultless: others move, but no call of the controller fails. SidecarHeld: a sidecar keeps
      Job `uid` unfinished after its executor exited with `code`; the pod stays readable while the Job
      exists, nobody but the controller deletes the Job or takes its name, nobody deletes the request. */
  datatype Mode = Hostile | Silent | Faultless | SidecarHeld(uid: Uid, code: int)

  predicate GoesThrough(mode: Mode) {
    mode.Silent? || mode.Faultless?
  }

  predicate ExecutorExited(p: Pod, code: int) {
    exists c :: c in p.containers && c.name == "executor" && c.state.Terminated? && c.state.code == code
  }

  predicate OnlyThatExit(w: World, uid: Uid, code: int) {
    forall f :: f in w.trail.exits && f.owner == uid && f.container == "executor" ==> f.code == code
  }

  /** The Job is up, unfinished, and every pod of it shows the executor's exit. */
  predicate HeldOpen(w: World, uid: Uid, code: int) {
    && !w.gone
    && var name := w.last.status.exec.jobName;
       && name in w.jobs && w.jobs[name].uid == uid && !w.jobs[name].finished
       && (exists p :: p in w.pods && p.owner == uid && p.job == name)
       && forall p :: p in w.pods && p.owner == uid && p.job == name ==> ExecutorExited(p, code)
  }

  predicate TornDown(w: World) {
    !w.gone && w.last.status.exec.jobName !in w.jobs
  }

  predicate Allows(mode: Mode, svc: Service, w: World, a: Action) {
    match mode
    case Hostile => true
    case Silent => false
    case Faultless => true
    case SidecarHeld(uid, code) =>
      var w' := Apply(svc, w, a);
      && !w'.gone && (!w.gone ==> w'.last.deleting == w.last.deleting)
      && OnlyThatExit(w', uid, code)
      && (HeldOpen(w, uid, code) ==> HeldOpen(w', uid, code))
      && (TornDown(w) ==> TornDown(w'))
  }

  /** Touches the executor's Jobs, pods and stdin Secrets, or a playbook's target. */
  predicate Meddles(a: Action) {
    a.Jobs? || (a.Outside? && (a.event.PodsChange? || a.event.StdinChange? || a.event.TargetChange?))
  }

  ghost predicate SameExecutor(w: World, w': World) {
    w'.jobs == w.jobs && w'.pods == w.pods && w'.stdins == w.stdins && w'.target == w.target
  }

  lemma OthersMeddleOrLeaveBe(svc: Service, w: World, a: Action)
    requires FromOutside(a)
    ensures Meddles(a) || SameExecutor(w, Apply(svc, w, a))
  {
    match a
    case Outside(e) => match e { case UserDelete => case _ => }
    case Write(e, m) => if !w.gone { WritesLeaveExecutor(w, e, m); }
    case _ =>
  }

  lemma WritesLeaveExecutor(w: World, e: Edit, m: Mutation)
    requires !w.gone
    ensures SameExecutor(w, AfterWrite(w, e, m))
  {
    hide MutateReview, MutateExec, MutateNote, Edited;
  }

  predicate ResultStored(s: Status, code: int) {
    s.exitCode == Some(code) && s.output.capture != CaptureUnset
  }

  /** The two-phase teardown: the Job goes only after the result is durable, and the only way out of
      Approved stores that result. */
  predicate TwoPhase(w: World, uid: Uid, code: int) {
    && !w.gone && !w.last.deleting && OnlyThatExit(w, uid, code)
    && var s := w.last.status;
       && !s.playbook.autoApproved
       && s.exec.jobUid == Some(uid)
       && (|| (s.phase == Approved && HeldOpen(w, uid, code) && (s.exitCode.None? || ResultStored(s, code)))
           || (s.phase == Approved && TornDown(w) && ResultStored(s, code))
           || (s.phase == (if code == 0 then Executed else Failed) && ResultStored(s, code)))
  }

  ghost predicate ModeInv(mode: Mode, w: World) {
    mode.SidecarHeld? ==> TwoPhase(w, mode.uid, mode.code)
  }

  /** What may happen before a call of `caller`. Between two calls of the controller only others act; between
      two calls of anyone else the controller acts too, and in the sidecar's environment every step, its own
      or others', then keeps the teardown. */
  predicate MayPrecede(caller: Caller, mode: Mode, svc: Service, w: World, a: Action) {
    match caller
    case Controller => FromOutside(a) && Allows(mode, svc, w, a)
    case Another => !mode.Silent? && (mode.SidecarHeld? ==> TwoPhase(Apply(svc, w, a), mode.uid, mode.code))
  }

  lemma FrameKeepsMode(mode: Mode, w: World, w': World)
    requires ModeInv(mode, w)
    requires w'.last == w.last && w'.gone == w.gone && w'.spec == w.spec
    requires w'.jobs == w.jobs && w'.pods == w.pods && w'.trail.exits == w.trail.exits
    ensures ModeInv(mode, w')
  {
  }

  /** Others leave a Job the sidecar holds open as it is. */
  ghost predicate KeptOpen(mode: Mode, w: World, w': World) {
    mode.SidecarHeld? && HeldOpen(w, mode.uid, mode.code) ==> HeldOpen(w', mode.uid, mode.code)
  }

  /** What others do to status cannot end the teardown: the request is past review. */
  lemma OutsideKeepsStatus(svc: Service, w: World, a: Action)
    requires Enabled(svc, w, a) && FromOutside(a) && Rely(svc, w, Apply(svc, w, a))
    requires !w.gone && !Apply(svc, w, a).gone && w.last.status.phase != Pending
    ensures
      var s, t := w.last.status, Apply(svc, w, a).last.status;
      t.phase == s.phase && t.exec == s.exec && t.exitCode == s.exitCode && t.output == s.output
  {
  }

  lemma OutsideKeepsTwoPhase(svc: Service, w: World, a: Action, uid: Uid, code: int)
    requires Inv(svc, w) && Enabled(svc, w, a) && FromOutside(a)
    requires Allows(SidecarHeld(uid, code), svc, w, a) && TwoPhase(w, uid, code)
    ensures TwoPhase(Apply(svc, w, a), uid, code)
  {
    OutsideStepRely(svc, w, a);
    OutsideKeepsStatus(svc, w, a);
  }

  // ----- Answers -----

  datatype Answer<+T> = Found(value: T) | Absent | Unavailable

  datatype Outcome = Done | Conflict | Missing | Exists | Rejected | Lost

  const CONFLICT_RETRIES := 5   // client-go's DefaultRetry.Steps

  // ----- What the cache may still show -----

  predicate IsMinted(w: World) {
    w.last.status.exec.jobName != ""
  }

  /** No longer shown as a new request. */
  predicate PastNew(w: World) {
    w.gone || w.last.status.phase != New
  }

  predicate Mints(a: Action) {
    a.Write? && a.mutation.Exec? && a.mutation.exec.MintNames?
  }

  lemma OnlyMintingMints(svc: Service, w: World, a: Action)
    requires Enabled(svc, w, a) && !IsMinted(w) && IsMinted(Apply(svc, w, a))
    ensures Mints(a)
  {
    hide Enabled, AfterEvent, AfterEffect, AfterJobChange, AfterWrite;
    match a
    case Outside(e) => EventKeepsStatus(svc, w, e);
    case Own(e) => EffectKeepsStatus(w, e);
    case Jobs(c) => JobChangeKeepsStatus(w, c);
    case Write(e, m) => if !w.gone { WriteMints(w, e, m); }
  }

  lemma WriteMints(w: World, e: Edit, m: Mutation)
    requires !w.gone && !IsMinted(w) && IsMinted(AfterWrite(w, e, m))
    ensures Mints(Write(e, m))
  {
  }

  /** Outside the sidecar's environment there is no teardown to keep. */
  lemma NotHeld(mode: Mode, w: World)
    requires !mode.SidecarHeld?
    ensures ModeInv(mode, w)
  {
  }

  lemma OutsideNeverMints(a: Action)
    requires FromOutside(a)
    ensures !Mints(a)
  {
  }

  lemma StaysPastNew(w: World, w': World)
    requires Reach(w, w') && PastNew(w)
    ensures PastNew(w')
  {
  }

  datatype Fate = Through | LostBefore | LostAfter

  /** The apiserver's answer to an effect that reaches it. A delete with a UID precondition conflicts
      with any other object of that name. */
  function Verdict(w: World, e: Effect): Outcome {
    match e
    case DropToken(name) => if name in w.tokens then Done else Missing
    case PutToken(name, _) => if name in w.trail.tokenNames then Exists else Done
    case Send(_) => Done
    case SetFinalizer => Missing
    case ReleaseFinalizer => Missing
    case CreateJob(name, _) => if name in w.jobs then Exists else Done
    case DeleteJob(name) => if name in w.jobs then Done else Missing
    case PutStdin(name, _) => if name in w.stdins then Exists else Done
    case PutOutput(name, _) => if name in w.outputs then Exists else Done
    case DeleteTarget(uid) =>
      if w.target.None? then Missing else if w.target.value.uid == uid then Done else Conflict
  }

  function PodsLabelled(pods: seq<Pod>, job: string): seq<Pod> {
    if pods == [] then []
    else (if pods[0].job == job then [pods[0]] else []) + PodsLabelled(pods[1..], job)
  }

  lemma PutTokenFacts(svc: Service, mode: Mode, w: World, name: string, secret: TokenSecret)
    requires ModeInv(mode, w) && name !in w.trail.tokenNames
    ensures
      var w' := AfterEffect(w, PutToken(name, secret));
      && EffectEnabled(svc, w, PutToken(name, secret)) && ModeInv(mode, w') && Reach(w, w')
      && name in w'.tokens && w'.tokens[name] == secret
      && w'.Shown() == w.Shown() && w'.target == w.target && w'.now == w.now
  {
    FrameKeepsMode(mode, w, AfterEffect(w, PutToken(name, secret)));
  }

  lemma InterferenceStarts(svc: Service, mode: Mode, w: World)
    ensures Rely(svc, w, w) && Reach(w, w) && KeptOpen(mode, w, w)
  {
  }

  lemma LogReadFacts(svc: Service, mode: Mode, w: World, fact: LogFact)
    requires Inv(svc, w) && ModeInv(mode, w) && exists p :: p in w.pods && p.owner == fact.owner
    ensures
      var w' := AfterEvent(svc, w, LogRead(fact));
      && EventEnabled(svc, w, LogRead(fact)) && ModeInv(mode, w') && Rely(svc, w, w')
      && fact in w'.trail.logs && w'.Shown() == w.Shown() && SameExecutor(w, w') && w'.now == w.now
  {
    EventRely(svc, w, LogRead(fact));
    FrameKeepsMode(mode, w, AfterEvent(svc, w, LogRead(fact)));
  }

  lemma RelyThenReach(svc: Service, a: World, b: World, c: World)
    requires Rely(svc, a, b) && (b == c || Reach(b, c))
    ensures Reach(a, c)
  {
  }

  class ApiServer {
    const svc: Service
    const mode: Mode
    var world: World
    var run: seq<World>
    var labels: seq<Action>
    var cached: nat   // the informer cache shows run[cached]
    var down: bool    // the controller process has died
    var unfit: bool   // some Secret the request refers to is missing, or holds a ServiceAccount token, just now

    /** The controller starts, or starts again, somewhere in a run. What its informer lists first may be an
        earlier state, but not one that shows as new a request whose Job has been named. */
    constructor (svc: Service, mode: Mode, run: seq<World>, labels: seq<Action>, cached: nat)
      requires IsRun(svc, run, labels) && ModeInv(mode, run[|run| - 1])
      requires cached < |run| && (IsMinted(run[|run| - 1]) ==> PastNew(run[cached]))
      ensures Valid() && !down
      ensures this.svc == svc && this.mode == mode && this.run == run && this.labels == labels && this.cached == cached
    {
      this.svc, this.mode, this.run, this.labels, this.cached := svc, mode, run, labels, cached;
      this.world, this.down := run[|run| - 1], false;
      this.unfit := *;
    }

    /** The history is a run, and the cache shows no request as new once names are minted for it: one worker
        at a time reconciles a request, and it mints from a copy that is past New. */
    ghost predicate Valid()
      reads this
    {
      && IsRun(svc, run, labels) && run[|run| - 1] == world && cached < |run| && ModeInv(mode, world)
      && (IsMinted(world) ==> CachePastNew())
      && (GoesThrough(mode) ==> !down)
    }

    ghost predicate CachePastNew()
      reads this
    {
      cached < |run| && PastNew(run[cached])
    }

    /** The cache only moves forward. */
    method AdvanceCache()
      requires Valid()
      modifies this`cached
      ensures Valid() && old(cached) <= cached
    {
      var i: int := *;
      if cached <= i && i < |run| {
        Runs.RunReach(svc, run, labels, cached, i);
        if PastNew(run[cached]) {
          StaysPastNew(run[cached], run[i]);
        }
        cached := i;
      }
    }

    method CatchUp()
      requires Valid()
      modifies this`cached
      ensures Valid() && Current()
    {
      hide IsRun, ModeInv;
      Runs.RunReach(svc, run, labels, cached, |run| - 1);
      if PastNew(run[cached]) {
        StaysPastNew(run[cached], world);
      }
      cached := |run| - 1;
    }

    lemma WorldInv()
      requires Valid()
      ensures Inv(svc, world)
    {
      Runs.RunInv(svc, run, labels, |run| - 1);
    }

    /** A copy read earlier is the stored object whenever the versions agree. */
    lemma SameVersion(seen: nat)
      requires Valid() && seen < |run| && !run[seen].gone
      ensures Reach(run[seen], world)
      ensures !world.gone && world.last.version == run[seen].last.version ==> world.Shown() == run[seen].Shown()
    {
      Runs.RunReach(svc, run, labels, seen, |run| - 1);
    }

    /** The teardown's promise, whatever calls failed and wherever the controller died: a terminal phase
        comes with the executor's exit code and says Executed only for zero, and the Job is gone only
        once that result is stored. */
    lemma TeardownOutcome()
      requires Valid() && mode.SidecarHeld?
      ensures !world.gone
      ensures
        var s := world.last.status;
        && (IsTerminal(s.phase) ==> s.exitCode == Some(mode.code) && s.phase == if mode.code == 0 then Executed else Failed)
        && (s.exec.jobName !in world.jobs ==> s.exitCode == Some(mode.code) && s.output.capture != CaptureUnset)
        && (!IsTerminal(s.phase) ==> s.phase == Approved)
    {
    }

    /** The cache has caught up. */
    ghost predicate Current()
      reads this
    {
      cached < |run| && run[cached].Shown() == world.Shown()
    }

    /** A cache that has caught up stays so while nothing changes. */
    lemma StaysCurrent(i: nat, j: nat)
      requires Valid() && i <= j < |run| && run[i].Shown() == world.Shown() && !world.gone
      ensures run[j].Shown() == world.Shown()
    {
      Runs.RunReach(svc, run, labels, i, j);
      Runs.RunReach(svc, run, labels, j, |run| - 1);
    }

    /** No step of labels[i..j] is the reconciler's. */
    ghost predicate Quiet(i: nat, j: nat)
      reads this
    {
      forall k {:trigger labels[k]} :: i <= k < j && k < |labels| ==> FromOutside(labels[k])
    }

    /** Since labels[from] nobody else has touched what the executor's Job is made of. */
    ghost predicate Unmeddled(from: nat)
      reads this
    {
      forall k {:trigger labels[k]} :: from <= k < |labels| ==> !Meddles(labels[k])
    }

    /** So it is as it was in `w`. */
    ghost predicate LeftAlone(from: nat, w: World)
      reads this
    {
      Unmeddled(from) ==> SameExecutor(w, world)
    }

    method Perform(a: Action)
      requires Valid() && Enabled(svc, world, a) && ModeInv(mode, Apply(svc, world, a))
      requires Mints(a) ==> CachePastNew()
      modifies this`world, this`run, this`labels
      ensures Valid() && world == Apply(svc, old(world), a)
      ensures run == old(run) + [world] && labels == old(labels) + [a]
    {
      hide Enabled, Apply, ModeInv, Mints, PastNew, IsMinted;
      if !IsMinted(world) && IsMinted(Apply(svc, world, a)) {
        OnlyMintingMints(svc, world, a);
      }
      Runs.ExtendRun(svc, run, labels, a);
      world := Apply(svc, world, a);
      run := run + [world];
      labels := labels + [a];
    }

    /** Someone else may take one step. */
    method InterfereOnce(caller: Caller)
      requires Valid()
      modifies this`world, this`run, this`labels, this`cached
      ensures Valid() && old(run) <= run && old(labels) <= labels
      ensures old(cached) <= cached && (caller.Controller? ==> cached == old(cached))
      ensures Between(svc, caller, old(world), world)
      ensures caller.Controller? ==> Quiet(|old(labels)|, |labels|) && LeftAlone(|old(labels)|, old(world))
      ensures mode.Silent? ==> world == old(world) && labels == old(labels) && run == old(run)
      ensures caller.Controller? ==> KeptOpen(mode, old(world), world)
    {
      hide Inv, Rely, Reach, IsRun, Enabled, FromOutside, TwoPhase, HeldOpen, Apply, Meddles;
      InterferenceStarts(svc, mode, world);
      WorldInv();
      if caller.Another? {
        AdvanceCache();
      }
      var a: Action := *;
      if !Enabled(svc, world, a) || !MayPrecede(caller, mode, svc, world, a) {
        return;
      }
      var past := cached < |run| && PastNew(run[cached]);
      if Mints(a) && !past {
        return;
      }
      if caller.Controller? {
        if mode.SidecarHeld? {
          OutsideKeepsTwoPhase(svc, world, a, mode.uid, mode.code);
        }
        OutsideStepRely(svc, world, a);
        OthersMeddleOrLeaveBe(svc, world, a);
      } else {
        StepReach(svc, world, a);
      }
      Perform(a);
      assert labels[|old(labels)|] == a;
    }

    /** Everyone else takes any number of steps. */
    method Interfere(caller: Caller)
      requires Valid()
      modifies this`world, this`run, this`labels, this`cached
      ensures Valid() && old(run) <= run && old(labels) <= labels
      ensures old(cached) <= cached && (caller.Controller? ==> cached == old(cached))
      ensures Between(svc, caller, old(world), world)
      ensures caller.Controller? ==> Quiet(|old(labels)|, |labels|) && LeftAlone(|old(labels)|, old(world))
      ensures mode.Silent? ==> world == old(world) && labels == old(labels) && run == old(run)
      ensures caller.Controller? ==> KeptOpen(mode, old(world), world)
    {
      hide Inv, Rely, Reach, IsRun, Enabled, FromOutside, TwoPhase, HeldOpen, Meddles;
      InterferenceStarts(svc, mode, world);
      var n: int := *;
      while 0 < n
        invariant Valid() && old(run) <= run && old(labels) <= labels
        invariant old(cached) <= cached && (caller.Controller? ==> cached == old(cached))
        invariant Between(svc, caller, old(world), world)
        invariant caller.Controller? ==> Quiet(|old(labels)|, |labels|) && LeftAlone(|old(labels)|, old(world))
        invariant mode.Silent? ==> world == old(world) && labels == old(labels) && run == old(run)
        invariant caller.Controller? ==> KeptOpen(mode, old(world), world)
      {
        ghost var w := world;
        InterfereOnce(caller);
        BetweenTransitive(svc, caller, old(world), w, world);
        n := n - 1;
      }
    }

    /** Between two reconciles everyone else takes any number of steps, even where none moves during one. */
    method BetweenCalls()
      requires Valid() && !mode.SidecarHeld?
      modifies this
      ensures Valid() && old(run) <= run && old(labels) <= labels && down == old(down) && cached == old(cached)
      ensures Rely(svc, old(world), world)
    {
      hide Inv, Rely, Reach, IsRun, Enabled, FromOutside, Apply;
      InterferenceStarts(svc, mode, world);
      var n: int := *;
      while 0 < n
        invariant Valid() && old(run) <= run && old(labels) <= labels && down == old(down) && cached == old(cached)
        invariant Rely(svc, old(world), world)
      {
        var a: Action := *;
        if Enabled(svc, world, a) && FromOutside(a) {
          WorldInv();
          ghost var w := world;
          OutsideStepRely(svc, w, a);
          OutsideNeverMints(a);
          Perform(a);
          RelyTransitive(svc, old(world), w, world);
        }
        n := n - 1;
      }
    }

    /** What becomes of one call: it goes through, is lost on the way there, or is lost on the way back.
        Either loss may be the death of the process, after which nothing gets through. */
    method DrawFate() returns (fate: Fate)
      modifies this`down
      ensures old(down) ==> fate.LostBefore? && down
      ensures fate.Through? ==> !down
      ensures GoesThrough(mode) && !old(down) ==> fate.Through? && !down
    {
      if down {
        return LostBefore;
      }
      if GoesThrough(mode) {
        return Through;
      }
      fate := *;
      var dies: bool := *;
      down := dies && !fate.Through?;
    }

    // ----- Reads -----

    method Clock(caller: Caller) returns (now: Time)
      requires Valid()
      modifies this
      ensures Valid() && old(run) <= run && old(labels) <= labels && down == old(down) && now == world.now
      ensures if caller.Controller? then Rely(svc, old(world), world) else Reach(old(world), world)
      ensures caller.Controller? ==> Quiet(|old(labels)|, |labels|) && LeftAlone(|old(labels)|, old(world)) && cached == old(cached)
      ensures mode.Silent? ==> world == old(world) && labels == old(labels) && run == old(run)
    {
      hide Reach, Rely;
      Interfere(caller);
      now := world.now;
    }

    /** The informer's copy: some version of the object, never older than the one it showed last. */
    method CachedRequest() returns (sr: Option<Request>)
      requires Valid()
      modifies this`cached
      ensures Valid() && sr == run[cached].Shown() && old(cached) <= cached
      ensures old(Current()) && !world.gone ==> sr == world.Shown()
    {
      AdvanceCache();
      if run[old(cached)].Shown() == world.Shown() && !world.gone {
        StaysCurrent(old(cached), cached);
      }
      sr := run[cached].Shown();
    }

    /** Which state of the world some other cached list shows. */
    method CacheIndex() returns (i: nat)
      requires Valid()
      ensures i < |run|
    {
      var k: int := *;
      i := if 0 <= k < |run| then k else |run| - 1;
    }

    /** An uncached read of the request. */
    method GetRequest() returns (r: Answer<Request>)
      requires Valid()
      modifies this
      ensures Valid() && old(run) <= run && old(labels) <= labels && cached == old(cached)
      ensures Rely(svc, old(world), world) && Quiet(|old(labels)|, |labels|) && LeftAlone(|old(labels)|, old(world))
      ensures r.Found? ==> world.Shown() == Some(r.value) && !down
      ensures r.Absent? ==> world.gone && !down
      ensures mode.Silent? ==> world == old(world) && labels == old(labels) && run == old(run)
      ensures GoesThrough(mode) ==> !r.Unavailable?
    {
      hide Rely, Reach, IsRun, ModeInv;
      Interfere(Controller);
      var fate := DrawFate();
      if !fate.Through? {
        return Unavailable;
      }
      return if !world.gone then Found(world.last) else Absent;
    }

    /** An uncached read of the Job at a name in the executor namespace. */
    method GetJob(name: string) returns (r: Answer<Job>)
      requires Valid()
      modifies this
      ensures Valid() && old(run) <= run && old(labels) <= labels && cached == old(cached)
      ensures Rely(svc, old(world), world) && Quiet(|old(labels)|, |labels|) && LeftAlone(|old(labels)|, old(world))
      ensures r.Found? ==> name in world.jobs && world.jobs[name] == r.value && !down
      ensures r.Absent? ==> name !in world.jobs && !down
      ensures mode.Silent? ==> world == old(world) && labels == old(labels) && run == old(run) && unfit == old(unfit)
      ensures GoesThrough(mode) ==> !r.Unavailable?
      ensures KeptOpen(mode, old(world), world)
    {
      hide Rely, Reach, IsRun, ModeInv;
      Interfere(Controller);
      var fate := DrawFate();
      if !fate.Through? {
        return Unavailable;
      }
      return if name in world.jobs then Found(world.jobs[name]) else Absent;
    }

    /** An uncached list of the pods labelled with a Job's name. */
    method ListPods(job: string) returns (r: Answer<seq<Pod>>)
      requires Valid()
      modifies this
      ensures Valid() && old(run) <= run && old(labels) <= labels && cached == old(cached)
      ensures Rely(svc, old(world), world) && Quiet(|old(labels)|, |labels|) && LeftAlone(|old(labels)|, old(world))
      ensures r.Found? ==> r.value == PodsLabelled(world.pods, job) && !down
      ensures !r.Absent?
      ensures mode.Silent? ==> world == old(world) && labels == old(labels) && run == old(run)
      ensures GoesThrough(mode) ==> r.Found?
      ensures KeptOpen(mode, old(world), world)
    {
      hide Rely, Reach, IsRun, ModeInv;
      Interfere(Controller);
      var fate := DrawFate();
      if !fate.Through? {
        return Unavailable;
      }
      return Found(PodsLabelled(world.pods, job));
    }

    /** The kubelet's log of a container, as long as the pod is there. */
    method ReadLogs(pod: Pod, container: string) returns (r: Answer<string>)
      requires Valid()
      modifies this
      ensures Valid() && old(run) <= run && old(labels) <= labels && cached == old(cached)
      ensures Rely(svc, old(world), world) && Quiet(|old(labels)|, |labels|) && LeftAlone(|old(labels)|, old(world))
      ensures r.Found? ==> LogFact(pod.owner, container, r.value) in world.trail.logs && !down
      ensures mode.Silent? ==>
                && world.Shown() == old(world).Shown() && world.jobs == old(world).jobs
                && world.pods == old(world).pods && world.now == old(world).now
      ensures GoesThrough(mode) ==> (r.Found? <==> exists p :: p in world.pods && p.owner == pod.owner)
    {
      hide Rely, Reach, IsRun, ModeInv;
      Interfere(Controller);
      ghost var between := world;
      r := FetchLog(pod, container);
      RelyTransitive(svc, old(world), between, world);
    }

    method FetchLog(pod: Pod, container: string) returns (r: Answer<string>)
      requires Valid()
      modifies this
      ensures Valid() && old(run) <= run && old(labels) <= labels && cached == old(cached)
      ensures Rely(svc, old(world), world) && Quiet(|old(labels)|, |labels|) && LeftAlone(|old(labels)|, old(world))
      ensures r.Found? ==> LogFact(pod.owner, container, r.value) in world.trail.logs && !down
      ensures world.Shown() == old(world).Shown() && world.jobs == old(world).jobs
      ensures world.pods == old(world).pods && world.now == old(world).now
      ensures GoesThrough(mode) ==> (r.Found? <==> exists p :: p in world.pods && p.owner == pod.owner)
    {
      hide Inv, ModeInv, Rely, AfterEvent, IsRun;
      RelyReflexive(svc, world);
      var fate := DrawFate();
      if !fate.Through? || !exists p :: p in world.pods && p.owner == pod.owner {
        return Unavailable;
      }
      var text: string := *;
      WorldInv();
      LogReadFacts(svc, mode, world, LogFact(pod.owner, container, text));
      Perform(Outside(LogRead(LogFact(pod.owner, container, text))));
      return Found(text);
    }

    /** An uncached read of a Secret in the executor namespace. */
    method GetStdin(name: string) returns (r: Answer<StdinSecret>)
      requires Valid()
      modifies this
      ensures Valid() && old(run) <= run && old(labels) <= labels && cached == old(cached)
      ensures Rely(svc, old(world), world) && Quiet(|old(labels)|, |labels|) && LeftAlone(|old(labels)|, old(world))
      ensures r.Found? ==> name in world.stdins && world.stdins[name] == r.value && !down
      ensures r.Absent? ==> name !in world.stdins && !down
      ensures mode.Silent? ==> world == old(world) && labels == old(labels) && run == old(run)
      ensures GoesThrough(mode) ==> !r.Unavailable?
    {
      hide Rely, Reach, IsRun, ModeInv;
      Interfere(Controller);
      var fate := DrawFate();
      if !fate.Through? {
        return Unavailable;
      }
      return if name in world.stdins then Found(world.stdins[name]) else Absent;
    }

    /** Looking up the Secrets a request refers to. Which they are is not modelled; what they are may change at
        any time. */
    method ScreenSecrets() returns (r: Outcome)
      requires Valid()
      modifies this
      ensures Valid() && old(run) <= run && old(labels) <= labels && cached == old(cached)
      ensures Rely(svc, old(world), world) && Quiet(|old(labels)|, |labels|) && LeftAlone(|old(labels)|, old(world))
      ensures r.Done? || r.Rejected? || r.Lost?
      ensures (r.Done? ==> !unfit) && (r.Rejected? ==> unfit) && (!r.Lost? ==> !down)
      ensures mode.Silent? ==> world == old(world) && labels == old(labels) && run == old(run) && unfit == old(unfit)
      ensures GoesThrough(mode) ==> !r.Lost?
    {
      hide Rely, Reach, IsRun, ModeInv;
      Interfere(Controller);
      if !mode.Silent? {
        unfit := *;
      }
      var fate := DrawFate();
      return if !fate.Through? then Lost else if unfit then Rejected else Done;
    }

    /** The playbook's target Job, uncached. */
    method GetTarget() returns (r: Answer<TargetJob>)
      requires Valid()
      modifies this
      ensures Valid() && old(run) <= run && old(labels) <= labels && cached == old(cached)
      ensures Rely(svc, old(world), world) && Quiet(|old(labels)|, |labels|) && LeftAlone(|old(labels)|, old(world))
      ensures r.Found? ==> world.target == Some(r.value) && !down
      ensures r.Absent? ==> world.target.None? && !down
      ensures mode.Silent? ==> world == old(world) && labels == old(labels) && run == old(run)
      ensures GoesThrough(mode) ==> !r.Unavailable?
    {
      hide Rely, Reach, IsRun, ModeInv;
      Interfere(Controller);
      var fate := DrawFate();
      if !fate.Through? {
        return Unavailable;
      }
      return if world.target.Some? then Found(world.target.value) else Absent;
    }

    /** A cached read of an approval-token Secret: it may miss a Secret, never make one up. */
    method CachedToken(name: string) returns (r: Answer<TokenSecret>, ghost at: nat)
      requires Valid()
      modifies this`down
      ensures Valid() && (r.Found? ==> at < |run| && name in run[at].tokens && run[at].tokens[name] == r.value)
      ensures mode.Silent? ==> if name in world.tokens then r == Found(world.tokens[name]) else r.Absent?
    {
      var fate := DrawFate();
      var i: int := *;
      if mode.Silent? {
        i := |run| - 1;
      }
      if !fate.Through? || i < 0 || i >= |run| {
        return Unavailable, 0;
      }
      return if name in run[i].tokens then Found(run[i].tokens[name]) else Absent, i;
    }

    // ----- Writes -----

    /** The calls's own step came last, and only once. */
    ghost predicate ActedOnce(from: nat, a: Action)
      reads this
    {
      from < |labels| && labels[|labels| - 1] == a && Quiet(from, |labels| - 1)
    }

    /** Update, or Status().Update, of a copy of the request read at run[seen]: `a` says what is stored. */
    method Update(caller: Caller, sr: Request, a: Action, ghost seen: nat)
      returns (r: Outcome, ghost wrote: bool, ghost before: World)
      requires Valid() && seen < |run| && run[seen].Shown() == Some(sr)
      requires Mints(a) ==> caller.Controller? && CachePastNew()
      requires forall w {:trigger Between(svc, caller, world, w)} ::
                 Between(svc, caller, world, w) && w.Shown() == Some(sr) && Inv(svc, w) && ModeInv(mode, w)
                 ==> Enabled(svc, w, a) && ModeInv(mode, Apply(svc, w, a))
      modifies this
      ensures Valid() && old(run) <= run && old(labels) <= labels
      ensures old(cached) <= cached && (caller.Controller? ==> cached == old(cached))
      ensures Between(svc, caller, old(world), before)
      ensures wrote ==> before.Shown() == Some(sr) && world == Apply(svc, before, a)
      ensures !wrote ==> world == before
      ensures caller.Controller? ==> if wrote then ActedOnce(|old(labels)|, a) else Quiet(|old(labels)|, |labels|)
      ensures r.Done? ==> wrote && !down
      ensures r.Conflict? ==> !wrote && !world.gone && world.last.version != sr.version && !down
      ensures r.Missing? ==> world.gone
      ensures r.Done? || r.Conflict? || r.Missing? || r.Lost?
      ensures GoesThrough(mode) ==> !r.Lost?
      ensures mode.Silent? ==> before == old(world) && (old(world).Shown() == Some(sr) ==> r.Done?)
    {
      hide Rely, Reach, Inv, Enabled, EffectEnabled, ModeInv, Apply, AfterEffect;
      Interfere(caller);
      before := world;
      r, wrote := StoreIfCurrent(sr, a, seen);
    }

    /** The apiserver's side of an update: compare the version, then store. */
    method StoreIfCurrent(sr: Request, a: Action, ghost seen: nat) returns (r: Outcome, ghost wrote: bool)
      requires Valid() && seen < |run| && run[seen].Shown() == Some(sr)
      requires world.Shown() == Some(sr) && Inv(svc, world) ==> Enabled(svc, world, a) && ModeInv(mode, Apply(svc, world, a))
      requires Mints(a) ==> CachePastNew()
      modifies this
      ensures Valid() && old(run) <= run && old(labels) <= labels && cached == old(cached)
      ensures wrote ==> old(world).Shown() == Some(sr) && world == Apply(svc, old(world), a) && labels == old(labels) + [a]
      ensures !wrote ==> world == old(world) && labels == old(labels)
      ensures r.Done? ==> wrote && !down
      ensures r.Conflict? ==> !wrote && !world.gone && world.last.version != sr.version && !down
      ensures r.Missing? ==> world.gone
      ensures r.Done? || r.Conflict? || r.Missing? || r.Lost?
      ensures GoesThrough(mode) ==> !r.Lost?
      ensures mode.Silent? && old(world).Shown() == Some(sr) ==> r.Done?
    {
      wrote := false;
      var fate := DrawFate();
      if fate.LostBefore? {
        return Lost, wrote;
      }
      if world.gone {
        return if fate.Through? then Missing else Lost, wrote;
      }
      if world.last.version != sr.version {
        return if fate.Through? then Conflict else Lost, wrote;
      }
      SameVersion(seen);
      WorldInv();
      Perform(a);
      return if fate.Through? then Done else Lost, true;
    }

    /** Creating, deleting or sending something that is not the request itself. */
    method Do(caller: Caller, e: Effect) returns (r: Outcome, ghost wrote: bool, ghost before: World)
      requires Valid() && !e.SetFinalizer? && !e.ReleaseFinalizer? && !e.CreateJob?
      requires forall w {:trigger Between(svc, caller, world, w)} ::
                 Between(svc, caller, world, w) && Verdict(w, e).Done? && Inv(svc, w) && ModeInv(mode, w)
                 ==> EffectEnabled(svc, w, e) && ModeInv(mode, AfterEffect(w, e))
      modifies this
      ensures Valid() && old(run) <= run && old(labels) <= labels
      ensures old(cached) <= cached && (caller.Controller? ==> cached == old(cached))
      ensures Between(svc, caller, old(world), before)
      ensures caller.Controller? && Unmeddled(|old(labels)|) ==> SameExecutor(old(world), before)
      ensures wrote ==> Verdict(before, e).Done? && world == AfterEffect(before, e)
      ensures !wrote ==> world == before
      ensures caller.Controller? ==> if wrote then ActedOnce(|old(labels)|, Own(e)) else Quiet(|old(labels)|, |labels|)
      ensures r == Lost || (r == Verdict(before, e) && wrote == r.Done? && !down)
      ensures GoesThrough(mode) ==> r != Lost
      ensures mode.Silent? ==> before == old(world)
    {
      hide Rely, Reach, Inv, Enabled, EffectEnabled, ModeInv, Apply, AfterEffect;
      Interfere(caller);
      before := world;
      r, wrote := Serve(e);
    }

    method Serve(e: Effect) returns (r: Outcome, ghost wrote: bool)
      requires Valid()
      requires Verdict(world, e).Done? && Inv(svc, world) ==> EffectEnabled(svc, world, e) && ModeInv(mode, AfterEffect(world, e))
      modifies this
      ensures Valid() && old(run) <= run && old(labels) <= labels && cached == old(cached)
      ensures wrote ==> Verdict(old(world), e).Done? && world == AfterEffect(old(world), e) && labels == old(labels) + [Own(e)]
      ensures !wrote ==> world == old(world) && labels == old(labels)
      ensures r == Lost || (r == Verdict(old(world), e) && wrote == r.Done? && !down)
      ensures GoesThrough(mode) ==> r != Lost
    {
      hide Inv, ModeInv, EffectEnabled, AfterEffect, IsRun, IsMinted, PastNew;
      wrote := false;
      var fate := DrawFate();
      if fate.LostBefore? {
        return Lost, wrote;
      }
      var verdict := Verdict(world, e);
      if verdict.Done? {
        WorldInv();
        Perform(Own(e));
        wrote := true;
      }
      return if fate.Through? then verdict else Lost, wrote;
    }

    /** Creating a token Secret under a name the apiserver generates. */
    method CreateToken(secret: TokenSecret) returns (r: Outcome, name: string)
      requires Valid()
      modifies this
      ensures Valid() && old(run) <= run && old(labels) <= labels && cached == old(cached)
      ensures Reach(old(world), world)
      ensures r.Done? || r.Lost?
      ensures r.Done? ==> name != "" && name in world.tokens && world.tokens[name] == secret && !down
      ensures mode.Silent? ==> world.Shown() == old(world).Shown() && world.target == old(world).target && world.now == old(world).now
      ensures GoesThrough(mode) ==> r.Done?
    {
      hide Inv, ModeInv, Rely, Reach, AfterEffect, EffectEnabled, IsRun;
      Interfere(Controller);
      RelyThenReach(svc, old(world), world, world);
      var fate := DrawFate();
      name := FreshName(world.trail.tokenNames);
      if fate.LostBefore? {
        return Lost, name;
      }
      ghost var w := world;
      PutTokenFacts(svc, mode, w, name, secret);
      Perform(Own(PutToken(name, secret)));
      RelyThenReach(svc, old(world), w, world);
      return if fate.Through? then Done else Lost, name;
    }

    /** Creating the executor Job. The apiserver picks the UID; it may also refuse the Job for good. */
    method CreateExecutorJob(name: string, spec: JobSpec) returns (r: Outcome, job: Job, ghost wrote: bool, ghost before: World)
      requires Valid() && !mode.SidecarHeld?
      requires forall w, job: Job {:trigger Rely(svc, world, w), EffectEnabled(svc, w, CreateJob(name, job))} ::
                 Rely(svc, world, w) && name !in w.jobs && Inv(svc, w)
                 && job.uid !in w.trail.uids && job.spec == spec && !job.finished && !job.terminating
                 ==> EffectEnabled(svc, w, CreateJob(name, job))
      modifies this
      ensures Valid() && old(run) <= run && old(labels) <= labels && cached == old(cached)
      ensures Rely(svc, old(world), before)
      ensures Unmeddled(|old(labels)|) ==> SameExecutor(old(world), before)
      ensures wrote ==> job.spec == spec && name !in before.jobs && world == AfterEffect(before, CreateJob(name, job))
      ensures !wrote ==> world == before
      ensures if wrote then ActedOnce(|old(labels)|, Own(CreateJob(name, job))) else Quiet(|old(labels)|, |labels|)
      ensures r.Done? || r.Exists? || r.Rejected? || r.Lost?
      ensures r.Done? ==> wrote && !down
      ensures !r.Done? && !r.Lost? ==> !wrote && !down
      ensures r.Exists? ==> name in world.jobs
      ensures GoesThrough(mode) ==> r != Lost && (name !in before.jobs ==> !r.Exists?)
      ensures mode.Silent? ==> before == old(world)
    {
      hide Rely, Reach, IsRun, ModeInv;
      Interfere(Controller);
      before := world;
      r, job, wrote := ServeJob(name, spec);
    }

    method ServeJob(name: string, spec: JobSpec) returns (r: Outcome, job: Job, ghost wrote: bool)
      requires Valid() && !mode.SidecarHeld?
      requires forall job: Job {:trigger EffectEnabled(svc, world, CreateJob(name, job))} ::
                 name !in world.jobs && Inv(svc, world)
                 && job.uid !in world.trail.uids && job.spec == spec && !job.finished && !job.terminating
                 ==> EffectEnabled(svc, world, CreateJob(name, job))
      modifies this
      ensures Valid() && old(run) <= run && old(labels) <= labels && cached == old(cached)
      ensures wrote ==> job.spec == spec && name !in old(world).jobs && world == AfterEffect(old(world), CreateJob(name, job))
      ensures wrote ==> labels == old(labels) + [Own(CreateJob(name, job))]
      ensures !wrote ==> world == old(world) && labels == old(labels)
      ensures r.Done? || r.Exists? || r.Rejected? || r.Lost?
      ensures r.Done? ==> wrote && !down
      ensures !r.Done? && !r.Lost? ==> !wrote && !down
      ensures r.Exists? ==> name in world.jobs
      ensures GoesThrough(mode) ==> r != Lost && (name !in old(world).jobs ==> !r.Exists?)
    {
      hide Inv, ModeInv, Reach, EffectEnabled;
      wrote := false;
      var uid := FreshUid(world.trail.uids);
      job := Job(uid, spec, world.now, false, false);
      var fate := DrawFate();
      if fate.LostBefore? {
        return Lost, job, wrote;
      }
      var refused: bool := *;
      if refused {
        return if fate.Through? then Rejected else Lost, job, wrote;
      }
      if name in world.jobs {
        return if fate.Through? then Exists else Lost, job, wrote;
      }
      WorldInv();
      NotHeld(mode, AfterEffect(world, CreateJob(name, job)));
      Perform(Own(CreateJob(name, job)));
      return if fate.Through? then Done else Lost, job, true;
    }
  }

  method FreshUid(used: set<Uid>) returns (uid: Uid)
    ensures uid !in used
  {
    var rest := used;
    uid := 0;
    while rest != {}
      invariant forall u :: u in used ==> u in rest || u < uid
    {
      var u :| u in rest;
      rest := rest - {u};
      if uid <= u {
        uid := u + 1;
      }
    }
  }

  /** Some name nobody has used: the generated one, or failing that one longer than all. */
  method FreshName(used: set<string>) returns (name: string)
    ensures name !in used && name != ""
  {
    var suffix: string := *;
    name := "sudo-approval-token-" + suffix;
    if name !in used {
      return;
    }
    var rest := used;
    name := "sudo-approval-token-";
    while rest != {}
      invariant name != "" && forall n :: n in used ==> n in rest || |n| < |name|
    {
      var n :| n in rest;
      rest := rest - {n};
      if |name| <= |n| {
        name := n + "x";
      }
    }
  }
}
