/** All requests together (retry.go, api.go): how one may follow another, and what that adds up to over
    every run of submissions, resubmissions, links and lifecycle progress. Requests are not deleted. */
module Lineage {
  import opened Prelude
  import opened SudoTypes
  import opened Fingerprint
  import opened Invariants
  import opened Lifecycle
  import opened Stability
  import opened Wiring
  import Runs

  /** Requests by name. The apiserver hands out UIDs it has not used; here they count up.
      `viaApi` are the UIDs of requests created through the HTTP API, `over` of those ever seen terminal,
      `lapsed` of those ever seen Expired or Failed. */
  datatype Store = Store(requests: map<string, Request>, nextUid: Uid, viaApi: set<Uid>, over: set<Uid>, lapsed: set<Uid>)

  const EMPTY_STORE := Store(map[], 0, {}, {}, {})

  datatype Act =
    | Submit(name: string, spec: Spec, byApi: bool)
    | Resubmit(name: string, spec: Spec, admin: bool)
    | LinkTo(name: string, uid: Uid)
    | Progress(name: string, status: Status)

  /** retryChildName: the deterministic name of a request's one successor. */
  function RetryChildName(lib: Library, uid: Uid): string {
    "retry-" + lib.uidText(uid)
  }

  /** Where UIDs read differently, so do the names of their successors. */
  lemma ChildNamesDiffer(lib: Library, u: Uid, v: Uid)
    requires lib.uidText(u) != lib.uidText(v)
    ensures RetryChildName(lib, u) != RetryChildName(lib, v)
  {
    assert RetryChildName(lib, u)[6..] == lib.uidText(u) && RetryChildName(lib, v)[6..] == lib.uidText(v);
  }

  function NewRequest(name: string, uid: Uid, spec: Spec): Request {
    Request(name, uid, 0, 0, false, false, spec, EMPTY_STATUS)
  }

  /** The source's spec, resubmitted by someone. */
  predicate Resubmits(source: Request, spec: Spec) {
    spec == source.spec.(retryOf := Some(source.uid), submittedBy := spec.submittedBy)
  }

  predicate IsRetryOf(lib: Library, source: Request, name: string, spec: Spec) {
    Resubmits(source, spec) && name == RetryChildName(lib, source.uid)
  }

  predicate Enabled(cfg: Config, s: Store, a: Act) {
    match a
    case Submit(name, spec, _) => name !in s.requests && spec.retryOf.None?
    case Resubmit(name, spec, admin) =>
      && name !in s.requests
      && exists n :: n in s.requests && s.requests[n].uid in (if admin then s.over else s.lapsed)
                     && IsRetryOf(cfg.lib, s.requests[n], name, spec)
    case LinkTo(name, uid) =>
      && name in s.requests && s.requests[name].status.supersededBy.None?
      && var child := RetryChildName(cfg.lib, s.requests[name].uid);
         child in s.requests && s.requests[child].uid == uid && s.requests[child].spec.retryOf == Some(s.requests[name].uid)
    case Progress(name, status) => name in s.requests && Moves(s.requests[name], status)
  }

  /** What the lifecycle does to a status. Nothing leaves a terminal phase but, in a playbook request, by an
      approval that looks at no phase. */
  predicate Moves(r: Request, status: Status) {
    && StatusReach(r.spec, r.status, status)
    && status.supersededBy == r.status.supersededBy
    && Fingerprint.ImageSettled(r.(status := status))
  }

  function Restatus(s: Store, name: string, status: Status): Store
    requires name in s.requests
  {
    var r := s.requests[name];
    s.(requests := s.requests[name := r.(version := r.version + 1, status := status)],
       over := if IsTerminal(status.phase) then s.over + {r.uid} else s.over,
       lapsed := if status.phase == Expired || status.phase == Failed then s.lapsed + {r.uid} else s.lapsed)
  }

  function Apply(s: Store, a: Act): Store {
    match a
    case Submit(name, spec, byApi) =>
      s.(requests := s.requests[name := NewRequest(name, s.nextUid, spec)],
         nextUid := s.nextUid + 1,
         viaApi := if byApi then s.viaApi + {s.nextUid} else s.viaApi)
    case Resubmit(name, spec, _) =>
      s.(requests := s.requests[name := NewRequest(name, s.nextUid, spec)],
         nextUid := s.nextUid + 1,
         viaApi := s.viaApi + {s.nextUid})
    case LinkTo(name, uid) =>
      if name in s.requests then Restatus(s, name, s.requests[name].status.(supersededBy := Some(uid))) else s
    case Progress(name, status) => if name in s.requests then Restatus(s, name, status) else s
  }

  ghost predicate IsRun(cfg: Config, run: seq<Store>, labels: seq<Act>) {
    && |run| == |labels| + 1
    && run[0] == EMPTY_STORE
    && forall k {:trigger labels[k]} :: 0 <= k < |labels| ==> Enabled(cfg, run[k], labels[k]) && run[k + 1] == Apply(run[k], labels[k])
  }

  /** The lifecycle of one request, between any two moments of any run of it, is such progress, apart
      from the forward link. */
  lemma LifecycleMoves(cfg: Config, run: seq<World>, labels: seq<Action>, i: nat, j: nat)
    requires Lifecycle.IsRun(ServiceOf(cfg), run, labels) && i <= j < |run|
    ensures Moves(run[i].last, run[j].last.status.(supersededBy := run[i].last.status.supersededBy))
  {
    var svc := ServiceOf(cfg);
    Runs.RunReach(svc, run, labels, 0, i);
    Runs.RunReach(svc, run, labels, i, j);
    Runs.RunInv(svc, run, labels, j);
    SettledHere(cfg, run[j]);
  }

  lemma SettledHere(cfg: Config, w: World)
    requires Inv(ServiceOf(cfg), w)
    ensures w.last.spec == w.spec && Fingerprint.ImageSettled(w.last)
  {
    hide GenuineResult, JobInv, ExecInv, ResultInv, LinkInv, TrailInv, SecretInv;
  }

  // ----- Invariants -----

  ghost predicate Named(s: Store) {
    && (forall n :: n in s.requests ==> s.requests[n].name == n && s.requests[n].uid < s.nextUid)
    && (forall m, n :: m in s.requests && n in s.requests && s.requests[m].uid == s.requests[n].uid ==> m == n)
    && (forall u :: u in s.viaApi || u in s.over ==> u < s.nextUid) && s.lapsed <= s.over
  }

  /** Whatever is over is known to have been over; and without a playbook, whatever has been over is. */
  predicate OverSince(s: Store, r: Request) {
    && (IsTerminal(r.status.phase) ==> r.uid in s.over)
    && (r.status.phase == Expired || r.status.phase == Failed ==> r.uid in s.lapsed)
    && (r.spec.playbook.None? && r.uid in s.over ==> IsTerminal(r.status.phase))
  }

  ghost predicate Ended(s: Store) {
    forall n :: n in s.requests ==> OverSince(s, s.requests[n])
  }

  /** `n` has its predecessor in the store: older, once over, and running the same thing for the same requester. */
  ghost predicate HasSource(lib: Library, s: Store, n: string)
    requires n in s.requests
  {
    exists p :: p in s.requests && s.requests[p].uid in s.over && s.requests[p].uid < s.requests[n].uid
                && IsRetryOf(lib, s.requests[p], n, s.requests[n].spec)
  }

  ghost predicate Rooted(lib: Library, s: Store) {
    forall n :: n in s.requests && s.requests[n].spec.retryOf.Some? ==> HasSource(lib, s, n)
  }

  predicate LinkHolds(lib: Library, s: Store, r: Request) {
    r.status.supersededBy.Some? ==>
      var child := RetryChildName(lib, r.uid);
      child in s.requests && s.requests[child].uid == r.status.supersededBy.value && s.requests[child].spec.retryOf == Some(r.uid)
  }

  ghost predicate Linked(lib: Library, s: Store) {
    forall n :: n in s.requests ==> LinkHolds(lib, s, s.requests[n])
  }

  ghost predicate Settled(s: Store) {
    forall n :: n in s.requests ==> Fingerprint.ImageSettled(s.requests[n])
  }

  ghost predicate StoreInv(cfg: Config, s: Store) {
    Named(s) && Ended(s) && Rooted(cfg.lib, s) && Linked(cfg.lib, s) && Settled(s)
  }

  /** What no act undoes: nothing is deleted, specs and UIDs stay, terminal phases absorb unless there is a
      playbook, a link is written once. */
  predicate Kept(a: Request, b: Request) {
    && b.name == a.name && b.uid == a.uid && b.spec == a.spec
    && a.version <= b.version && (a.version == b.version ==> a == b)
    && (IsTerminal(a.status.phase) && a.spec.playbook.None? ==> b.status.phase == a.status.phase)
    && (a.status.supersededBy.Some? ==> b.status.supersededBy == a.status.supersededBy)
  }

  ghost predicate StoreReach(s: Store, t: Store) {
    && s.nextUid <= t.nextUid
    && (forall n :: n in s.requests ==> n in t.requests && Kept(s.requests[n], t.requests[n]))
    && (forall n :: n in t.requests && n !in s.requests ==> t.requests[n].uid >= s.nextUid)
    && (forall u :: u in s.viaApi ==> u in t.viaApi)
    && (forall u :: u in s.over ==> u in t.over) && (forall u :: u in s.lapsed ==> u in t.lapsed)
  }

  lemma StoreReachTransitive(a: Store, b: Store, c: Store)
    requires StoreReach(a, b) && StoreReach(b, c)
    ensures StoreReach(a, c)
  {
  }

  lemma StepReaches(cfg: Config, s: Store, a: Act)
    requires Enabled(cfg, s, a)
    ensures StoreReach(s, Apply(s, a))
  {
  }

  lemma StepKeepsNamed(cfg: Config, s: Store, a: Act)
    requires Named(s) && Enabled(cfg, s, a)
    ensures Named(Apply(s, a))
  {
  }

  lemma StepKeepsEnded(cfg: Config, s: Store, a: Act)
    requires Named(s) && Ended(s) && Enabled(cfg, s, a)
    ensures Ended(Apply(s, a))
  {
  }

  lemma SourceStays(lib: Library, s: Store, t: Store, n: string)
    requires StoreReach(s, t) && n in s.requests && HasSource(lib, s, n)
    ensures HasSource(lib, t, n)
  {
  }

  lemma StepKeepsRooted(cfg: Config, s: Store, a: Act)
    requires Named(s) && Rooted(cfg.lib, s) && Enabled(cfg, s, a)
    ensures Rooted(cfg.lib, Apply(s, a))
  {
    var t := Apply(s, a);
    StepReaches(cfg, s, a);
    forall n | n in t.requests && t.requests[n].spec.retryOf.Some?
      ensures HasSource(cfg.lib, t, n)
    {
      if n in s.requests {
        SourceStays(cfg.lib, s, t, n);
      } else {
        assert a.Resubmit? && a.name == n && a.spec == t.requests[n].spec;
        var p :| p in s.requests && s.requests[p].uid in s.over && IsRetryOf(cfg.lib, s.requests[p], n, a.spec);
        assert t.requests[p] == s.requests[p];
      }
    }
  }

  lemma StepKeepsLinked(cfg: Config, s: Store, a: Act)
    requires Linked(cfg.lib, s) && Enabled(cfg, s, a)
    ensures Linked(cfg.lib, Apply(s, a))
  {
  }

  lemma StepKeepsSettled(cfg: Config, s: Store, a: Act)
    requires Settled(s) && Enabled(cfg, s, a)
    ensures Settled(Apply(s, a))
  {
  }

  lemma {:induction false} RunStoreInv(cfg: Config, run: seq<Store>, labels: seq<Act>, k: nat)
    requires IsRun(cfg, run, labels) && k < |run|
    ensures StoreInv(cfg, run[k])
    decreases k
  {
    if k > 0 {
      RunStoreInv(cfg, run, labels, k - 1);
      var s, a := run[k - 1], labels[k - 1];
      assert Enabled(cfg, s, a) && run[k - 1 + 1] == Apply(s, a);
      StepKeepsNamed(cfg, s, a);
      StepKeepsEnded(cfg, s, a);
      StepKeepsRooted(cfg, s, a);
      StepKeepsLinked(cfg, s, a);
      StepKeepsSettled(cfg, s, a);
    }
  }

  lemma {:induction false} RunStoreReach(cfg: Config, run: seq<Store>, labels: seq<Act>, i: nat, j: nat)
    requires IsRun(cfg, run, labels) && i <= j < |run|
    ensures StoreReach(run[i], run[j])
    decreases j
  {
    if i < j {
      RunStoreReach(cfg, run, labels, i, j - 1);
      assert Enabled(cfg, run[j - 1], labels[j - 1]) && run[j - 1 + 1] == Apply(run[j - 1], labels[j - 1]);
      StepReaches(cfg, run[j - 1], labels[j - 1]);
      StoreReachTransitive(run[i], run[j - 1], run[j]);
    }
  }

  lemma ExtendRun(cfg: Config, run: seq<Store>, labels: seq<Act>, a: Act)
    requires IsRun(cfg, run, labels) && Enabled(cfg, run[|run| - 1], a)
    ensures IsRun(cfg, run + [Apply(run[|run| - 1], a)], labels + [a])
  {
  }

  // ----- Exactly one successor -----

  ghost predicate IsSuccessor(s: Store, n: string, source: Uid) {
    n in s.requests && s.requests[n].spec.retryOf == Some(source)
  }

  /** Whenever and wherever successors of one request are seen, they are one and the same request. */
  lemma OneSuccessor(cfg: Config, run: seq<Store>, labels: seq<Act>, i: nat, m: string, j: nat, n: string, source: Uid)
    requires IsRun(cfg, run, labels) && i <= j < |run|
    requires IsSuccessor(run[i], m, source) && IsSuccessor(run[j], n, source)
    ensures m == n == RetryChildName(cfg.lib, source) && run[i].requests[m].uid == run[j].requests[n].uid
  {
    RunStoreInv(cfg, run, labels, i);
    RunStoreInv(cfg, run, labels, j);
    assert HasSource(cfg.lib, run[i], m) && HasSource(cfg.lib, run[j], n);
    RunStoreReach(cfg, run, labels, i, j);
  }

  /** No name is created twice. */
  lemma CreatedOnce(cfg: Config, run: seq<Store>, labels: seq<Act>, i: nat, j: nat)
    requires IsRun(cfg, run, labels) && i < |labels| && j < |labels|
    requires labels[i].Resubmit? && labels[j].Resubmit? && labels[i].name == labels[j].name
    ensures i == j
  {
    assert Enabled(cfg, run[i], labels[i]) && run[i + 1] == Apply(run[i], labels[i]);
    assert Enabled(cfg, run[j], labels[j]) && run[j + 1] == Apply(run[j], labels[j]);
    if i < j {
      RunStoreReach(cfg, run, labels, i + 1, j);
    } else if j < i {
      RunStoreReach(cfg, run, labels, j + 1, i);
    }
  }

  /** At that moment, or earlier, the request of that UID was Expired or Failed. */
  ghost predicate WasLapsed(run: seq<Store>, k: nat, uid: Uid)
    requires k < |run|
  {
    exists i, n :: 0 <= i <= k && n in run[i].requests && run[i].requests[n].uid == uid
                   && (run[i].requests[n].status.phase == Expired || run[i].requests[n].status.phase == Failed)
  }

  lemma {:induction false} LapsedWas(cfg: Config, run: seq<Store>, labels: seq<Act>, k: nat, uid: Uid)
    requires IsRun(cfg, run, labels) && k < |run| && uid in run[k].lapsed
    ensures WasLapsed(run, k, uid)
    decreases k
  {
    hide Moves, Fingerprint.ImageSettled;
    if k > 0 {
      assert Enabled(cfg, run[k - 1], labels[k - 1]) && run[k - 1 + 1] == Apply(run[k - 1], labels[k - 1]);
      if uid in run[k - 1].lapsed {
        LapsedWas(cfg, run, labels, k - 1, uid);
      } else {
        var n := labels[k - 1].name;
        assert n in run[k].requests && run[k].requests[n].uid == uid;
      }
    }
  }

  /** Whatever is resubmitted otherwise than by an administrator had expired or failed. */
  lemma RequestersRetryTheLapsed(cfg: Config, run: seq<Store>, labels: seq<Act>, j: nat)
    requires IsRun(cfg, run, labels) && j < |labels| && labels[j].Resubmit? && !labels[j].admin
    ensures labels[j].spec.retryOf.Some? && WasLapsed(run, j, labels[j].spec.retryOf.value)
  {
    assert Enabled(cfg, run[j], labels[j]);
    var n :| n in run[j].requests && run[j].requests[n].uid in run[j].lapsed
             && IsRetryOf(cfg.lib, run[j].requests[n], labels[j].name, labels[j].spec);
    LapsedWas(cfg, run, labels, j, run[j].requests[n].uid);
  }

  /** A forward link names the successor, from the moment it is written and for good. */
  lemma LinkNamesTheSuccessor(cfg: Config, run: seq<Store>, labels: seq<Act>, i: nat, j: nat, n: string)
    requires IsRun(cfg, run, labels) && i <= j < |run|
    requires n in run[i].requests && run[i].requests[n].status.supersededBy.Some?
    ensures n in run[j].requests && run[j].requests[n].status.supersededBy == run[i].requests[n].status.supersededBy
    ensures
      var child := RetryChildName(cfg.lib, run[i].requests[n].uid);
      && IsSuccessor(run[j], child, run[i].requests[n].uid)
      && run[j].requests[child].uid == run[i].requests[n].status.supersededBy.value
  {
    RunStoreReach(cfg, run, labels, i, j);
    RunStoreInv(cfg, run, labels, j);
    assert LinkHolds(cfg.lib, run[j], run[j].requests[n]);
  }

  // ----- Lineage -----

  /** Requests of the store, each resubmitting the one before. */
  ghost predicate IsChain(s: Store, chain: seq<Request>) {
    && (forall r :: r in chain ==> r.name in s.requests && s.requests[r.name] == r)
    && (forall i :: 0 < i < |chain| ==> chain[i].spec.retryOf == Some(chain[i - 1].uid))
  }

  /** What a chain passes on: everything but who resubmitted what. */
  function Unattributed(spec: Spec): Spec {
    spec.(submittedBy := "", retryOf := None)
  }

  lemma Inherits(cfg: Config, s: Store, chain: seq<Request>, i: nat)
    requires StoreInv(cfg, s) && IsChain(s, chain) && 0 < i < |chain|
    ensures chain[i - 1].uid < chain[i].uid && chain[i - 1].uid in s.over
    ensures Unattributed(chain[i].spec) == Unattributed(chain[i - 1].spec)
  {
  }

  /** Along a chain UIDs climb, so it never closes on itself; requester and execution fields are constant;
      and every request but the last has been over, and is so still unless a playbook's approval revived it. */
  lemma {:induction false} ChainsClimb(cfg: Config, s: Store, chain: seq<Request>, i: nat, j: nat)
    requires StoreInv(cfg, s) && IsChain(s, chain) && i < j < |chain|
    ensures chain[i].uid < chain[j].uid && chain[i] != chain[j]
    ensures Unattributed(chain[j].spec) == Unattributed(chain[i].spec) && chain[j].spec.requester == chain[i].spec.requester
    ensures chain[i].uid in s.over && (chain[i].spec.playbook.None? ==> IsTerminal(chain[i].status.phase))
    decreases j
  {
    Inherits(cfg, s, chain, j);
    if i < j - 1 {
      ChainsClimb(cfg, s, chain, i, j - 1);
    }
    assert OverSince(s, s.requests[chain[i].name]);
    assert chain[j].spec.requester == Unattributed(chain[j].spec).requester;
    assert chain[i].spec.requester == Unattributed(chain[i].spec).requester;
  }

  lemma SameUidSameRequest(s: Store, a: Request, b: Request)
    requires Named(s) && a.name in s.requests && s.requests[a.name] == a && b.name in s.requests && s.requests[b.name] == b
    requires a.uid == b.uid
    ensures a == b
  {
  }

  /** Chains do not fork or join: two that share a request agree on all before it and all after it. */
  lemma {:induction false} ChainsAgreeBefore(cfg: Config, s: Store, c: seq<Request>, i: nat, d: seq<Request>, j: nat, k: nat)
    requires StoreInv(cfg, s) && IsChain(s, c) && IsChain(s, d)
    requires i < |c| && j < |d| && c[i] == d[j] && k <= i && k <= j
    ensures c[i - k] == d[j - k]
    decreases k
  {
    if k > 0 {
      ChainsAgreeBefore(cfg, s, c, i, d, j, k - 1);
      var ci, di := i - k + 1, j - k + 1;
      assert c[ci].spec.retryOf == Some(c[ci - 1].uid) && d[di].spec.retryOf == Some(d[di - 1].uid);
      assert c[ci - 1] in c && d[di - 1] in d;
      SameUidSameRequest(s, c[i - k], d[j - k]);
    }
  }

  lemma {:induction false} ChainsAgreeAfter(cfg: Config, s: Store, c: seq<Request>, i: nat, d: seq<Request>, j: nat, k: nat)
    requires StoreInv(cfg, s) && IsChain(s, c) && IsChain(s, d)
    requires i + k < |c| && j + k < |d| && c[i] == d[j]
    ensures c[i + k] == d[j + k]
    decreases k
  {
    if k > 0 {
      ChainsAgreeAfter(cfg, s, c, i, d, j, k - 1);
      var a, b := c[i + k], d[j + k];
      assert a in c && b in d;
      assert c[i + k].spec.retryOf == Some(c[i + k - 1].uid) && d[j + k].spec.retryOf == Some(d[j + k - 1].uid);
      assert HasSource(cfg.lib, s, a.name) && HasSource(cfg.lib, s, b.name);
      assert a.name == b.name == RetryChildName(cfg.lib, c[i + k - 1].uid);
    }
  }

  // ----- Duplicates -----

  predicate IsActive(p: Phase) {
    p == New || p == Pending || p == Approved
  }

  /** Unfinished is not over, phase by phase. */
  lemma ActiveIsNotOver(p: Phase)
    ensures IsActive(p) <==> !IsTerminal(p)
    ensures IsActive(p) <==> p in {New, Pending, Approved}
    ensures IsTerminal(p) <==> p in {Denied, Executed, Failed, Expired}
  {
  }

  /** A request through the API that would run the same thing for the same requester, and is not over. */
  predicate Duplicates(cfg: Config, a: Request, b: Request) {
    && IsActive(a.status.phase) && IsActive(b.status.phase) && a.spec.requester == b.spec.requester
    && ExecutionFingerprint(cfg, a).Some? && ExecutionFingerprint(cfg, a) == ExecutionFingerprint(cfg, b)
  }

  ghost predicate NoDuplicateOf(cfg: Config, s: Store, candidate: Request) {
    forall n :: n in s.requests && s.requests[n].uid in s.viaApi ==> !Duplicates(cfg, s.requests[n], candidate)
  }

  predicate CreatesViaApi(a: Act) {
    (a.Submit? && a.byApi) || a.Resubmit?
  }

  function Candidate(a: Act): Request
    requires CreatesViaApi(a)
  {
    NewRequest(a.name, 0, a.spec)
  }

  ghost predicate NoneCreated(labels: seq<Act>, i: nat, k: nat) {
    forall q {:trigger labels[q]} :: i <= q < k && q < |labels| ==> !CreatesViaApi(labels[q])
  }

  /** What the API creates at `k` was looked up before, and it has created nothing since. */
  ghost predicate LookedUp(cfg: Config, run: seq<Store>, labels: seq<Act>, k: nat, a: Act)
    requires CreatesViaApi(a) && k < |run|
  {
    exists i :: 0 <= i <= k && NoDuplicateOf(cfg, run[i], Candidate(a)) && NoneCreated(labels, i, k)
  }

  /** Submissions one at a time: the API looks up each before it creates it, with no other in between. */
  ghost predicate IsOrderly(cfg: Config, run: seq<Store>, labels: seq<Act>)
    requires |run| == |labels| + 1
  {
    forall k {:trigger labels[k]} :: 0 <= k < |labels| && CreatesViaApi(labels[k]) ==> LookedUp(cfg, run, labels, k, labels[k])
  }

  lemma OrderlyExtends(cfg: Config, run: seq<Store>, labels: seq<Act>, a: Act, t: Store)
    requires |run| == |labels| + 1 && IsOrderly(cfg, run, labels)
    requires CreatesViaApi(a) ==> LookedUp(cfg, run, labels, |labels|, a)
    ensures IsOrderly(cfg, run + [t], labels + [a])
  {
    forall k | 0 <= k <= |labels| && CreatesViaApi((labels + [a])[k])
      ensures LookedUp(cfg, run + [t], labels + [a], k, (labels + [a])[k])
    {
      var c := (labels + [a])[k];
      assert LookedUp(cfg, run, labels, k, c);
      var i :| 0 <= i <= k && NoDuplicateOf(cfg, run[i], Candidate(c)) && NoneCreated(labels, i, k);
      assert (run + [t])[i] == run[i] && NoneCreated(labels + [a], i, k);
    }
  }

  ghost predicate Doubled(cfg: Config, s: Store, m: string, n: string) {
    && m in s.requests && n in s.requests && m != n
    && s.requests[m].uid in s.viaApi && s.requests[n].uid in s.viaApi
    && Duplicates(cfg, s.requests[m], s.requests[n])
  }

  /** A terminal request becomes unfinished again. */
  predicate Revives(s: Store, a: Act) {
    a.Progress? && a.name in s.requests && IsTerminal(s.requests[a.name].status.phase) && IsActive(a.status.phase)
  }

  lemma OnlyPlaybooksRevive(cfg: Config, s: Store, a: Act)
    requires Enabled(cfg, s, a) && Revives(s, a)
    ensures s.requests[a.name].spec.playbook.Some?
  {
  }

  ghost predicate RevivedBetween(run: seq<Store>, labels: seq<Act>, i: nat, k: nat, n: string)
    requires |run| == |labels| + 1 && k <= |labels|
  {
    exists q :: i <= q < k && Revives(run[q], labels[q]) && labels[q].name == n
  }

  /** A settled image adds nothing to the fingerprint of its spec. */
  lemma SettledFingerprint(cfg: Config, a: Request, b: Request)
    requires Fingerprint.ImageSettled(a) && Fingerprint.ImageSettled(b) && a.spec == b.spec
    ensures ExecutionFingerprint(cfg, a) == ExecutionFingerprint(cfg, b)
  {
    NormalisedResolvesAlike(cfg, a.spec);
  }

  lemma SameFingerprint(cfg: Config, run: seq<Store>, labels: seq<Act>, i: nat, j: nat, n: string)
    requires IsRun(cfg, run, labels) && i <= j < |run| && n in run[i].requests
    ensures n in run[j].requests
    ensures run[j].requests[n].uid == run[i].requests[n].uid && run[j].requests[n].spec == run[i].requests[n].spec
    ensures ExecutionFingerprint(cfg, run[j].requests[n]) == ExecutionFingerprint(cfg, run[i].requests[n])
  {
    hide ExecutionFingerprint;
    RunStoreInv(cfg, run, labels, i);
    RunStoreInv(cfg, run, labels, j);
    RunStoreReach(cfg, run, labels, i, j);
    SettledFingerprint(cfg, run[i].requests[n], run[j].requests[n]);
  }

  lemma {:induction false} UnfinishedAgain(cfg: Config, run: seq<Store>, labels: seq<Act>, i: nat, k: nat, n: string)
    requires IsRun(cfg, run, labels) && i <= k < |run| && n in run[i].requests && n in run[k].requests
    requires !IsActive(run[i].requests[n].status.phase) && IsActive(run[k].requests[n].status.phase)
    ensures RevivedBetween(run, labels, i, k, n)
    decreases k
  {
    RunStoreReach(cfg, run, labels, i, k - 1);
    var s, a := run[k - 1], labels[k - 1];
    assert Enabled(cfg, s, a) && run[k - 1 + 1] == Apply(s, a);
    if IsActive(s.requests[n].status.phase) {
      UnfinishedAgain(cfg, run, labels, i, k - 1, n);
    } else {
      assert Revives(run[k - 1], labels[k - 1]);
    }
  }

  /** Looked up and found to have no duplicate, a request is created with one only if that was revived. */
  lemma CreatedDouble(cfg: Config, run: seq<Store>, labels: seq<Act>, k: nat, n: string)
    requires IsRun(cfg, run, labels) && IsOrderly(cfg, run, labels) && k < |labels| && CreatesViaApi(labels[k])
    requires n in run[k].requests && run[k].requests[n].uid in run[k].viaApi
    requires Duplicates(cfg, run[k].requests[n], Candidate(labels[k]))
    ensures RevivedBetween(run, labels, 0, k, n)
  {
    hide ExecutionFingerprint;
    assert LookedUp(cfg, run, labels, k, labels[k]);
    var i :| 0 <= i <= k && NoDuplicateOf(cfg, run[i], Candidate(labels[k])) && NoneCreated(labels, i, k);
    ApiIdle(cfg, run, labels, i, k, n);
    SameFingerprint(cfg, run, labels, i, k, n);
    UnfinishedAgain(cfg, run, labels, i, k, n);
  }

  /** While the API creates nothing, all it has created was there before. */
  lemma {:induction false} ApiIdle(cfg: Config, run: seq<Store>, labels: seq<Act>, i: nat, k: nat, n: string)
    requires IsRun(cfg, run, labels) && i <= k < |run| && NoneCreated(labels, i, k)
    requires n in run[k].requests && run[k].requests[n].uid in run[k].viaApi
    ensures n in run[i].requests && run[i].requests[n].uid in run[i].viaApi
    decreases k
  {
    if i < k {
      var s, a := run[k - 1], labels[k - 1];
      assert Enabled(cfg, s, a) && run[k - 1 + 1] == Apply(s, a);
      RunStoreInv(cfg, run, labels, k - 1);
      ApiIdle(cfg, run, labels, i, k - 1, n);
    }
  }

  lemma CreatedAsCandidate(cfg: Config, s: Store, a: Act, b: Request)
    requires CreatesViaApi(a) && a.name in Apply(s, a).requests && a.name !in s.requests
    ensures Duplicates(cfg, b, Apply(s, a).requests[a.name]) <==> Duplicates(cfg, b, Candidate(a))
  {
    hide ExecutionFingerprint;
    SettledFingerprint(cfg, Apply(s, a).requests[a.name], Candidate(a));
  }

  lemma DuplicatesBothWays(cfg: Config, a: Request, b: Request)
    ensures Duplicates(cfg, a, b) <==> Duplicates(cfg, b, a)
  {
    hide ExecutionFingerprint;
  }

  /** In every orderly run two unfinished requests made through the API share requester and fingerprint only
      if one of them was over before, and was revived. */
  lemma {:induction false} DuplicateSuppression(cfg: Config, run: seq<Store>, labels: seq<Act>, k: nat, m: string, n: string)
    requires IsRun(cfg, run, labels) && IsOrderly(cfg, run, labels) && k < |run|
    requires Doubled(cfg, run[k], m, n)
    ensures RevivedBetween(run, labels, 0, k, m) || RevivedBetween(run, labels, 0, k, n)
    decreases k
  {
    hide ExecutionFingerprint, Moves, Resubmits, IsOrderly, Duplicates, StoreInv;
    var s, a := run[k - 1], labels[k - 1];
    assert Enabled(cfg, s, a) && run[k - 1 + 1] == Apply(s, a);
    if m !in s.requests {
      DuplicatesBothWays(cfg, run[k].requests[m], run[k].requests[n]);
      JustCreatedDouble(cfg, run, labels, k - 1, n, m);
    } else if n !in s.requests {
      JustCreatedDouble(cfg, run, labels, k - 1, m, n);
    } else {
      LastingDouble(cfg, run, labels, k - 1, m, n);
      if Doubled(cfg, s, m, n) {
        DuplicateSuppression(cfg, run, labels, k - 1, m, n);
      }
    }
  }

  lemma JustCreatedDouble(cfg: Config, run: seq<Store>, labels: seq<Act>, k: nat, m: string, n: string)
    requires IsRun(cfg, run, labels) && IsOrderly(cfg, run, labels) && k < |labels|
    requires Doubled(cfg, run[k + 1], m, n) && n !in run[k].requests
    ensures RevivedBetween(run, labels, 0, k, m)
  {
    hide Duplicates, IsOrderly, Moves, Resubmits, StoreInv;
    var s, a := run[k], labels[k];
    assert Enabled(cfg, s, a) && run[k + 1] == Apply(s, a);
    ApiMade(cfg, run, labels, k, n);
    CreatedAsCandidate(cfg, s, a, run[k + 1].requests[m]);
    ApiStood(cfg, run, labels, k, m);
    CreatedDouble(cfg, run, labels, k, m);
  }

  lemma ApiMade(cfg: Config, run: seq<Store>, labels: seq<Act>, k: nat, n: string)
    requires IsRun(cfg, run, labels) && k < |labels|
    requires n in run[k + 1].requests && n !in run[k].requests && run[k + 1].requests[n].uid in run[k + 1].viaApi
    ensures CreatesViaApi(labels[k]) && labels[k].name == n
  {
    RunStoreInv(cfg, run, labels, k);
    assert Enabled(cfg, run[k], labels[k]) && run[k + 1] == Apply(run[k], labels[k]);
  }

  lemma ApiStood(cfg: Config, run: seq<Store>, labels: seq<Act>, k: nat, m: string)
    requires IsRun(cfg, run, labels) && k < |labels| && CreatesViaApi(labels[k])
    requires m in run[k + 1].requests && m != labels[k].name && run[k + 1].requests[m].uid in run[k + 1].viaApi
    ensures m in run[k].requests && run[k].requests[m] == run[k + 1].requests[m] && run[k].requests[m].uid in run[k].viaApi
  {
    RunStoreInv(cfg, run, labels, k);
    assert Enabled(cfg, run[k], labels[k]) && run[k + 1] == Apply(run[k], labels[k]);
  }

  lemma ApiMadeBefore(cfg: Config, run: seq<Store>, labels: seq<Act>, k: nat, n: string)
    requires IsRun(cfg, run, labels) && k < |labels| && n in run[k].requests && n in run[k + 1].requests
    requires run[k + 1].requests[n].uid in run[k + 1].viaApi
    ensures |run| == |labels| + 1 && run[k].requests[n].uid in run[k].viaApi
  {
    hide Linked, Rooted, Ended, Settled, Moves, Resubmits;
    RunStoreInv(cfg, run, labels, k);
    assert Enabled(cfg, run[k], labels[k]) && run[k + 1] == Apply(run[k], labels[k]);
  }

  lemma LastingDouble(cfg: Config, run: seq<Store>, labels: seq<Act>, k: nat, m: string, n: string)
    requires IsRun(cfg, run, labels) && k < |labels|
    requires Doubled(cfg, run[k + 1], m, n) && m in run[k].requests && n in run[k].requests
    ensures Doubled(cfg, run[k], m, n) || RevivedBetween(run, labels, 0, k + 1, m) || RevivedBetween(run, labels, 0, k + 1, n)
  {
    hide ExecutionFingerprint, StoreInv, IsRun;
    ApiMadeBefore(cfg, run, labels, k, m);
    ApiMadeBefore(cfg, run, labels, k, n);
    SameFingerprint(cfg, run, labels, k, k + 1, m);
    SameFingerprint(cfg, run, labels, k, k + 1, n);
    if !IsActive(run[k].requests[m].status.phase) {
      UnfinishedAgain(cfg, run, labels, k, k + 1, m);
    } else if !IsActive(run[k].requests[n].status.phase) {
      UnfinishedAgain(cfg, run, labels, k, k + 1, n);
    }
  }

  /** Without a playbook there is no revival, and no duplicate. */
  lemma NoPlaybookNoDuplicate(cfg: Config, run: seq<Store>, labels: seq<Act>, k: nat, m: string, n: string)
    requires IsRun(cfg, run, labels) && IsOrderly(cfg, run, labels) && k < |run|
    requires m in run[k].requests && run[k].requests[m].spec.playbook.None?
    ensures !Doubled(cfg, run[k], m, n)
  {
    if Doubled(cfg, run[k], m, n) {
      SameFingerprintSamePlaybook(cfg, run[k].requests[m], run[k].requests[n]);
      DuplicateSuppression(cfg, run, labels, k, m, n);
      var q :| 0 <= q < k && Revives(run[q], labels[q]) && (labels[q].name == m || labels[q].name == n);
      assert Enabled(cfg, run[q], labels[q]) && run[q + 1] == Apply(run[q], labels[q]);
      OnlyPlaybooksRevive(cfg, run[q], labels[q]);
      RunStoreReach(cfg, run, labels, q, k);
    }
  }

  lemma SameFingerprintSamePlaybook(cfg: Config, a: Request, b: Request)
    requires ExecutionFingerprint(cfg, a).Some? && ExecutionFingerprint(cfg, a) == ExecutionFingerprint(cfg, b)
    ensures a.spec.playbook == b.spec.playbook
  {
    assert ExecutionFingerprint(cfg, a).value.spec == Normalised(a.spec, cfg.Namespace());
    assert ExecutionFingerprint(cfg, b).value.spec == Normalised(b.spec, cfg.Namespace());
    hide Profiles.ResolveProfile, ExecutionFingerprint;
  }

  /** Progress doubles exactly when it revives what another unfinished request repeats. */
  lemma ProgressDoublesExactlyWhen(cfg: Config, s: Store, a: Act, n: string)
    requires StoreInv(cfg, s) && Enabled(cfg, s, a) && a.Progress? && !Doubled(cfg, s, a.name, n)
    requires n in s.requests && n != a.name && s.requests[a.name].uid in s.viaApi && s.requests[n].uid in s.viaApi
    ensures Doubled(cfg, Apply(s, a), a.name, n)
            <==> Revives(s, a) && Duplicates(cfg, s.requests[a.name].(status := EMPTY_STATUS), s.requests[n])
  {
    hide ExecutionFingerprint;
    var r := s.requests[a.name];
    SettledFingerprint(cfg, r.(status := EMPTY_STATUS), r);
    SettledFingerprint(cfg, r.(status := EMPTY_STATUS), Apply(s, a).requests[a.name]);
  }

  /** And it happens: a request is denied, submitted anew, and the denied one approved by a handler that
      had seen it new. Any run of one request that leaves a terminal phase makes such a run of two. */
  lemma RevivalDoubles(cfg: Config, world: seq<World>, steps: seq<Action>, i: nat, j: nat, a: string, b: string)
    returns (run: seq<Store>, labels: seq<Act>)
    requires Lifecycle.IsRun(ServiceOf(cfg), world, steps) && i <= j < |world|
    requires IsTerminal(world[i].last.status.phase) && IsActive(world[j].last.status.phase)
    requires world[0].spec.retryOf.None? && a != b
    requires ExecutionFingerprint(cfg, world[0].last).Some?
    ensures IsRun(cfg, run, labels) && IsOrderly(cfg, run, labels) && Doubled(cfg, run[|run| - 1], a, b)
  {
    hide ExecutionFingerprint, Moves, Duplicates;
    MovesAnew(cfg, world, steps, i, j, a, 0);
    run, labels := TwiceSubmitted(cfg, world[0].spec, Unlinked(world[i].last.status), Unlinked(world[j].last.status), a, b);
    NewRequestsDouble(cfg, world, steps, j, run[4].requests[a], run[4].requests[b]);
  }

  lemma TwiceSubmitted(cfg: Config, spec: Spec, ended: Status, revived: Status, a: string, b: string)
    returns (run: seq<Store>, labels: seq<Act>)
    requires IsTerminal(ended.phase) && spec.retryOf.None? && a != b
    requires Moves(NewRequest(a, 0, spec), ended) && Moves(NewRequest(a, 0, spec).(version := 1, status := ended), revived)
    ensures IsRun(cfg, run, labels) && IsOrderly(cfg, run, labels) && |labels| == 4
    ensures
      var s := run[4];
      && a in s.requests && s.requests[a].spec == spec && s.requests[a].status == revived && s.requests[a].uid in s.viaApi
      && b in s.requests && s.requests[b].spec == spec && s.requests[b].status == EMPTY_STATUS && s.requests[b].uid in s.viaApi
  {
    hide ExecutionFingerprint, Moves, Duplicates, IsRun, IsOrderly;
    StartsOrderly(cfg);
    run, labels := Then(cfg, [EMPTY_STORE], [], Submit(a, spec, true));
    run, labels := Then(cfg, run, labels, Progress(a, ended));
    DuplicatesAreActive(cfg, run[2].requests[a], Candidate(Submit(b, spec, true)));
    run, labels := Then(cfg, run, labels, Submit(b, spec, true));
    run, labels := Then(cfg, run, labels, Progress(a, revived));
  }

  lemma StartsOrderly(cfg: Config)
    ensures IsRun(cfg, [EMPTY_STORE], []) && IsOrderly(cfg, [EMPTY_STORE], [])
  {
  }

  lemma DuplicatesAreActive(cfg: Config, a: Request, b: Request)
    ensures Duplicates(cfg, a, b) ==> IsActive(a.status.phase)
  {
  }

  lemma NewRequestsDouble(cfg: Config, world: seq<World>, steps: seq<Action>, j: nat, a: Request, b: Request)
    requires Lifecycle.IsRun(ServiceOf(cfg), world, steps) && j < |world| && IsActive(world[j].last.status.phase)
    requires ExecutionFingerprint(cfg, world[0].last).Some?
    requires a.spec == b.spec == world[0].spec && a.status == Unlinked(world[j].last.status) && b.status == EMPTY_STATUS
    ensures Duplicates(cfg, a, b)
  {
    hide ExecutionFingerprint, Moves;
    LifecycleMoves(cfg, world, steps, 0, j);
    SettledAlike(world[0].last, Unlinked(world[j].last.status), a);
    SettledFingerprint(cfg, world[0].last, a);
    SettledFingerprint(cfg, world[0].last, b);
  }

  lemma SettledAlike(r: Request, status: Status, a: Request)
    requires r.spec == a.spec && Unlinked(a.status) == Unlinked(status)
    ensures Fingerprint.ImageSettled(r.(status := status)) <==> Fingerprint.ImageSettled(a)
  {
  }

  function Unlinked(s: Status): Status {
    s.(supersededBy := None)
  }

  /** A new request of the same spec may take the same course. */
  lemma MovesAnew(cfg: Config, world: seq<World>, steps: seq<Action>, i: nat, j: nat, name: string, uid: Uid)
    requires Lifecycle.IsRun(ServiceOf(cfg), world, steps) && i <= j < |world|
    ensures
      var r := NewRequest(name, uid, world[0].spec);
      Moves(r, Unlinked(world[i].last.status))
      && Moves(r.(version := r.version + 1, status := Unlinked(world[i].last.status)), Unlinked(world[j].last.status))
  {
    hide StatusReach, Fingerprint.ImageSettled;
    LifecycleMoves(cfg, world, steps, 0, i);
    LifecycleMoves(cfg, world, steps, i, j);
    var r := NewRequest(name, uid, world[0].spec);
    Runs.RunReach(ServiceOf(cfg), world, steps, 0, i);
    MovesAlike(world[0].last, r, world[i].last.status);
    MovesAlike(world[i].last, r.(status := world[i].last.status), world[j].last.status);
    var ended := r.(version := r.version + 1, status := Unlinked(world[i].last.status));
    MovesAlike(r.(status := world[i].last.status), ended, world[j].last.status);
  }

  lemma MovesAlike(r: Request, q: Request, status: Status)
    requires r.spec == q.spec && Unlinked(r.status) == Unlinked(q.status)
    ensures Moves(r, status.(supersededBy := r.status.supersededBy)) ==> Moves(q, status.(supersededBy := q.status.supersededBy))
  {
  }

  lemma Then(cfg: Config, run: seq<Store>, labels: seq<Act>, a: Act) returns (run': seq<Store>, labels': seq<Act>)
    requires IsRun(cfg, run, labels) && IsOrderly(cfg, run, labels) && Enabled(cfg, run[|run| - 1], a)
    requires CreatesViaApi(a) ==> NoDuplicateOf(cfg, run[|run| - 1], Candidate(a))
    ensures IsRun(cfg, run', labels') && IsOrderly(cfg, run', labels')
    ensures run' == run + [Apply(run[|run| - 1], a)] && labels' == labels + [a]
  {
    ExtendRun(cfg, run, labels, a);
    assert CreatesViaApi(a) ==> NoneCreated(labels, |labels|, |labels|);
    OrderlyExtends(cfg, run, labels, a, Apply(run[|run| - 1], a));
    run', labels' := run + [Apply(run[|run| - 1], a)], labels + [a];
  }

  // ----- Adopting a successor -----

  function Unresolved(r: Request): Request {
    r.(status := r.status.(resolution := r.status.resolution.(image := "")))
  }

  /** validateRetrySuccessor */
  predicate ValidSuccessor(cfg: Config, source: Request, successor: Request) {
    && successor.spec.retryOf == Some(source.uid) && successor.spec.requester == source.spec.requester
    && ExecutionFingerprint(cfg, Unresolved(source)).Some?
    && ExecutionFingerprint(cfg, Unresolved(successor)) == ExecutionFingerprint(cfg, Unresolved(source))
  }

  /** What the check lets through is the one resubmission of the source, at the deterministic name; and
      it lets that through whatever has become of either since, unless the profile no longer resolves. */
  lemma ValidExactlyWhenResubmitted(cfg: Config, s: Store, p: string, n: string)
    requires StoreInv(cfg, s) && p in s.requests && n in s.requests
    ensures
      var source := s.requests[p];
      ValidSuccessor(cfg, source, s.requests[n])
      <==> IsRetryOf(cfg.lib, source, n, s.requests[n].spec) && ExecutionFingerprint(cfg, Unresolved(source)).Some?
  {
    hide ExecutionFingerprint;
    var source, successor := s.requests[p], s.requests[n];
    if successor.spec.retryOf == Some(source.uid) {
      assert HasSource(cfg.lib, s, n);
      assert IsRetryOf(cfg.lib, source, n, successor.spec);
      SameButAttribution(cfg, source, successor);
    }
  }

  /** Whatever occupies the name, forged or not: what passes the check asks for the same thing, for the same
      requester, as a resubmission of just this source. */
  lemma ValidIsTheSame(cfg: Config, source: Request, successor: Request)
    requires ValidSuccessor(cfg, source, successor)
    ensures successor.spec.retryOf == Some(source.uid) && successor.spec.requester == source.spec.requester
    ensures successor.spec.command == source.spec.command && successor.spec.stdin == source.spec.stdin
    ensures successor.spec.playbook == source.spec.playbook && successor.spec.env == source.spec.env
    ensures successor.spec.envFrom == source.spec.envFrom && successor.spec.volumes == source.spec.volumes
    ensures successor.spec.mounts == source.spec.mounts && successor.spec.initContainers == source.spec.initContainers
    ensures Normalised(successor.spec, cfg.Namespace()) == Normalised(source.spec, cfg.Namespace())
  {
    assert ExecutionFingerprint(cfg, Unresolved(source)).value.spec == Normalised(source.spec, cfg.Namespace());
    assert ExecutionFingerprint(cfg, Unresolved(successor)).value.spec == Normalised(successor.spec, cfg.Namespace());
    SameNormalisedFields(source.spec, successor.spec, cfg.Namespace());
  }

  lemma SameNormalisedFields(a: Spec, b: Spec, namespace: string)
    requires Normalised(a, namespace) == Normalised(b, namespace)
    ensures b.command == a.command && b.stdin == a.stdin && b.playbook == a.playbook
    ensures b.env == a.env && b.envFrom == a.envFrom && b.volumes == a.volumes && b.mounts == a.mounts
    ensures b.initContainers == a.initContainers && b.imagePullSecrets == a.imagePullSecrets
  {
    NormalisedKeeps(a, namespace);
    NormalisedKeeps(b, namespace);
    hide Normalised;
  }

  lemma NormalisedKeeps(a: Spec, namespace: string)
    ensures
      var n := Normalised(a, namespace);
      && n.command == a.command && n.stdin == a.stdin && n.playbook == a.playbook && n.env == a.env
      && n.envFrom == a.envFrom && n.volumes == a.volumes && n.mounts == a.mounts
      && n.initContainers == a.initContainers && n.imagePullSecrets == a.imagePullSecrets
  {
  }

  lemma SameButAttribution(cfg: Config, source: Request, successor: Request)
    requires Resubmits(source, successor.spec)
    ensures ExecutionFingerprint(cfg, Unresolved(successor)) == ExecutionFingerprint(cfg, Unresolved(source))
  {
    assert Normalised(successor.spec, cfg.Namespace()) == Normalised(source.spec, cfg.Namespace());
  }
}
