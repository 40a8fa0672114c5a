# The SudoRequest lifecycle in Dafny

A Dafny 4.11 model of sudo-service, a Kubernetes controller through which unprivileged agents ask for a
command to be run with elevated rights: a request is validated, shown to a human (or matched against an
allowlist), approved or denied, run once as an executor Job, and its exit code and output are stored. The
controller is a state machine over an apiserver with optimistic concurrency, a lagging cache, calls that fail
before or after they take effect, and a process that may die between any two of them. The project states what
that machine promises over whole runs and proves it of the code's own steps.

`dafny verify dfyconfig.toml` checks everything.

## How it fits together

* `SudoTypes`, `Profiles`, `AutoApprove`, `PodBuild`, `Validation`, `Playbooks`, `Fingerprint`, `ShellWords`: the
  values and the pure parts of the service, each loop of the source as a method proved against a specification.
* `Lifecycle` is one request as a labelled transition system: the world of objects behind the apiserver, every
  atomic action any party may take on it (reconciler, approver, denier, garbage collector, users, kubelet, Job
  controller, tenants of a target namespace), and the state each action needs. `Invariants` and `Stability` say
  what every step keeps and what none undoes; `Runs`, `Recreation`, `PlaybookRuns`, `ReviewedRuns` and `OutputRuns`
  say what follows for every run.
* `Api` is the apiserver as a class: others act before every call, each call may go through, be lost on the way
  there or on the way back, and the process may die. Its `Valid()` says that the history so far is a run of
  `Lifecycle`, so a method that keeps `Valid()` has taken only lawful steps, and every theorem about runs holds
  of what it did. `mode` chooses the environment: Hostile (anything), Silent (nobody else moves, no call fails),
  Faultless (others move before and between all calls, but none of the controller's fails),
  SidecarHeld (a sidecar keeps the Job open after its executor exited; `TeardownRun` shows that runs get there).
  `Valid()` also says that the cache shows no request as new once its Job has been named: the controller names it
  from an approved copy, one worker reconciles a request at a time, and its cache only moves forward.
* `Reconciler`, `Executor` and `Gc` are the controller's methods, step for step, on that apiserver. `Writes`,
  `Reviewing`, `Progress` and `Outcomes` say when each of their writes may land whatever others do first, and what
  it amounts to. Every method promises a lawful history in every environment (the few that SidecarHeld excludes say
  so); the clauses that begin with `Silent` say in addition exactly where an undisturbed call takes the request, and
  those that begin with `GoesThrough` what is certain while others move during the call.
* `Lineage` and `Retry` are the same for the collection of all requests: submissions, resubmissions, links.
* `Broadcast` and `EventStream` are the event hub and the subscribe-then-read stream built on it. A publication takes
  its snapshot of the listeners and then sends to them one by one; in `EventStream` anybody moves in between.

Main results: no replay and provenance of results (`Runs.NoReplay`, `Runs.ResultWasListed`,
`Runs.RecordedWasCreated`), no orphans for any request, with or without a playbook (`Runs.NoOrphan`), two-phase
teardown (`Api.ApiServer.TeardownOutcome`, kept by every reconciler method), the phase machine (`Runs.PhaseMachine`,
and `Runs.OffTheMachineExactlyWhen` for all requests), `updateStatus` as one atomic read-modify-write
(`Reconciler.SudoRequestReconciler.UpdateStatus`), which cannot run out of retries while its calls go through,
progress while others move during every call (`HandleApproved`, `RunRounds`), when an executor Job can be created
again and that the command may then have run before (`Recreation`), one durable link (`Runs.OneDurableLink`), playbook
pinning and the exact condition under which an approval that should delete nothing is followed by a deletion
(`PlaybookRuns`), what was reviewed is what runs (`ReviewedRuns`), fingerprint soundness with its exact condition
(`Fingerprint`), validated specs build well-formed pods with the exact condition (`Validation.AcceptedPodWellFormed`),
exactly one successor and disjoint acyclic lineage (`Lineage`, `Retry`), duplicate suppression up to revived playbook
requests (`Lineage.DuplicateSuppression`), no lost terminal event (`EventStream`), the printer round trip
(`ShellWords`).

## Where the code gives less than its comments

* The playbook mutator sets Approved without looking at the phase it lands on (reconciler.go:203-210), and handleNew
  works from a cached copy, which another party's write, or the controller's own, may have overtaken. What the write
  can land on decides what fails:
  * on a request that is over: it is approved again. `Runs.OffTheMachineExactlyWhen` says that this and nothing else
    leaves the phase machine, `PlaybookRuns.DeniedPlaybookApproved` is a run. Two identical requests may then be
    unfinished at once: `Lineage.DuplicateSuppression` says only then, `Lineage.RevivalDoubles` gives the run.
  * on a request that a human approved, or whose target was recorded as absent: the Job it pins is deleted all the same
    (`PlaybookRuns.HumanApprovedThenDeleted`, and `PlaybookRuns.AbsentThenDeleted`, which needs no other writer).
    `PlaybookRuns.DeletableExactlyWhenPinnedLate` says that a deletion takes exactly such a late pinning approval,
    `PlaybookRuns.DeletableExactlyWhenFit` that nothing but the playbook's own rules stands in its way, and
    `PlaybookRuns.AbsentAndHumanDeleteNothing` that there is none if every playbook approval lands on a new request.
  * on a request whose Job has been named: the Job would be left running behind a terminal request
    (`PlaybookRuns.ApprovalOrphansExactlyWhen`). This one cannot happen: see the cache clause of `ApiServer.Valid()`.
  * on its conflict path the same write drops the resolved image (`Progress.PlaybookApprovalAbsorbsExactlyWhen`).
* The approved command may run twice. Until the executor Job's UID is stored, the Job may go, by the controller's own
  rollback (executor.go:263-272, reconciler.go:676-683) or by anyone's deletion, although its executor has already
  exited, and the next reconcile creates another: `Recreation.RanTwice` is a run, for each way the Job may go and all
  exit codes. `Recreation.CreatableExactlyWhenOpen` says when a Job can still be created: exactly while the request is
  approved with no UID on record (across namespaces, while its object is there). What holds without exception is that
  two Jobs of one request never coexist (`Recreation.NeverTwoJobs`) and that after the UID is stored none is created
  (`Runs.NoReplay`).
* An output Secret found in place is taken for this capture's own (executor.go:884). It may hold what an earlier capture
  read, and the stored digest is then of another text: `OutputRuns.KeptAnotherText` is a run, and
  `OutputRuns.OutputMatchesExactlyWhen` says that the two agree exactly when no stored field tells the two reads apart.
* Validation accepts repeated requester volume names (`Validation.DuplicateVolumeNamesAccepted`).
* A stream whose read under the subscription fails falls back on the phase read before it subscribed (api.go:387-389).
  `EventStream.RequestEvents.ServeEvents` says exactly when it then misses the end: when that phase was not the end, and
  the end was stored and its publication begun before the stream subscribed. In every other case the end is delivered.
* The gate looks at the raw spec, the fingerprint at the normalised one
  (`Fingerprint.SpelledOutNamespaceRunsDifferently`).

## What is assumed

* Specs are immutable, requests in `Lineage` are not deleted, the catalog, the allowlists and the configuration are
  fixed, and all parties read one clock.
* Names drawn at random and UIDs given by the apiserver are fresh. Background deletion removes the Job object at
  once. In the controller namespace nobody but the controller creates executor Jobs or Secrets; in a target namespace
  tenants may plant both, and may present pods.
* SHA-256 never yields the empty string; injectivity is a hypothesis of the one lemma that needs it, and the
  canonical JSON under the fingerprint is taken as injective. Shell parsing, `shlex`, the command preflight, DNS
  name checks and the decoding of one raw pod field are library functions of unknown content.
* Only the controller may set the lineage field, as the admission policy
  (charts/sudo-service/templates/validatingadmissionpolicy-requester.yaml) demands.
* `SidecarHeld` supposes that the pod stays readable while the Job exists, that nobody else deletes the Job or takes
  its name, and that nobody deletes the request: a deletion stops the Job and gives its result up
  (reconciler.go:92-114). What a deleted request leaves behind is `Runs.NoOrphan`'s second half.
* A controller that starts anew lists requests afresh: what its cache shows first may be an earlier state than the
  last process saw, but does not show as new a request whose Job has been named.
* `EventStream` supposes truthful writes: a writer whose status change is stored publishes it once.

## Model

| member | source | states |
|---|---|---|
| ShellWords.ShellJoin | review.go:200-207 | The array-filling printer yields a line that a POSIX shell splits back into exactly the given argv |
| ShellWords.ScanInQuotes | review.go:209-220 | A quoted word, embedded quotes and empty word included, reads back as the one word it was made from |
| ShellWords.SplitJoinRoundTrip | review.go:200-220 | Splitting the printed line by sections 2.2.1, 2.2.2 and 2.3 of the Shell Command Language in IEEE Std 1003.1-2017 returns argv, for every argv |
| ShellWords.JoinIsInjective | review.go:200-220 | No two argument vectors print alike |
| Profiles.ResolutionKeepsImage | reconciler.go:1020-1031 | Recording the resolved profile never changes the image the request runs |
| AutoApprove.GetAutoApproveParsedCommand | auto_approve.go:44-92 | The nested loops accept exactly when some exact or prefix rule admits the parsed argv for its image, and return that argv |
| PodBuild.StampScratch | executor.go:450-475 | The in-order steps amount to: /tmp and HOME scratch where the requester manages neither, and HOME pointed at the volume mounted exactly there |
| PodBuild.StampIsIdempotent | executor.go:450-475 | Stamping a container twice is stamping it once |
| PodBuild.StampInits | executor.go:329-351 | Init containers are hardened, then stamped, in order, and the scratch flags say whether any of them uses a scratch volume |
| PodBuild.BuildPod | executor.go:282-359 | The step-by-step splice renders exactly the specified pod, whose rights, command and volumes the next rows say in the fields of the request |
| PodBuild.BuildExecutorJob | executor.go:282-406 | The cluster-admin account exactly in the controller namespace and unless declined, else the default account without a token; user 1000, no restart, no retry, every container hardened; one executor with the settled image on the gate's argv or the shell; kept between 120 and 3600 seconds as asked; owned exactly in the controller namespace; the requester's volumes, the stdin Secret read-only, and nothing more but scratch |
| PodBuild.JobIsConfined | executor.go:60-88 | Account, token, user, restart policy, backoff, hardening, retention and owner of every rendered Job, field by field |
| PodBuild.JobRunsCommand | executor.go:408-421 | Executor and init containers of every rendered pod: image, argv, environment and mounts |
| PodBuild.JobSeesVolumes | executor.go:302-358 | Volumes of every rendered pod, in order, and the stdin mount |
| PodBuild.ScratchExactlyWhen | executor.go:450-507 | Which scratch mounts and which HOME are added, in mount paths and variables |
| PodBuild.FieldsDecode | decode.go:25-67 | Each raw field is decoded item by item into its own field; one malformed item spoils the whole |
| PodBuild.ExtrasAreNotPlain | playbooks.go:146-151 | A request counts as having extras exactly when any field but command, image and profile that changes what runs is set |
| AutoApprove.ParsedExactlyWhen | auto_approve.go:44-92 | The allowlist yields an argv exactly when it is the parsed command and some rule for its image lists it or a start of it |
| Profiles.ResolvesExactlyWhen | profiles.go:86-110 | A raw image, a catalog profile or the default resolves; both at once, or an unknown profile, does not |
| Profiles.PreflightDecides | profiles.go:112-138 | A resolved spec passes exactly if the preflight of its profile does, whose warnings are recorded with the profile and the image |
| Validation.ValidateMounts | validation.go:182-205 | No error if and only if every mount names a known volume, hides nothing and has a path of its own |
| Validation.ValidateInits | validation.go:122-163 | No error if and only if every init container is within the allowlist |
| Validation.ValidateSpecExtras | validation.go:58-226 | No error if and only if the spec is within the allowlist, said field by field; in particular every volume has a name and one of the four reviewable sources and is neither hostPath nor projected, and one that is not makes it err |
| Validation.PlaybookOkExactlyWhen | playbooks.go:129-144 | A playbook request is accepted exactly if it is the canonical rendering of one cleanup and sets nothing else that runs |
| Validation.CleanupExactlyWhen | playbooks.go:91-116 | Exactly the parameters namespace and name, each a DNS name |
| Playbooks.TerminalExactlyWhen | playbooks.go:153-160 | A target is terminal exactly with a true Complete or Failed condition |
| Validation.ScratchStaysClear | executor.go:450-507 | Requester mounts and env stay a prefix, in order, and no requester mount lies at or below an added scratch mount |
| Validation.StampKeepsPathsDistinct | executor.go:450-475 | Stamping keeps mount paths pairwise distinct |
| Validation.PodVolumeNamesDistinct | executor.go:310-359 | The controller's own volume names never clash: the pod's volume names are distinct exactly when the requester's are |
| Validation.AcceptedPodWellFormed | validation.go:58-205 | A pod built from an accepted spec is well-formed if and only if the requester's volume names are distinct |
| Validation.DuplicateVolumeNamesAccepted | validation.go:83-93 | Two requester volumes of one name do pass validation |
| Fingerprint.ResolutionKeepsFingerprint | retry.go:29-79 | handleNew's resolution leaves a request's fingerprint unchanged |
| Fingerprint.AttributionIsInvisible | retry.go:29-79 | Requester, reason, submitter, lineage and every status field but the resolved image never reach the digest |
| Fingerprint.DefaultsAreEffective | retry.go:31-47 | Writing the defaults out changes none of the choices the Job is built from |
| Fingerprint.FingerprintFixesImage | retry.go:48-61 | The fingerprint's image is the image the request runs |
| Fingerprint.SameArgvExactlyWhen | executor.go:413-421 | Requests with one command and image run one argv exactly when no rule matches, or both are treated alike by the gate, or the matched argv is the shell form |
| Fingerprint.FingerprintSoundness | retry.go:29-79 | Two validated requests with one fingerprint and the same minted names get the same Job, ownership aside, exactly under that condition |
| Fingerprint.SpelledOutNamespaceRunsDifferently | executor.go:96-108 | The condition is needed: spelling out the controller namespace keeps the fingerprint and changes the argv |
| Playbooks.MatchesTerminalJobRule | playbooks.go:171-186 | The first controller owner decides; a Job with owners but no controller matches nothing; an ownerless Job matches by prefix |
| Playbooks.MatchingRules | playbooks.go:196-204 | Exactly the rules for this requester and namespace |
| Playbooks.Prepare | playbooks.go:206-241 | The rule loops approve exactly a terminal, allowlisted Job under its UID, or the absence of a Job of an allowlisted family |
| Invariants.StepKeepsInv | reconciler.go:567-791 | Every step of every party keeps the lifecycle's invariants: Jobs, results, links, gate decisions, playbook pins |
| Stability.StepReach | reconciler.go:567-711 | No step un-records a name, a Job UID, a decision or a forward link |
| Stability.OutsideStepRely | reconciler.go:477-494 | No step of another party between two API calls of the reconciler touches the execution state, the result, our Jobs' identity, or a live token |
| Runs.PhaseMachine | reconciler.go:133-371 | Every stored phase change of a playbook-free request is an edge of the machine, terminal phases absorb, and the token hash is non-empty exactly while Pending |
| Runs.OffTheMachineExactlyWhen | reconciler.go:203-212 | Of any request: a stored phase change is off the machine exactly when a playbook approval lands on a request that is over |
| Runs.AtMostThreePhaseChanges | broadcaster.go:61-106 | Such a request changes phase at most three times in any run |
| Runs.NoReplay | reconciler.go:591-711 | Once stored, the executor Job UID never changes, no later step creates an executor Job, and every stored result and output Secret comes from that Job |
| Recreation.NeverTwoJobs | reconciler.go:644-684 | When a Job is created none of ours exists, so two Jobs of one request never coexist |
| Recreation.CreatableExactlyWhenOpen | reconciler.go:604-684 | After any run whose last state has a Job name on record, a Job can still be created if and only if the request is approved with no UID on record and, across namespaces, not gone |
| Recreation.CreatedAgain | reconciler.go:676-683 | Between two creations the request stayed approved with nothing on record, and at the second the first Job was gone; both have one name and different UIDs |
| Recreation.RanTwice | reconciler.go:676-683 | A run in which a Job's executor exits, the Job goes before its UID is stored, by rollback or otherwise, and a second Job's executor exits too |
| Recreation.NamedStaysOver | reconciler.go:604-620 | A request whose Job is named stays in its terminal phase in every run, with or without a playbook |
| Recreation.ServiceRenders | executor.go:243-248 | Whatever passed validation renders, so the above holds of the service as configured |
| Runs.ResultWasListed | executor.go:718-733 | Behind every stored exit code stands a container of the recorded Job's pod, listed as terminated with that code |
| OutputRuns.OutputMatchesExactlyWhen | executor.go:851-896 | A stored digest and size are those of a text read of the recorded Job, retained up to 1044480 bytes; an output Secret holds such a text too, and the stored fields describe it exactly when none of them tells the two apart |
| OutputRuns.KeptAnotherText | executor.go:884-896 | A run in which the Secret said to be available holds another text than the one digested |
| Runs.RecordedWasCreated | executor.go:208-275 | The recorded UID is that of a Job this controller created earlier in the run |
| Runs.NoOrphan | reconciler.go:548-565 | Of every request, with or without a playbook: nothing of ours is left unfinished once it is terminal, and across namespaces nothing is left at all once it is released |
| Runs.OneDurableLink | reconciler.go:249-291 | All notifications ever sent carry one token, stored with Pending before the first send, whose Secret is there while the request is Pending and younger than its TTL |
| Runs.DeliveredForGood | reconciler.go:463-475 | Once recorded as delivered, the notification stays so in every run |
| Runs.SupersededByIsWriteOnce | retry.go:251-270 | The forward link is write-once in every run of a request |
| PlaybookRuns.DeletionsArePinned | playbooks.go:268-286 | Every deletion names the UID stored by an earlier automatic approval of a Job that had been seen terminal and allowlisted |
| PlaybookRuns.LaterApprovalIsLate | reconciler.go:199-219 | In every run, an approval that follows another is a playbook's and lands on a request already decided |
| PlaybookRuns.OnlyApproval | reconciler.go:199-219 | If playbook approvals land on new requests only, a run with one has no other approval, automatic or human |
| PlaybookRuns.DeletionNeedsLatePin | playbooks.go:251-286 | In every run, a deletion after a human approval or one of an absent target needs a later approval that pins its UID on a request already decided |
| PlaybookRuns.DeletableExactlyWhenPinnedLate | reconciler.go:203-212 | After such an approval a deletion can follow if and only if such a pinning approval can |
| PlaybookRuns.DeletableExactlyWhenFit | playbooks.go:188-241 | And one can if and only if the request names a playbook for which some Job of that UID would do |
| PlaybookRuns.HumanApprovedThenDeleted | reconciler.go:203-212 | A run in which a human's approval is followed by a deletion |
| PlaybookRuns.AbsentThenDeleted | reconciler.go:203-212 | A run in which a target recorded as absent is deleted, with no writer but the controller |
| PlaybookRuns.AbsentAndHumanDeleteNothing | playbooks.go:251-262 | If playbook approvals land on new requests only, a target recorded as absent and a human approval lead to no deletion in the whole run |
| PlaybookRuns.PlaybookApprovalLawfulExactlyWhen | reconciler.go:203-212 | The playbook mutator keeps the phase machine's law exactly when it lands on a new or an approved request |
| PlaybookRuns.DeniedPlaybookApproved | reconciler.go:203-212 | A run in which it lands on a denied request and approves it |
| PlaybookRuns.ApprovalOrphansExactlyWhen | playbooks.go:243-286 | Landing on a request whose Job is named, the write would leave a Job of ours running behind a terminal request exactly when one was running |
| Api.ApiServer.TeardownOutcome | reconciler.go:744-790 | Of any request a Job runs for, with a sidecar holding the Job open after the executor's exit c: the Job goes only once c is stored, and the only terminal outcome stores c, Executed iff c is zero |
| TeardownRun.HeldRun | reconciler.go:713-722 | The teardown's environment does occur: for every exit code a run leads from a new request to a Job held open after its executor exited with it |
| Pods.JobPodIsTheJobs | executor.go:607-621 | A pod is found exactly when the Job has one, and only ever one the Job controls |
| Pods.ReportIsShown | executor.go:718-733 | The reported exit is one the pod shows; the executor's whenever there is one |
| Pods.ExecutorWaitStart | executor.go:694-712 | The loop finds when the executor's own start window opened |
| Pods.LatestFinishIsLatest | executor.go:694-712 | That moment is the latest finish among the init containers |
| Pods.OverdueExactlyWhen | executor.go:634-712 | A start is overdue exactly when no container "executor" of the pod runs or has exited and the window, said as a moment in the init containers' states, opened more than 600 seconds ago |
| Pods.RunningIsNotOverdue | executor.go:665-672 | A running executor has not exited and is never overdue, however old its Job |
| Pods.ReportedExactlyWhen | executor.go:718-733 | Something is reported exactly when the executor has exited or an init container has failed; what is not the executor's exit is a failure |
| Pods.FirstFailureIsReported | executor.go:725-731 | Of several failed init containers the first is reported |
| Writes.ApprovalLasts | reconciler.go:570-577 | What an uncached read of an approved request showed still holds at the next write, but for the forward link, the deletion mark and the version |
| Writes.MayFinish | reconciler.go:810-839 | A genuine result may be stored with its phase whatever others do first, provided no Job of ours is unfinished at the name |
| Writes.MayStopJob | reconciler.go:744-774 | A Job held open by a sidecar may be torn down only with its result stored |
| Executor.StopJob | executor.go:741-747 | Success means no Job bears the name any more |
| Executor.EnsureStdinSecret | executor.go:545-593 | Success means a Secret with the approved bytes, owned by this Job, was seen in place; a foreign one is a permanent rejection |
| Executor.AdoptFound | executor.go:215-234 | Across namespaces an existing Job is always refused; in the controller namespace it is ours |
| Executor.FindOrCreateJob | executor.go:208-275 | Every Job yielded was created by this controller and had its stdin in place; undisturbed, it never asks for a retry unless a Job at the name is being deleted |
| Executor.ScreenFor | executor.go:245-253 | A request without API rights gets past the screening only while every Secret it refers to is fit; one with API rights always does |
| Executor.CreateJobAndStdin | executor.go:243-275 | A Job yielded was created here with its stdin in place; undisturbed, a request without API rights that refers to an unfit Secret is refused for good and nothing is created |
| Executor.ExecutorStartTimedOut | executor.go:634-647 | True exactly when the pod just listed, if there is one, shows no executor running or exited and by the clock read next its window opened more than 600 seconds ago |
| Executor.CaptureJobOutput | executor.go:806-898 | A captured result is genuine; while the Job is unfinished it has its log and its Secret; undisturbed, it is captured exactly when a container is reportable |
| Executor.OutputSecretNameIs | executor.go:905-917 | An output Secret bears the first twelve characters of its request's UID, dashes aside |
| Progress.FinishAbsorbsResult | reconciler.go:819-837 | A completion write stores the same status on the direct and on the conflict path |
| Progress.PlaybookApprovalAbsorbsExactlyWhen | reconciler.go:203-210 | For a playbook's approval both paths agree exactly when the resolution was stored already |
| Progress.RipeExactlyWhen | reconciler.go:604-741 | There is nothing to wait for exactly when no Job at the name is being deleted, or the recorded one is gone, replaced, finished, has an exited executor or has not started in time |
| Progress.EndsWithinFiveCalls | reconciler.go:567-791 | Calls that advance an approved request number at most five, and the fifth ends it, others moving in between |
| Reconciler.SudoRequestReconciler.UpdateStatus | reconciler.go:495-513 | On success exactly one step was taken, and it stored one application of the mutator to the status stored just before; on failure at most one. While its calls go through it succeeds unless the object is gone, whatever others write meanwhile |
| Reconciler.SudoRequestReconciler.StoreRetrying | reconciler.go:500-513 | Five rounds suffice for every conflict others can still cause |
| Reconciler.SudoRequestReconciler.Annotate | reconciler.go:348-353 | A note is applied exactly once |
| Reconciler.SudoRequestReconciler.MarkFailed | reconciler.go:519-538 | Done only when the Failed phase and the reason are stored |
| Reconciler.SudoRequestReconciler.FailApproved | reconciler.go:548-565 | Success means Failed and the reason are stored; undisturbed, no Job is left at the minted name |
| Reconciler.SudoRequestReconciler.FinalizeFromRecordedResult | reconciler.go:810-864 | Whichever path stores it, the same result fields are stored with the phase they call for |
| Reconciler.SudoRequestReconciler.RecordJob | reconciler.go:646-684 | An unrecorded Job is created or picked up and recorded, or the request fails for good; undisturbed, one that must not have a Secret it refers to ends Failed without a Job |
| Reconciler.SudoRequestReconciler.StoreUid | reconciler.go:666-684 | Success means a UID is on record; undisturbed, it is this Job's, and nothing else of the execution state has changed |
| Reconciler.SudoRequestReconciler.JobMissing | reconciler.go:696-711 | Success means the request ended with its stored result, or Failed if there was none |
| Reconciler.SudoRequestReconciler.AwaitStart | reconciler.go:723-741 | In every environment, a step is taken and a request failed only after a listing that showed no started executor and a clock past its deadline; undisturbed, exactly then, and otherwise nothing changes and the next look is five seconds later |
| Reconciler.SudoRequestReconciler.ObserveJob | reconciler.go:687-741 | Undisturbed, a Job whose pods show a running executor is left exactly as it is, with its request |
| Reconciler.SudoRequestReconciler.Complete | reconciler.go:744-790 | Undisturbed, stores the exit code the pod reports and ends the request accordingly, while the Job is held open only after the code was stored, and with the Job gone |
| Reconciler.SudoRequestReconciler.StoreResult | reconciler.go:764-773 | First phase: exit code and output are durable, the request still approved |
| Reconciler.SudoRequestReconciler.TearDown | reconciler.go:774-790 | Second phase: success means the request ended with this result; undisturbed, with the Job gone |
| Reconciler.SudoRequestReconciler.ExecutePlaybook | playbooks.go:243-286 | Undisturbed, Executed exactly when the target is as recorded, and then it is gone; Failed otherwise |
| Reconciler.SudoRequestReconciler.AddFinalizer | reconciler.go:593-602 | Success means the finalizer is on the object; while calls go through the request is closer to its end, if only because one of the few writes others have left is spent |
| Reconciler.SudoRequestReconciler.MintNames | reconciler.go:622-642 | Success means names are on record and the request nearer its end, which while calls go through only a vanished object prevents; undisturbed, it has a stdin Secret name exactly if it has stdin |
| Reconciler.SudoRequestReconciler.HandleApproved | reconciler.go:567-791 | Leaves the queue only ended or vanished requests, whatever others do and however calls fail. While its calls go through it takes the request closer to its end, others moving during it: surely if finalizer or names are missing or the recorded Job is over, and whenever there is nothing to wait for unless others touch Jobs, pods, stdin Secrets or the target during the call |
| Reconciler.SudoRequestReconciler.RunRounds | reconciler.go:81-131 | Reconciled round after round, others moving between the calls and during them, an approved request takes at most seven calls that go through and one more for each time somebody touches what its Job is made of; at most five if nobody moves during a call. Any further round finds it over or gone, or waits |
| Reconciler.SudoRequestReconciler.PreparePlaybook | playbooks.go:188-241 | An automatic approval means the target qualified as it stood when read; undisturbed, also conversely |
| Reconciler.SudoRequestReconciler.HandleNew | reconciler.go:133-310 | Undisturbed, the request ends in exactly the phase that validation, playbook rules, allowlist and human review call for, with decider, time, playbook record, settled image, the warnings of the preflight (one more where a playbook is left to a human) and a link good for an hour; without a playbook only a plain command of the allowlist is approved |
| Reconciler.SudoRequestReconciler.ApproveByPlaybook | reconciler.go:199-219 | The stored approval records exactly the prepared target |
| Reconciler.SudoRequestReconciler.StorePending | reconciler.go:276-291 | Pending is stored with a token whose link can be rebuilt |
| Reconciler.SudoRequestReconciler.HandlePending | reconciler.go:312-371 | Undisturbed, a request 3600 seconds old expires; before that the first answer of the assessing model is stored and never replaced, and a due link is sent once: delivered, with nothing left to attempt, if the send succeeds, pending again in 30 seconds if it fails; what is not due is not sent. In every environment at most one link is sent, and none from a copy whose notification is not pending |
| Reconciler.SudoRequestReconciler.DeliverApprovalNotification | reconciler.go:393-479 | Each recorded attempt raises the stored counter by one and is recorded as delivered exactly if the send succeeded, else as due again 30 seconds after the attempt |
| Reconciler.SudoRequestReconciler.Approve | reconciler.go:868-906 | Success means a Pending request became Approved by this person at a moment of the call, with token and playbook state cleared |
| Reconciler.SudoRequestReconciler.Deny | reconciler.go:909-943 | Success means a Pending request became Denied by this person, for this reason, at a moment of the call, with its token cleared |
| Outcomes.DecisionsDecide | reconciler.go:868-943 | What every deciding write records, and that it leaves execution state, result and links alone |
| Outcomes.ExecutionLeavesDecision | reconciler.go:519-538 | What every executing write records, and that it leaves decision, resolution, playbook, links and notification alone |
| Outcomes.NotesLeaveTheRest | reconciler.go:348-479 | Assessments, delivery attempts and links change nothing else |
| Reconciler.SudoRequestReconciler.VerifyApprovalToken | reconciler.go:947-962 | A token that passes is the one whose hash was stored with Pending |
| Reconciler.SudoRequestReconciler.ReleaseDeleted | reconciler.go:92-114 | Whatever copy drives it, success means the object is released, and across namespaces that no Job of ours is left |
| Reconciler.SudoRequestReconciler.Reconcile | reconciler.go:81-131 | From any cached copy every step is lawful; undisturbed and caught up, new, pending, approved and deleted requests go where they should |
| Gc.GarbageCollector.ExpirePending | gc.go:80-101 | Expires exactly a Pending request past its time to live, with its token |
| Gc.GarbageCollector.SweepSecrets | gc.go:54-78 | Sweeps exactly the listed token Secrets past their label; undisturbed, exactly they are gone |
| ReviewedRuns.ReviewedEqualsExecuted | review.go:11-36 | The pod shown at any time while Pending is, up to the stdin Secret's name, the pod of every Job ever created for the request, deleted since or not |
| ReviewedRuns.TokensRunExactlyWhenAutoApproved | executor.go:96-101 | Tokenised argv runs if and only if the allowlist approved the request, and then it is the argv the allowlist read |
| ReviewedRuns.ExecutedPodsAreWellFormed | validation.go:58-205 | Every executor pod ever created is well-formed exactly when the requester's volume names differ |
| ReviewedRuns.ExecutedJobsAreConfined | executor.go:282-406 | Every executor Job ever created has the rights, retention, command and volumes its request calls for, and no hostPath or projected volume |
| Lineage.LifecycleMoves | reconciler.go:567-791 | What the one-request runs prove of any request's status is what the many-request model lets its progress do |
| Lineage.OneSuccessor | retry.go:172-245 | Whenever and wherever successors of one request are seen, they are one request |
| Lineage.CreatedOnce | retry.go:229-241 | No run creates a successor name twice |
| Lineage.LinkNamesTheSuccessor | retry.go:251-270 | A forward link names the successor from the moment it is written and for good |
| Lineage.ChainsClimb | retry.go:177-199 | Along a chain UIDs climb, requester and execution fields are constant, and every request but the last has been over, and still is unless it names a playbook |
| Lineage.ChainsAgreeBefore | retry.go:131-157 | Chains that share a request agree on everything before it |
| Lineage.ChainsAgreeAfter | retry.go:131-157 | Chains that share a request agree on everything after it |
| Lineage.DuplicateSuppression | retry.go:81-111 | In every orderly run two unfinished requests made through the API share requester and fingerprint only if one of the two was over before and was revived |
| Lineage.NoPlaybookNoDuplicate | retry.go:81-111 | Without a playbook, never |
| Lineage.ProgressDoublesExactlyWhen | retry.go:81-111 | A status change makes a duplicate exactly when it revives a request that another unfinished one repeats |
| Lineage.RevivalDoubles | reconciler.go:203-212 | Every run of one request that leaves a terminal phase makes an orderly run with two unfinished duplicates |
| Lineage.ValidExactlyWhenResubmitted | retry.go:131-157 | The successor check passes exactly the one resubmission of the source, while its profile still resolves |
| Retry.RequestApi.FindPendingDuplicate | retry.go:81-111 | Finds an unfinished request of the same requester and fingerprint exactly when the listed store has one |
| Retry.RequestApi.EnsureSupersededLink | retry.go:251-270 | Success means the link names the successor, whoever wrote it; conflicts are retried |
| Retry.RequestApi.Adopt | retry.go:159-167 | An occupant of the deterministic name is linked only if it checks out |
| Retry.RequestApi.RetryRequest | retry.go:172-245 | Success means the one successor exists and is linked, from an Expired or Failed source for a requester, from any of Executed, Failed, Denied, Expired for an administrator; created means this call's own step made it, of the source's spec under the new submitter; undisturbed, it succeeds exactly when it should |
| Retry.RequestApi.CreateRequest | api.go:201-214 | A submission is refused if invalid, created, or answered with what it duplicates: undisturbed, exactly when a New, Pending or Approved request of its requester has its fingerprint |
| Retry.SuccessesAgree | retry.go:172-245 | All successful calls for one source return the same request |
| Retry.OneCallCreates | retry.go:229-241 | Of all calls for one source, however they overlap, at most one answers that it created the successor |
| Lineage.RequestersRetryTheLapsed | retry.go:122-178 | In every run, what is resubmitted otherwise than by an administrator had been Expired or Failed |
| Lineage.ActiveIsNotOver | retry.go:97-99 | Unfinished is New, Pending or Approved, which is exactly not over |
| Lineage.ValidIsTheSame | retry.go:131-157 | A successor that checks out has the source's requester and runs the same thing |
| Lineage.ChildNamesDiffer | retry.go:120 | Sources of different UIDs have successors of different names |
| Broadcast.Broadcaster.Subscribe | broadcaster.go:61-86 | A fresh channel of eight joins this request's listeners and no others |
| Broadcast.Broadcaster.SubscribeAll | broadcaster.go:49-59 | A fresh channel of thirty-two listens to every request |
| Broadcast.Broadcaster.CancelAll | broadcaster.go:54-58 | Exactly this channel leaves |
| Broadcast.Broadcaster.Cancel | broadcaster.go:71-85 | Exactly this channel leaves |
| Broadcast.Broadcaster.Snapshot | broadcaster.go:88-97 | The locked half of a publication: exactly the listeners of this moment are to be sent to |
| Broadcast.Broadcaster.SendTo | broadcaster.go:98-105 | One send of the unlocked half: this channel gets the event unless it is full, and is not sent to again |
| Broadcast.Broadcaster.Publish | broadcaster.go:88-106 | Undisturbed, every listener is offered the event once, only a full one misses it, and nobody else gets it |
| EventStream.RequestEvents.Listen | api.go:398-410 | What waits in the channel is sent in its order, all of it unless the client leaves or the end comes first; then what comes |
| EventStream.RequestEvents.ServeEvents | api.go:366-411 | With others subscribing, leaving, publishing and sending at every moment: an end published as far as this channel goes was sent or waits in the channel, except exactly when the read under the subscription failed, the phase known before was not the end, and its publication had begun before the subscription. The stream ends at the first terminal event, never at a false one |

## Left out

- HTTP routing, OIDC, TokenReview, SubjectAccessReview, cookies, HTML and the Pushover and OpenAI clients: thin wrappers. Whether a send is accepted and what the assessing model answers are parameters; a send may also be lost either way.
- Token secrecy, constant-time comparison, forgery and timing: the model is about runs, and compares digests by equality.
- Which Secrets a request refers to (rejectServiceAccountTokenSecrets): that one of them is missing or holds a ServiceAccount token is a flag of the environment, which may change at any moment unless nobody else moves.
- The texts of error messages, warnings, Recorder events and the approval message, describe and redact functions, and the byte-by-byte bounding of logs, which is taken as the prefix function it computes.
- Loading and validating configuration files, the CLI and the Helm charts.
- Executor.CreateJobAndStdin: a decode error at this point is not modelled as a branch, because the lifecycle's invariants prove that an approved spec decodes.
- Reconciler.SudoRequestReconciler.HandlePending: the model's answer is a parameter, one text whose structure is not modelled, and its 30-second limit is not.
- Reconciler.SudoRequestReconciler.Approve: the lookup by UID is a cached read of this one request.
- Reconciler.SudoRequestReconciler.PreparePlaybook: the rules for a requester are collected as in the source, but the target's namespace and name stand for the one Job of the model.
- Gc.GarbageCollector.SweepSecrets: output Secrets expire as an event of the environment; only token Secrets are swept here.
- Gc.GarbageCollector.ExpirePending: the list is the one request of the model.
- Lineage.DuplicateSuppression: needs submissions through the API one at a time, which one replica's lock gives, and leaves a playbook request out that was revived. A request created by hand, past the API, is not covered, nor is one whose profile no longer resolves.
- Retry.RequestApi.CreateRequest: the name the apiserver generates is a parameter, and creation times of requests in the store are not modelled.
- EventStream.RequestEvents.ServeEvents: speaks of requests whose phases keep to the machine, which a revived playbook request does not. The dashboard stream over all requests (a channel of thirty-two) is modelled only as a subscription at the hub.
- The 32-bit attempts counter and exit code are unbounded integers here; neither is computed with beyond adding one.
- Deployment rollout, leader election and the informer machinery beyond "the cache shows some earlier state, never an older one than before, within one process".
