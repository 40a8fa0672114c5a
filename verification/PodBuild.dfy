/** Rendering the executor Job (executor.go, decode.go): the pod a reviewer is shown and the pod
    the controller creates both come from here. */
module PodBuild {
  import opened Prelude
  import opened SudoTypes
  import AutoApprove
  import Profiles

  const STDIN_DIR := "/var/run/sudo-service"
  const STDIN_VOLUME := "sudo-service-stdin"
  const TMP_VOLUME := "sudo-service-tmp"
  const TMP_DIR := "/tmp"
  const HOME_VOLUME := "sudo-service-home"
  const HOME_DIR := "/home/sudo-service"

  const EXECUTOR_JOB_TTL := 3600
  const EXECUTOR_JOB_TTL_FLOOR := 120
  const DEFAULT_POST_APPROVAL := 3600

  // ----- Decoding the raw pod fields -----

  /** decodeRawList: null items vanish, one malformed item fails the whole list. */
  function DecodeList<T>(decode: Json -> Option<T>, raw: seq<Json>): Option<seq<T>> {
    if raw == [] then Some([])
    else
      var rest := DecodeList(decode, raw[1..]);
      if raw[0].Null? then rest
      else
        var item := decode(raw[0]);
        if item.Some? && rest.Some? then Some([item.value] + rest.value) else None
  }

  function DecodePodExtras(lib: Library, spec: Spec): Option<PodExtras> {
    var env := DecodeList(lib.decodeEnv, spec.env);
    var envFrom := DecodeList(lib.decodeEnvFrom, spec.envFrom);
    var volumes := DecodeList(lib.decodeVolume, spec.volumes);
    var mounts := DecodeList(lib.decodeMount, spec.mounts);
    var inits := DecodeList(lib.decodeContainer, spec.initContainers);
    var pulls := DecodeList(lib.decodePullSecret, spec.imagePullSecrets);
    if env.Some? && envFrom.Some? && volumes.Some? && mounts.Some? && inits.Some? && pulls.Some?
    then Some(PodExtras(env.value, envFrom.value, volumes.value, mounts.value, inits.value, pulls.value))
    else None
  }

  /** What is left of a raw list without its null items. */
  ghost function WithoutNulls(raw: seq<Json>): seq<Json> {
    if raw == [] then [] else (if raw[0].Null? then [] else [raw[0]]) + WithoutNulls(raw[1..])
  }

  /** `items` are what the items that are not null decode to, one for each, in their order. */
  ghost predicate DecodesTo<T>(decode: Json -> Option<T>, raw: seq<Json>, items: seq<T>) {
    var kept := WithoutNulls(raw);
    |items| == |kept| && forall i :: 0 <= i < |kept| ==> decode(kept[i]) == Some(items[i])
  }

  lemma {:induction false} ListDecodes<T>(decode: Json -> Option<T>, raw: seq<Json>)
    ensures DecodeList(decode, raw).Some? <==> forall r :: r in raw && !r.Null? ==> decode(r).Some?
    ensures DecodeList(decode, raw).Some? ==> DecodesTo(decode, raw, DecodeList(decode, raw).value)
  {
    if raw != [] {
      assert raw == [raw[0]] + raw[1..];
      ListDecodes(decode, raw[1..]);
    }
  }

  /** Every raw field is decoded into its own field; one malformed item anywhere spoils the whole. */
  lemma FieldsDecode(lib: Library, spec: Spec)
    ensures
      var extras := DecodePodExtras(lib, spec);
      extras.Some? ==>
        && DecodesTo(lib.decodeEnv, spec.env, extras.value.env) && DecodesTo(lib.decodeEnvFrom, spec.envFrom, extras.value.envFrom)
        && DecodesTo(lib.decodeVolume, spec.volumes, extras.value.volumes)
        && DecodesTo(lib.decodeMount, spec.mounts, extras.value.mounts)
        && DecodesTo(lib.decodeContainer, spec.initContainers, extras.value.initContainers)
        && DecodesTo(lib.decodePullSecret, spec.imagePullSecrets, extras.value.imagePullSecrets)
    ensures DecodePodExtras(lib, spec).Some? <==>
              && (forall r :: r in spec.env && !r.Null? ==> lib.decodeEnv(r).Some?)
              && (forall r :: r in spec.envFrom && !r.Null? ==> lib.decodeEnvFrom(r).Some?)
              && (forall r :: r in spec.volumes && !r.Null? ==> lib.decodeVolume(r).Some?)
              && (forall r :: r in spec.mounts && !r.Null? ==> lib.decodeMount(r).Some?)
              && (forall r :: r in spec.initContainers && !r.Null? ==> lib.decodeContainer(r).Some?)
              && (forall r :: r in spec.imagePullSecrets && !r.Null? ==> lib.decodePullSecret(r).Some?)
  {
    hide DecodesTo;
    ListDecodes(lib.decodeEnv, spec.env);
    ListDecodes(lib.decodeEnvFrom, spec.envFrom);
    ListDecodes(lib.decodeVolume, spec.volumes);
    ListDecodes(lib.decodeMount, spec.mounts);
    ListDecodes(lib.decodeContainer, spec.initContainers);
    ListDecodes(lib.decodePullSecret, spec.imagePullSecrets);
  }

  // ----- Small decisions about a request -----

  function ExecutorNamespace(spec: Spec, controllerNamespace: string): string {
    if spec.namespace != "" then spec.namespace else controllerNamespace
  }

  predicate ClusterAdminEnabled(spec: Spec, controllerNamespace: string) {
    && ExecutorNamespace(spec, controllerNamespace) == controllerNamespace
    && (spec.clusterAdmin.Some? ==> spec.clusterAdmin.value)
  }

  function TtlSecondsAfterApproval(spec: Spec): int {
    if spec.ttl.None? then DEFAULT_POST_APPROVAL
    else if spec.ttl.value < 0 then 0
    else if spec.ttl.value > EXECUTOR_JOB_TTL then EXECUTOR_JOB_TTL
    else spec.ttl.value
  }

  predicate HasPodSpecExtras(spec: Spec) {
    || spec.namespace != "" || spec.stdin != "" || spec.env != [] || spec.envFrom != []
    || spec.volumes != [] || spec.mounts != [] || spec.initContainers != []
    || spec.imagePullSecrets != [] || spec.clusterAdmin.Some?
  }

  predicate HasSpecExtras(spec: Spec) {
    spec.playbook.Some? || HasPodSpecExtras(spec)
  }

  /** A command and an image, and nothing else set that changes what runs or under which rights. */
  ghost predicate IsPlain(spec: Spec) {
    && spec.playbook.None? && spec.namespace == "" && spec.stdin == "" && spec.clusterAdmin.None?
    && spec.env == [] && spec.envFrom == [] && spec.volumes == [] && spec.mounts == []
    && spec.initContainers == [] && spec.imagePullSecrets == []
  }

  lemma ExtrasAreNotPlain(spec: Spec)
    ensures HasSpecExtras(spec) <==> !IsPlain(spec)
    ensures HasPodSpecExtras(spec) <==> !IsPlain(spec.(playbook := None))
  {
  }

  /** autoApproveTokens: the one gate both the approval decision and the argv choice consult. */
  function AutoApproveTokens(cfg: Config, sr: Request): Option<seq<string>> {
    if HasSpecExtras(sr.spec) then None
    else AutoApprove.ParsedCommand(cfg, sr.spec.command, Profiles.ImageFor(sr))
  }

  function ShellCommand(spec: Spec): seq<string> {
    if spec.stdin != "" then
      ["/bin/sh", "-c", "exec /bin/sh -c \"$1\" < " + STDIN_DIR + "/stdin", "sudo-service", spec.command]
    else ["/bin/sh", "-c", spec.command]
  }

  function ExecutorCommand(cfg: Config, sr: Request): seq<string> {
    var tokens := AutoApproveTokens(cfg, sr);
    if tokens.Some? then tokens.value else ShellCommand(sr.spec)
  }

  // ----- Scratch volumes -----

  predicate HasEnv(env: seq<EnvVar>, name: string) {
    exists e :: e in env && e.name == name
  }

  predicate HasMountAt(mounts: seq<VolumeMount>, dir: string) {
    exists m :: m in mounts && m.mountPath == dir
  }

  predicate AtOrUnder(path: string, dir: string) {
    path == dir || HasPrefix(path, dir + "/")
  }

  predicate MountsAtOrUnder(mounts: seq<VolumeMount>, dir: string) {
    exists m :: m in mounts && AtOrUnder(m.mountPath, dir)
  }

  const TMP_MOUNT := VolumeMount(TMP_VOLUME, TMP_DIR, "", false, "")
  const HOME_MOUNT := VolumeMount(HOME_VOLUME, HOME_DIR, "", false, "")
  const STDIN_MOUNT := VolumeMount(STDIN_VOLUME, STDIN_DIR, "", true, "")
  const HOME_ENV := EnvVar("HOME", HOME_DIR, "")

  predicate UsesTmp(c: Container) {
    !MountsAtOrUnder(c.mounts, TMP_DIR)
  }

  predicate LeavesHomeAlone(c: Container) {
    HasEnv(c.env, "HOME") || c.envFrom != []
  }

  predicate UsesHome(c: Container) {
    !LeavesHomeAlone(c) && !MountsAtOrUnder(c.mounts, HOME_DIR)
  }

  /** The scratch mounts a container gets. */
  function ScratchMounts(c: Container): seq<VolumeMount> {
    if UsesTmp(c) then (if UsesHome(c) then [TMP_MOUNT, HOME_MOUNT] else [TMP_MOUNT])
    else (if UsesHome(c) then [HOME_MOUNT] else [])
  }

  /** What stampScratch makes of a container, said without its order of steps: /tmp scratch unless
      the requester manages that area, HOME scratch unless the requester manages that one, and HOME
      pointed at whichever volume sits exactly at the home directory. */
  function Stamped(c: Container): Container {
    c.(mounts := c.mounts + ScratchMounts(c),
       env := c.env + (if UsesHome(c) || (!LeavesHomeAlone(c) && HasMountAt(c.mounts, HOME_DIR)) then [HOME_ENV] else []))
  }

  method StampScratch(c: Container) returns (stamped: Container, usedTmp: bool, usedHome: bool)
    ensures stamped == Stamped(c)
    ensures usedTmp == UsesTmp(c) && usedHome == UsesHome(c)
  {
    stamped, usedTmp, usedHome := c, false, false;
    if !MountsAtOrUnder(stamped.mounts, TMP_DIR) {
      stamped := stamped.(mounts := stamped.mounts + [TMP_MOUNT]);
      usedTmp := true;
    }
    TmpMountIsNotHome(c);
    if HasEnv(stamped.env, "HOME") || stamped.envFrom != [] {
      return;
    }
    if HasMountAt(stamped.mounts, HOME_DIR) {
      stamped := stamped.(env := stamped.env + [HOME_ENV]);
    } else if MountsAtOrUnder(stamped.mounts, HOME_DIR) {
    } else {
      stamped := stamped.(mounts := stamped.mounts + [HOME_MOUNT]);
      stamped := stamped.(env := stamped.env + [HOME_ENV]);
      usedHome := true;
    }
  }

  lemma TmpMountIsNotHome(c: Container)
    ensures HasMountAt(c.mounts + [TMP_MOUNT], HOME_DIR) == HasMountAt(c.mounts, HOME_DIR)
    ensures MountsAtOrUnder(c.mounts + [TMP_MOUNT], HOME_DIR) == MountsAtOrUnder(c.mounts, HOME_DIR)
    ensures HasMountAt(c.mounts, HOME_DIR) ==> MountsAtOrUnder(c.mounts, HOME_DIR)
  {
  }

  /** Some mount is at `dir` or below it. */
  ghost predicate Manages(mounts: seq<VolumeMount>, dir: string) {
    exists m :: m in mounts && (m.mountPath == dir || dir + "/" <= m.mountPath)
  }

  /** What is added, and when: /tmp scratch unless the requester manages /tmp; HOME, unless the requester sets
      it or might, pointed at the home directory if the requester mounts just that or nothing there; and home
      scratch with it if nothing there. */
  lemma ScratchExactlyWhen(c: Container)
    ensures
      var added := Stamped(c).mounts[|c.mounts|..];
      var setsHome := c.envFrom != [] || exists e :: e in c.env && e.name == "HOME";
      && c.mounts <= Stamped(c).mounts
      && (VolumeMount("sudo-service-tmp", "/tmp", "", false, "") in added <==> !Manages(c.mounts, "/tmp"))
      && (VolumeMount("sudo-service-home", "/home/sudo-service", "", false, "") in added <==>
            !setsHome && !Manages(c.mounts, "/home/sudo-service"))
      && |added| <= 2 && (|added| == 2 ==> added[0] != added[1]) && (forall m :: m in added ==> m in {TMP_MOUNT, HOME_MOUNT})
      && Stamped(c).env == c.env +
           if !setsHome
              && (!Manages(c.mounts, "/home/sudo-service") || exists m :: m in c.mounts && m.mountPath == "/home/sudo-service")
           then [EnvVar("HOME", "/home/sudo-service", "")] else []
  {
    assert MountsAtOrUnder(c.mounts, TMP_DIR) <==> Manages(c.mounts, "/tmp");
    assert MountsAtOrUnder(c.mounts, HOME_DIR) <==> Manages(c.mounts, "/home/sudo-service");
  }

  /** Stamping twice is stamping once. */
  lemma StampIsIdempotent(c: Container)
    ensures Stamped(Stamped(c)) == Stamped(c)
  {
  }

  // ----- The Job -----

  const STDIN_SOURCE := VolumeSource(None, None, None, None, false, None, "")

  function StdinVolume(secretName: string): Volume {
    Volume(STDIN_VOLUME, STDIN_SOURCE.(secret := Some(SecretSource(secretName, "", Some(292)))))
  }

  function ScratchVolume(name: string): Volume {
    Volume(name, VolumeSource(Some(""), None, None, None, false, None, ""))
  }

  function ExecutorContainer(cfg: Config, sr: Request, extras: PodExtras): Container {
    Container("executor", Profiles.ImageFor(sr), ExecutorCommand(cfg, sr), [], extras.env, extras.envFrom,
              if sr.spec.stdin != "" then extras.mounts + [STDIN_MOUNT] else extras.mounts,
              Hardened, SchedulingHints, "")
  }

  function Locked(c: Container): Container {
    c.(security := Hardened, resources := SchedulingHints)
  }

  function LockedAll(inits: seq<Container>): seq<Container> {
    seq(|inits|, i requires 0 <= i < |inits| => Locked(inits[i]))
  }

  function StampedAll(cs: seq<Container>): seq<Container> {
    seq(|cs|, i requires 0 <= i < |cs| => Stamped(cs[i]))
  }

  /** Every container of the pod before scratch is stamped in: the executor, then the inits. */
  function BareContainers(cfg: Config, sr: Request, extras: PodExtras): (cs: seq<Container>)
    ensures |cs| == 1 + |extras.initContainers|
  {
    [ExecutorContainer(cfg, sr, extras)] + LockedAll(extras.initContainers)
  }

  function PodVolumes(bare: seq<Container>, sr: Request, extras: PodExtras): seq<Volume> {
    var own := extras.volumes;
    var withStdin := if sr.spec.stdin != "" then own + [StdinVolume(sr.status.exec.stdinName)] else own;
    var withTmp := if exists c :: c in bare && UsesTmp(c) then withStdin + [ScratchVolume(TMP_VOLUME)] else withStdin;
    if exists c :: c in bare && UsesHome(c) then withTmp + [ScratchVolume(HOME_VOLUME)] else withTmp
  }

  /** The pod literal: locked-down defaults around the given containers and volumes. */
  function AssemblePod(cfg: Config, spec: Spec, extras: PodExtras, inits: seq<Container>, executor: Container,
                       volumes: seq<Volume>): PodSpec {
    var admin := ClusterAdminEnabled(spec, cfg.Namespace());
    PodSpec(if admin then "sudo-service-executor-sa" else "default", if admin then None else Some(false),
            extras.imagePullSecrets, 1000, "Never", inits, [executor], volumes)
  }

  function PodFor(cfg: Config, sr: Request, extras: PodExtras): PodSpec {
    var bare := BareContainers(cfg, sr, extras);
    AssemblePod(cfg, sr.spec, extras,
                StampedAll(LockedAll(extras.initContainers)), Stamped(ExecutorContainer(cfg, sr, extras)),
                PodVolumes(bare, sr, extras))
  }

  /** The Job buildExecutorJob renders at a given name. */
  function JobFor(cfg: Config, sr: Request, extras: PodExtras, name: string): JobSpec {
    var ns := ExecutorNamespace(sr.spec, cfg.Namespace());
    var ttl := TtlSecondsAfterApproval(sr.spec);
    JobSpec(ns, name, if ns == cfg.Namespace() then Some(sr.uid) else None, 0,
            if ttl < EXECUTOR_JOB_TTL_FLOOR then EXECUTOR_JOB_TTL_FLOOR else ttl,
            PodFor(cfg, sr, extras))
  }

  // ----- What the Job is, in the fields of the request -----

  /** Under which rights: those of the cluster-admin account exactly in the controller's own namespace and
      unless the requester declined; otherwise no API access at all. Never as root, never again. */
  ghost predicate RunsConfined(cfg: Config, spec: Spec, job: JobSpec) {
    && job.namespace == (if spec.namespace == "" then cfg.Namespace() else spec.namespace)
    && (job.pod.serviceAccount == "sudo-service-executor-sa" <==>
          job.namespace == cfg.Namespace() && spec.clusterAdmin != Some(false))
    && (job.pod.serviceAccount != "sudo-service-executor-sa" ==>
          job.pod.serviceAccount == "default" && job.pod.automountToken == Some(false))
    && job.pod.runAsUser == 1000 && job.pod.restartPolicy == "Never" && job.backoffLimit == 0
    && forall c :: c in job.pod.containers + job.pod.initContainers ==> c.security == Hardened && c.resources == SchedulingHints
  }

  /** How long it is kept, as the requester asked but between 120 and 3600 seconds; and it is owned, so that
      it goes with the request, exactly in the controller's namespace. */
  ghost predicate IsKept(cfg: Config, sr: Request, job: JobSpec) {
    && 120 <= job.ttlAfterFinished <= 3600
    && (match sr.spec.ttl
        case None => job.ttlAfterFinished == 3600
        case Some(t) =>
          (t <= 120 ==> job.ttlAfterFinished == 120) && (120 <= t <= 3600 ==> job.ttlAfterFinished == t)
          && (3600 <= t ==> job.ttlAfterFinished == 3600))
    && job.owner == if job.namespace == cfg.Namespace() then Some(sr.uid) else None
  }

  /** The argv the allowlist read, or else the command through a shell. */
  ghost predicate IsCommandOf(cfg: Config, sr: Request, command: seq<string>) {
    if AutoApproveTokens(cfg, sr).Some? then Some(command) == AutoApproveTokens(cfg, sr)
    else if sr.spec.stdin == "" then command == ["/bin/sh", "-c", sr.spec.command]
    else command == ["/bin/sh", "-c", "exec /bin/sh -c \"$1\" < /var/run/sudo-service/stdin", "sudo-service", sr.spec.command]
  }

  /** The settled image, that argv, and the requester's environment and mounts first. */
  ghost predicate IsExecutor(cfg: Config, sr: Request, extras: PodExtras, e: Container) {
    && e.name == "executor" && (sr.status.resolution.image != "" ==> e.image == sr.status.resolution.image)
    && IsCommandOf(cfg, sr, e.command) && e.args == [] && e.other == ""
    && e.envFrom == extras.envFrom && extras.env <= e.env && extras.mounts <= e.mounts
  }

  /** An init container as asked for, but for what the controller puts on every container. */
  ghost predicate IsInit(asked: Container, c: Container) {
    && c.name == asked.name && c.image == asked.image && c.command == asked.command && c.args == asked.args
    && c.envFrom == asked.envFrom && asked.env <= c.env && asked.mounts <= c.mounts && c.other == asked.other
  }

  /** What it runs: one executor, and before it the requester's init containers. */
  ghost predicate RunsCommand(cfg: Config, sr: Request, extras: PodExtras, pod: PodSpec) {
    && |pod.containers| == 1 && IsExecutor(cfg, sr, extras, pod.containers[0])
    && |pod.initContainers| == |extras.initContainers| && pod.imagePullSecrets == extras.imagePullSecrets
    && forall i :: 0 <= i < |pod.initContainers| ==> IsInit(extras.initContainers[i], pod.initContainers[i])
  }

  predicate IsScratch(v: Volume) {
    && v.name in {"sudo-service-tmp", "sudo-service-home"}
    && v.source == VolumeSource(Some(""), None, None, None, false, None, "")
  }

  /** What it sees: the requester's volumes first, then the stdin Secret if there is stdin, mounted read-only
      into the executor alone, then nothing but empty scratch, mounted at /tmp and at the home directory. */
  ghost predicate SeesVolumes(sr: Request, extras: PodExtras, pod: PodSpec) {
    && extras.volumes <= pod.volumes
    && (sr.spec.stdin != "" ==>
          && |pod.volumes| > |extras.volumes| && |pod.containers| == 1 && |pod.containers[0].mounts| > |extras.mounts|
          && pod.containers[0].mounts[|extras.mounts|] == VolumeMount("sudo-service-stdin", "/var/run/sudo-service", "", true, "")
          && var v := pod.volumes[|extras.volumes|];
             && v.name == "sudo-service-stdin"
             && v.source
                == VolumeSource(None, Some(SecretSource(sr.status.exec.stdinName, "", Some(292))), None, None, false, None, ""))
    && var own := |extras.volumes| + if sr.spec.stdin == "" then 0 else 1;
       && own <= |pod.volumes| && forall i :: own <= i < |pod.volumes| ==> IsScratch(pod.volumes[i])
  }

  lemma JobIsConfined(cfg: Config, sr: Request, extras: PodExtras, name: string)
    ensures RunsConfined(cfg, sr.spec, JobFor(cfg, sr, extras, name))
    ensures IsKept(cfg, sr, JobFor(cfg, sr, extras, name)) && JobFor(cfg, sr, extras, name).name == name
  {
    hide Stamped, PodVolumes, ExecutorCommand, Profiles.ImageFor;
    var pod := PodFor(cfg, sr, extras);
    StampingKeeps(ExecutorContainer(cfg, sr, extras));
    forall i | 0 <= i < |pod.initContainers|
      ensures pod.initContainers[i].security == Hardened && pod.initContainers[i].resources == SchedulingHints
    {
      StampingKeeps(Locked(extras.initContainers[i]));
    }
  }

  /** Stamping adds scratch mounts and HOME, and changes nothing else. */
  lemma StampingKeeps(c: Container)
    ensures c.mounts <= Stamped(c).mounts && c.env <= Stamped(c).env
    ensures Stamped(c) == c.(mounts := Stamped(c).mounts, env := Stamped(c).env)
  {
  }

  lemma JobRunsCommand(cfg: Config, sr: Request, extras: PodExtras)
    ensures RunsCommand(cfg, sr, extras, PodFor(cfg, sr, extras))
  {
    hide Stamped, PodVolumes, AutoApproveTokens, ShellCommand;
    var pod := PodFor(cfg, sr, extras);
    StampingKeeps(ExecutorContainer(cfg, sr, extras));
    ShellCommandIs(sr.spec);
    forall i | 0 <= i < |pod.initContainers|
      ensures IsInit(extras.initContainers[i], pod.initContainers[i])
    {
      StampingKeeps(Locked(extras.initContainers[i]));
    }
  }

  lemma ShellCommandIs(spec: Spec)
    ensures spec.stdin == "" ==> ShellCommand(spec) == ["/bin/sh", "-c", spec.command]
    ensures spec.stdin != "" ==>
              ShellCommand(spec)
              == ["/bin/sh", "-c", "exec /bin/sh -c \"$1\" < /var/run/sudo-service/stdin", "sudo-service", spec.command]
  {
    assert "exec /bin/sh -c \"$1\" < " + STDIN_DIR + "/stdin" == "exec /bin/sh -c \"$1\" < /var/run/sudo-service/stdin";
  }

  lemma JobSeesVolumes(cfg: Config, sr: Request, extras: PodExtras)
    ensures SeesVolumes(sr, extras, PodFor(cfg, sr, extras))
  {
    hide Stamped, UsesTmp, UsesHome, ExecutorCommand, Profiles.ImageFor;
    StampingKeeps(ExecutorContainer(cfg, sr, extras));
  }

  /** The init containers, locked down and stamped, and whether any of them took a scratch volume. */
  method StampInits(inits: seq<Container>) returns (stamped: seq<Container>, usedTmp: bool, usedHome: bool)
    ensures stamped == StampedAll(LockedAll(inits))
    ensures usedTmp <==> exists c :: c in LockedAll(inits) && UsesTmp(c)
    ensures usedHome <==> exists c :: c in LockedAll(inits) && UsesHome(c)
  {
    hide Stamped, UsesTmp, UsesHome;
    ghost var locked := LockedAll(inits);
    stamped, usedTmp, usedHome := [], false, false;
    for i := 0 to |inits|
      invariant |stamped| == i
      invariant forall k :: 0 <= k < i ==> stamped[k] == Stamped(locked[k])
      invariant usedTmp <==> exists k :: 0 <= k < i && UsesTmp(locked[k])
      invariant usedHome <==> exists k :: 0 <= k < i && UsesHome(locked[k])
    {
      var c := inits[i].(security := Hardened, resources := SchedulingHints);
      assert c == locked[i];
      var t, h;
      c, t, h := StampScratch(c);
      stamped := stamped + [c];
      usedTmp := usedTmp || t;
      usedHome := usedHome || h;
    }
  }

  lemma SomeContainerUses(first: Container, inits: seq<Container>)
    ensures (exists c :: c in [first] + LockedAll(inits) && UsesTmp(c))
        <==> UsesTmp(first) || exists c :: c in LockedAll(inits) && UsesTmp(c)
    ensures (exists c :: c in [first] + LockedAll(inits) && UsesHome(c))
        <==> UsesHome(first) || exists c :: c in LockedAll(inits) && UsesHome(c)
  {
  }

  method BuildExecutorJob(cfg: Config, sr: Request, extras: PodExtras, name: string) returns (job: JobSpec)
    ensures job == JobFor(cfg, sr, extras, name)
    ensures RunsConfined(cfg, sr.spec, job) && IsKept(cfg, sr, job) && job.name == name
    ensures RunsCommand(cfg, sr, extras, job.pod) && SeesVolumes(sr, extras, job.pod)
  {
    JobIsConfined(cfg, sr, extras, name);
    JobRunsCommand(cfg, sr, extras);
    JobSeesVolumes(cfg, sr, extras);
    hide PodFor, RunsConfined, IsKept, RunsCommand, SeesVolumes;
    var jobTtl := TtlSecondsAfterApproval(sr.spec);
    if jobTtl < EXECUTOR_JOB_TTL_FLOOR {
      jobTtl := EXECUTOR_JOB_TTL_FLOOR;
    }
    var pod := BuildPod(cfg, sr, extras);
    var ns := ExecutorNamespace(sr.spec, cfg.Namespace());
    job := JobSpec(ns, name, None, 0, jobTtl, pod);
    if ns == cfg.Namespace() {
      job := job.(owner := Some(sr.uid));
    }
  }

  method BuildPod(cfg: Config, sr: Request, extras: PodExtras) returns (pod: PodSpec)
    ensures pod == PodFor(cfg, sr, extras)
  {
    var executor := Container("executor", Profiles.ImageFor(sr), ExecutorCommand(cfg, sr), [], extras.env,
                              extras.envFrom, extras.mounts, Hardened, SchedulingHints, "");
    var volumes := extras.volumes;
    if sr.spec.stdin != "" {
      executor := executor.(mounts := executor.mounts + [STDIN_MOUNT]);
      volumes := volumes + [StdinVolume(sr.status.exec.stdinName)];
    }
    ghost var first := ExecutorContainer(cfg, sr, extras);
    assert executor == first;
    var usedTmp, usedHome;
    executor, usedTmp, usedHome := StampScratch(executor);
    var inits, initTmp, initHome := StampInits(extras.initContainers);
    usedTmp, usedHome := usedTmp || initTmp, usedHome || initHome;
    SomeContainerUses(first, extras.initContainers);
    if usedTmp {
      volumes := volumes + [ScratchVolume(TMP_VOLUME)];
    }
    if usedHome {
      volumes := volumes + [ScratchVolume(HOME_VOLUME)];
    }
    ghost var bare := BareContainers(cfg, sr, extras);
    assert volumes == PodVolumes(bare, sr, extras);
    pod := AssemblePod(cfg, sr.spec, extras, inits, executor, volumes);
  }
}
