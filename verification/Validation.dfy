/** The allowlist on the widened pod fields (validation.go) and the playbook shape (playbooks.go),
    and what they buy: every accepted request renders into a well-formed pod. */
module Validation {
  import opened Prelude
  import opened SudoTypes
  import opened PodBuild
  import Profiles

  const MAX_STDIN_BYTES := 1024 * 1024 - 4096
  const RESERVED_VOLUMES: set<string> := {STDIN_VOLUME, TMP_VOLUME, HOME_VOLUME}

  datatype SpecError =
    | ClusterAdminElsewhere | StdinTooLarge | InvalidPodField
    | ReservedVolume(name: string) | BadVolume(name: string)
    | ReservedMount(name: string) | StdinPathTaken
    | UnknownVolume(path: string) | HiddenMountField(path: string) | DuplicatePath(path: string)
    | InitNeedsNameAndImage | InitNeedsCommand(name: string) | InitHiddenField(name: string)
    | PullSecretNeedsName

  /** describeVolumeSource's verdict: the first source set decides. */
  predicate Reviewable(source: VolumeSource) {
    source.emptyDir.Some? || source.secret.Some? || source.configMap.Some? || source.claim.Some?
  }

  /** validateVolumeSource */
  predicate VolumeAllowed(v: Volume) {
    v.name != "" && v.source.hostPath.None? && !v.source.projected && Reviewable(v.source)
  }

  predicate MountsOk(mounts: seq<VolumeMount>, volumes: set<string>, hasStdin: bool) {
    && (forall m :: m in mounts ==> m.name in volumes && m.other == "")
    && (forall i, j :: 0 <= i < j < |mounts| ==> mounts[i].mountPath != mounts[j].mountPath)
    && (hasStdin ==> forall m :: m in mounts ==> m.mountPath != "/var/run/sudo-service")
  }

  predicate InitOk(c: Container, volumes: set<string>) {
    && c.name != "" && c.image != "" && c.command != []
    && c.security == SecurityUnset && c.resources == ResourcesUnset && c.other == ""
    && (forall m :: m in c.mounts ==> !IsReserved(m.name))
    && MountsOk(c.mounts, volumes, false)
  }

  function VolumeNames(spec: Spec, extras: PodExtras): set<string> {
    (set v | v in extras.volumes :: v.name) + (if spec.stdin != "" then {"sudo-service-stdin"} else {})
  }

  /** Taken by the controller. */
  predicate IsReserved(name: string) {
    name == "sudo-service-stdin" || name == "sudo-service-tmp" || name == "sudo-service-home"
  }

  /** A volume a reviewer can be shown, and that opens nothing of the node or of the API. */
  predicate IsHarmless(source: VolumeSource) {
    && source.hostPath.None? && !source.projected
    && (source.emptyDir.Some? || source.secret.Some? || source.configMap.Some? || source.claim.Some?)
  }

  predicate ExtrasOk(spec: Spec, extras: PodExtras) {
    && (forall v :: v in extras.volumes ==> v.name != "" && !IsReserved(v.name) && IsHarmless(v.source))
    && (forall m :: m in extras.mounts ==> !IsReserved(m.name) && m.mountPath != "/var/run/sudo-service")
    && MountsOk(extras.mounts, VolumeNames(spec, extras), spec.stdin != "")
    && (forall c :: c in extras.initContainers ==> InitOk(c, VolumeNames(spec, extras)))
    && (forall name :: name in extras.imagePullSecrets ==> name != "")
  }

  /** What validateSpecExtras accepts, said field by field instead of check by check. */
  predicate SpecExtrasOk(cfg: Config, spec: Spec) {
    && (spec.namespace != "" && spec.namespace != cfg.Namespace() ==> spec.clusterAdmin != Some(true))
    && |spec.stdin| <= 1_044_480
    && DecodePodExtras(cfg.lib, spec).Some?
    && ExtrasOk(spec, DecodePodExtras(cfg.lib, spec).value)
  }

  // ----- Playbooks -----

  const CLEANUP_PLAYBOOK := "job.cleanup-terminal/v1"

  datatype Target = Target(namespace: string, name: string)

  function CleanupParameters(lib: Library, spec: Spec): Option<Target> {
    if spec.playbook.None? || spec.playbook.value.name != CLEANUP_PLAYBOOK then None
    else
      var params := spec.playbook.value.parameters;
      if |params| == 2 && "namespace" in params && "name" in params
         && lib.isDnsLabel(params["namespace"]) && lib.isDnsSubdomain(params["name"])
      then Some(Target(params["namespace"], params["name"]))
      else None
  }

  function CleanupCommand(target: Target): string {
    "kubectl delete job " + target.name + " -n " + target.namespace + " --ignore-not-found=true --wait=false"
  }

  /** validatePlaybookSpec */
  predicate PlaybookOk(lib: Library, spec: Spec) {
    spec.playbook.Some? ==>
      && CleanupParameters(lib, spec).Some?
      && spec.command == CleanupCommand(CleanupParameters(lib, spec).value)
      && spec.image == "" && spec.profile == "" && !HasPodSpecExtras(spec)
  }

  /** A cleanup of one Job: exactly its namespace and its name, each a DNS name. */
  ghost predicate IsCleanupOf(lib: Library, playbook: Playbook, namespace: string, name: string) {
    && playbook.name == "job.cleanup-terminal/v1"
    && playbook.parameters == map["namespace" := namespace, "name" := name]
    && lib.isDnsLabel(namespace) && lib.isDnsSubdomain(name)
  }

  lemma CleanupExactlyWhen(lib: Library, spec: Spec, namespace: string, name: string)
    ensures CleanupParameters(lib, spec) == Some(Target(namespace, name)) <==>
              spec.playbook.Some? && IsCleanupOf(lib, spec.playbook.value, namespace, name)
  {
    assert "namespace"[1] == 'a' && |"namespace"| != |"name"|;
    if spec.playbook.Some? {
      var params := spec.playbook.value.parameters;
      if |params| == 2 && "namespace" in params && "name" in params {
        TwoKeys(params, "namespace", "name");
      }
    }
  }

  lemma TwoKeys(m: map<string, string>, a: string, b: string)
    requires |m| == 2 && a in m && b in m && a != b
    ensures m == map[a := m[a], b := m[b]]
  {
    assert |m.Keys| == 2;
    assert |m.Keys - {a, b}| == 0;
    assert m.Keys == {a, b};
  }

  /** A playbook request is the canonical rendering of such a cleanup, and sets nothing else that runs. */
  lemma PlaybookOkExactlyWhen(lib: Library, spec: Spec)
    ensures PlaybookOk(lib, spec) <==>
              || spec.playbook.None?
              || (&& spec.image == "" && spec.profile == "" && IsPlain(spec.(playbook := None))
                  && exists namespace, name :: IsCleanupOf(lib, spec.playbook.value, namespace, name) &&
                       spec.command
                       == "kubectl delete job " + name + " -n " + namespace + " --ignore-not-found=true --wait=false")
  {
    ExtrasAreNotPlain(spec);
    if spec.playbook.Some? {
      forall namespace, name | IsCleanupOf(lib, spec.playbook.value, namespace, name)
        ensures CleanupParameters(lib, spec) == Some(Target(namespace, name))
      {
        CleanupExactlyWhen(lib, spec, namespace, name);
      }
      var target := CleanupParameters(lib, spec);
      if target.Some? {
        CleanupExactlyWhen(lib, spec, target.value.namespace, target.value.name);
      }
    }
  }

  /** Everything handleNew, the HTTP API and a retry check before a request may be reviewed. */
  predicate Accepted(cfg: Config, spec: Spec) {
    && cfg.lib.shellSyntaxOk(spec.command)
    && Profiles.ResolveAndPreflight(cfg, spec).Some?
    && SpecExtrasOk(cfg, spec)
    && PlaybookOk(cfg.lib, spec)
  }

  method ValidateMounts(mounts: seq<VolumeMount>, volumes: set<string>, hasStdin: bool) returns (err: Option<SpecError>)
    ensures err.None? <==> MountsOk(mounts, volumes, hasStdin)
  {
    var seenPaths: set<string> := if hasStdin then {STDIN_DIR} else {};
    for i := 0 to |mounts|
      invariant MountsOk(mounts[..i], volumes, hasStdin)
      invariant forall p :: p in seenPaths <==> (hasStdin && p == STDIN_DIR) || exists k :: 0 <= k < i && mounts[k].mountPath == p
    {
      var m := mounts[i];
      if m.name !in volumes {
        return Some(UnknownVolume(m.mountPath));
      }
      if m.other != "" {
        return Some(HiddenMountField(m.mountPath));
      }
      if m.mountPath in seenPaths {
        return Some(DuplicatePath(m.mountPath));
      }
      seenPaths := seenPaths + {m.mountPath};
      assert mounts[..i + 1] == mounts[..i] + [m];
    }
    assert mounts[..|mounts|] == mounts;
    return None;
  }

  method ValidateSpecExtras(cfg: Config, spec: Spec) returns (err: Option<SpecError>)
    ensures err.None? <==> SpecExtrasOk(cfg, spec)
    ensures err.None? ==>
              forall v :: v in DecodePodExtras(cfg.lib, spec).value.volumes ==>
                v.name != "" && v.source.hostPath.None? && !v.source.projected
                && (v.source.emptyDir.Some? || v.source.secret.Some? || v.source.configMap.Some? || v.source.claim.Some?)
    ensures DecodePodExtras(cfg.lib, spec).Some?
            && (exists v :: v in DecodePodExtras(cfg.lib, spec).value.volumes
                  && (v.name == "" || v.source.hostPath.Some? || v.source.projected
                      || (v.source.emptyDir.None? && v.source.secret.None? && v.source.configMap.None? && v.source.claim.None?)))
            ==> err.Some?
  {
    if spec.namespace != "" && spec.namespace != cfg.Namespace() && spec.clusterAdmin == Some(true) {
      return Some(ClusterAdminElsewhere);
    }
    if |spec.stdin| > MAX_STDIN_BYTES {
      return Some(StdinTooLarge);
    }
    var decoded := DecodePodExtras(cfg.lib, spec);
    if decoded.None? {
      return Some(InvalidPodField);
    }
    err := ValidateExtras(spec, decoded.value);
  }

  method ValidateExtras(spec: Spec, extras: PodExtras) returns (err: Option<SpecError>)
    ensures err.None? <==> ExtrasOk(spec, extras)
  {
    var volNames: set<string> := {};
    for i := 0 to |extras.volumes|
      invariant forall k :: 0 <= k < i ==> extras.volumes[k].name !in RESERVED_VOLUMES && VolumeAllowed(extras.volumes[k])
      invariant volNames == set v | v in extras.volumes[..i] :: v.name
    {
      var v := extras.volumes[i];
      if v.name in RESERVED_VOLUMES {
        return Some(ReservedVolume(v.name));
      }
      if !VolumeAllowed(v) {
        return Some(BadVolume(v.name));
      }
      volNames := volNames + {v.name};
      assert extras.volumes[..i + 1] == extras.volumes[..i] + [v];
    }
    assert extras.volumes[..|extras.volumes|] == extras.volumes;
    for i := 0 to |extras.mounts|
      invariant forall k :: 0 <= k < i ==> extras.mounts[k].name !in RESERVED_VOLUMES && extras.mounts[k].mountPath != STDIN_DIR
    {
      if extras.mounts[i].name in RESERVED_VOLUMES {
        return Some(ReservedMount(extras.mounts[i].name));
      }
      if extras.mounts[i].mountPath == STDIN_DIR {
        return Some(StdinPathTaken);
      }
    }
    if spec.stdin != "" {
      volNames := volNames + {STDIN_VOLUME};
    }
    err := ValidateMounts(extras.mounts, volNames, spec.stdin != "");
    if err.Some? {
      return;
    }
    err := ValidateInits(extras.initContainers, volNames);
    if err.Some? {
      return;
    }
    for i := 0 to |extras.imagePullSecrets|
      invariant forall k :: 0 <= k < i ==> extras.imagePullSecrets[k] != ""
    {
      assert extras.imagePullSecrets[i] in extras.imagePullSecrets;
      if extras.imagePullSecrets[i] == "" {
        return Some(PullSecretNeedsName);
      }
    }
    return None;
  }

  method ValidateInits(inits: seq<Container>, volNames: set<string>) returns (err: Option<SpecError>)
    ensures err.None? <==> forall c :: c in inits ==> InitOk(c, volNames)
  {
    for i := 0 to |inits|
      invariant forall k :: 0 <= k < i ==> InitOk(inits[k], volNames)
    {
      var c := inits[i];
      assert c in inits;
      if c.name == "" || c.image == "" {
        return Some(InitNeedsNameAndImage);
      }
      if c.command == [] {
        return Some(InitNeedsCommand(c.name));
      }
      if c.security != SecurityUnset || c.resources != ResourcesUnset || c.other != "" {
        return Some(InitHiddenField(c.name));
      }
      for j := 0 to |c.mounts|
        invariant forall k :: 0 <= k < j ==> c.mounts[k].name !in RESERVED_VOLUMES
      {
        if c.mounts[j].name in RESERVED_VOLUMES {
          return Some(ReservedMount(c.mounts[j].name));
        }
      }
      err := ValidateMounts(c.mounts, volNames, false);
      if err.Some? {
        return;
      }
    }
    return None;
  }

  // ----- Accepted specs build well-formed pods -----

  ghost predicate PathsDistinct(mounts: seq<VolumeMount>) {
    forall i, j :: 0 <= i < j < |mounts| ==> mounts[i].mountPath != mounts[j].mountPath
  }

  ghost predicate ContainerFits(c: Container, volumes: seq<Volume>) {
    && (forall m :: m in c.mounts ==> exists v :: v in volumes && v.name == m.name)
    && PathsDistinct(c.mounts)
  }

  ghost predicate VolumeNamesDistinct(volumes: seq<Volume>) {
    forall i, j :: 0 <= i < j < |volumes| ==> volumes[i].name != volumes[j].name
  }

  /** The part of the apiserver's pod validation that concerns volumes: each mount names a volume of
      the pod, no container mounts two volumes at one path, no two volumes share a name. */
  ghost predicate WellFormed(pod: PodSpec) {
    && VolumeNamesDistinct(pod.volumes)
    && forall c :: c in pod.containers + pod.initContainers ==> ContainerFits(c, pod.volumes)
  }

  /** Scratch is only ever added where the requester mounts nothing at or below it, and the
      requester's own mounts and variables stay first, in their order. */
  lemma ScratchStaysClear(c: Container)
    ensures c.mounts <= Stamped(c).mounts && c.env <= Stamped(c).env
    ensures forall m, s :: m in c.mounts && s in Stamped(c).mounts[|c.mounts|..] ==> !AtOrUnder(m.mountPath, s.mountPath)
    ensures TMP_MOUNT in Stamped(c).mounts[|c.mounts|..] <==> UsesTmp(c)
    ensures HOME_MOUNT in Stamped(c).mounts[|c.mounts|..] <==> UsesHome(c)
  {
  }

  lemma StampKeepsPathsDistinct(c: Container)
    requires PathsDistinct(c.mounts)
    ensures PathsDistinct(Stamped(c).mounts)
  {
  }

  /** A stamped container fits once the pod has its own volumes and the scratch it uses. */
  lemma StampedFits(c: Container, volumes: seq<Volume>)
    requires ContainerFits(c, volumes)
    requires UsesTmp(c) ==> ScratchVolume(TMP_VOLUME) in volumes
    requires UsesHome(c) ==> ScratchVolume(HOME_VOLUME) in volumes
    ensures ContainerFits(Stamped(c), volumes)
  {
  }

  lemma ExecutorFits(cfg: Config, sr: Request, extras: PodExtras, volumes: seq<Volume>)
    requires ExtrasOk(sr.spec, extras)
    requires extras.volumes <= volumes
    requires sr.spec.stdin != "" ==> exists v :: v in volumes && v.name == STDIN_VOLUME
    ensures ContainerFits(ExecutorContainer(cfg, sr, extras), volumes)
  {
    var c := ExecutorContainer(cfg, sr, extras);
    forall m | m in c.mounts
      ensures exists v :: v in volumes && v.name == m.name
    {
      if m in extras.mounts {
        MountedVolumeExists(sr.spec, extras, m.name, volumes);
      }
    }
  }

  lemma MountedVolumeExists(spec: Spec, extras: PodExtras, name: string, volumes: seq<Volume>)
    requires name in VolumeNames(spec, extras) && name !in RESERVED_VOLUMES
    requires extras.volumes <= volumes
    ensures exists v :: v in volumes && v.name == name
  {
  }

  lemma InitFits(spec: Spec, extras: PodExtras, c: Container, volumes: seq<Volume>)
    requires ExtrasOk(spec, extras) && c in extras.initContainers
    requires extras.volumes <= volumes
    ensures ContainerFits(Locked(c), volumes)
  {
  }

  lemma PodVolumesContain(bare: seq<Container>, sr: Request, extras: PodExtras)
    ensures extras.volumes <= PodVolumes(bare, sr, extras)
    ensures sr.spec.stdin != "" ==> StdinVolume(sr.status.exec.stdinName) in PodVolumes(bare, sr, extras)
    ensures (exists c :: c in bare && UsesTmp(c)) ==> ScratchVolume(TMP_VOLUME) in PodVolumes(bare, sr, extras)
    ensures (exists c :: c in bare && UsesHome(c)) ==> ScratchVolume(HOME_VOLUME) in PodVolumes(bare, sr, extras)
  {
  }

  /** The controller's own volume names never clash, so the pod's names are distinct exactly when
      the requester's are. */
  lemma PodVolumeNamesDistinct(bare: seq<Container>, sr: Request, extras: PodExtras)
    requires forall v :: v in extras.volumes ==> v.name !in RESERVED_VOLUMES
    ensures VolumeNamesDistinct(PodVolumes(bare, sr, extras)) <==> VolumeNamesDistinct(extras.volumes)
  {
    var volumes := PodVolumes(bare, sr, extras);
    PodVolumesContain(bare, sr, extras);
    if VolumeNamesDistinct(volumes) {
      forall i, j | 0 <= i < j < |extras.volumes|
        ensures extras.volumes[i].name != extras.volumes[j].name
      {
        assert volumes[i] == extras.volumes[i] && volumes[j] == extras.volumes[j];
      }
    }
    assert STDIN_VOLUME != TMP_VOLUME && TMP_VOLUME != HOME_VOLUME && STDIN_VOLUME != HOME_VOLUME by {
      assert STDIN_VOLUME[13] == 's' && TMP_VOLUME[13] == 't' && HOME_VOLUME[13] == 'h';
    }
    if VolumeNamesDistinct(extras.volumes) {
      forall i, j | 0 <= i < j < |volumes|
        ensures volumes[i].name != volumes[j].name
      {
        if i < |extras.volumes| {
          assert volumes[i] == extras.volumes[i] && volumes[i] in extras.volumes;
        }
        if j < |extras.volumes| {
          assert volumes[j] == extras.volumes[j];
        }
      }
    }
  }

  /** Validation does not look for repeated volume names. For an accepted spec that is the only thing
      that can go wrong: the pod is well-formed if and only if the requester's names are distinct. */
  lemma AcceptedPodWellFormed(cfg: Config, sr: Request, extras: PodExtras)
    requires SpecExtrasOk(cfg, sr.spec) && DecodePodExtras(cfg.lib, sr.spec) == Some(extras)
    ensures WellFormed(PodFor(cfg, sr, extras)) <==> VolumeNamesDistinct(extras.volumes)
  {
    hide ContainerFits, VolumeNamesDistinct, InitOk, MountsOk, UsesTmp, UsesHome, Stamped, PodVolumes;
    var bare := BareContainers(cfg, sr, extras);
    var pod := PodFor(cfg, sr, extras);
    PodVolumesContain(bare, sr, extras);
    PodVolumeNamesDistinct(bare, sr, extras);
    var executor := ExecutorContainer(cfg, sr, extras);
    assert bare[0] == executor && executor in bare;
    ExecutorFits(cfg, sr, extras, pod.volumes);
    StampedFits(executor, pod.volumes);
    forall c | c in pod.initContainers
      ensures ContainerFits(c, pod.volumes)
    {
      var i :| 0 <= i < |pod.initContainers| && pod.initContainers[i] == c;
      var init := extras.initContainers[i];
      assert bare[i + 1] == Locked(init) && Locked(init) in bare;
      InitFits(sr.spec, extras, init, pod.volumes);
      StampedFits(Locked(init), pod.volumes);
    }
  }

  /** The gap is real: two requester volumes of one name pass validation. */
  lemma DuplicateVolumeNamesAccepted(spec: Spec)
    ensures
      var v := Volume("data", VolumeSource(Some(""), None, None, None, false, None, ""));
      var extras := PodExtras([], [], [v, v], [], [], []);
      ExtrasOk(spec, extras) && !VolumeNamesDistinct(extras.volumes)
  {
    var v := Volume("data", VolumeSource(Some(""), None, None, None, false, None, ""));
    var volumes := [v, v];
    assert v.name[0] == 'd' && STDIN_VOLUME[0] == 's' && TMP_VOLUME[0] == 's' && HOME_VOLUME[0] == 's';
    assert volumes[0].name == volumes[1].name;
  }
}
