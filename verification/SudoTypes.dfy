/** The stored objects of types.go, the decoded pod fields of decode.go, and the libraries and
    configuration the controller is started with. */
module SudoTypes {
  import opened Prelude

  type Uid = nat

  // ----- Pod fields -----

  /** One raw item of a widened pod field: its canonical text, or the null that leaves no bytes. */
  datatype Json = Null | Value(text: string)

  datatype EnvVar = EnvVar(name: string, value: string, valueFrom: string)

  datatype EnvFrom = EnvFrom(prefix: string, source: string)

  /** `other` stands for the fields a reviewer is not shown; it is empty when they are all unset. */
  datatype VolumeMount = VolumeMount(name: string, mountPath: string, subPath: string, readOnly: bool, other: string)

  datatype SecretSource = SecretSource(secretName: string, items: string, defaultMode: Option<int>)

  /** Kubernetes leaves every source but one unset; nothing here relies on that. */
  datatype VolumeSource = VolumeSource(
    emptyDir: Option<string>,
    secret: Option<SecretSource>,
    configMap: Option<string>,
    claim: Option<string>,
    projected: bool,
    hostPath: Option<string>,
    other: string)

  datatype Volume = Volume(name: string, source: VolumeSource)

  datatype Security = SecurityUnset | Hardened | RequesterSecurity(text: string)

  datatype Resources = ResourcesUnset | SchedulingHints | RequesterResources(text: string)

  datatype Container = Container(
    name: string,
    image: string,
    command: seq<string>,
    args: seq<string>,
    env: seq<EnvVar>,
    envFrom: seq<EnvFrom>,
    mounts: seq<VolumeMount>,
    security: Security,
    resources: Resources,
    other: string)

  datatype PodExtras = PodExtras(
    env: seq<EnvVar>,
    envFrom: seq<EnvFrom>,
    volumes: seq<Volume>,
    mounts: seq<VolumeMount>,
    initContainers: seq<Container>,
    imagePullSecrets: seq<string>)

  datatype PodSpec = PodSpec(
    serviceAccount: string,
    automountToken: Option<bool>,
    imagePullSecrets: seq<string>,
    runAsUser: int,
    restartPolicy: string,
    initContainers: seq<Container>,
    containers: seq<Container>,
    volumes: seq<Volume>)

  /** What the controller asks the apiserver to create. */
  datatype JobSpec = JobSpec(
    namespace: string,
    name: string,
    owner: Option<Uid>,
    backoffLimit: int,
    ttlAfterFinished: int,
    pod: PodSpec)

  // ----- Requests -----

  datatype Playbook = Playbook(name: string, parameters: map<string, string>)

  datatype Spec = Spec(
    requester: string,
    submittedBy: string,
    retryOf: Option<Uid>,
    reason: string,
    command: string,
    playbook: Option<Playbook>,
    image: string,
    profile: string,
    ttl: Option<int>,
    namespace: string,
    stdin: string,
    env: seq<Json>,
    envFrom: seq<Json>,
    volumes: seq<Json>,
    mounts: seq<Json>,
    initContainers: seq<Json>,
    imagePullSecrets: seq<Json>,
    clusterAdmin: Option<bool>)

  datatype Phase = New | Pending | Approved | Denied | Executed | Failed | Expired

  predicate IsTerminal(p: Phase) {
    p == Executed || p == Failed || p == Denied || p == Expired
  }

  /** Instants are nanoseconds since the epoch; Kubernetes stamps creation in whole seconds. */
  type Time = nat

  const SECOND: nat := 1_000_000_000

  function Unix(t: Time): nat {
    t / SECOND
  }

  datatype Decision = Decision(
    approvedBy: string, approvedAt: Option<Time>,
    deniedBy: string, deniedAt: Option<Time>, denialReason: string)

  datatype Resolution = Resolution(profile: string, image: string, warnings: seq<string>)

  datatype TokenRef = TokenRef(hash: string, expiresAt: Option<Time>, secretName: string)

  datatype PlaybookState = PlaybookState(autoApproved: bool, targetUid: Option<Uid>, targetAbsent: bool)

  datatype CaptureState = CaptureUnset | CaptureComplete | CaptureTruncated | CaptureFailed

  datatype DeliveryState = DeliveryUnset | DeliveryAvailable | DeliveryFailed

  datatype Output = Output(
    secretRef: string,
    capture: CaptureState,
    delivery: DeliveryState,
    failureReason: string,
    totalBytes: Option<nat>,
    retainedBytes: Option<nat>,
    sha256: string)

  datatype ExecState = ExecState(jobName: string, stdinName: string, jobUid: Option<Uid>)

  datatype Assessment = AssessmentUnset | AssessmentPending | AssessmentGenerated(text: Option<string>) | AssessmentFailed

  datatype NotificationState = NotificationUnset | NotificationPending | NotificationDelivered

  datatype Notification = Notification(
    state: NotificationState,
    attempts: nat,
    lastAttempt: Option<Time>,
    nextAttempt: Option<Time>,
    deliveredAt: Option<Time>,
    lastError: string,
    pushoverId: string)

  datatype Status = Status(
    phase: Phase,
    decision: Decision,
    failureReason: string,
    resolution: Resolution,
    playbook: PlaybookState,
    supersededBy: Option<Uid>,
    exitCode: Option<int>,
    output: Output,
    exec: ExecState,
    assessment: Assessment,
    notification: Notification,
    token: TokenRef)

  const NO_TOKEN := TokenRef("", None, "")

  const NO_PLAYBOOK := PlaybookState(false, None, false)

  const NO_OUTPUT := Output("", CaptureUnset, DeliveryUnset, "", None, None, "")

  const EMPTY_STATUS := Status(
    New,
    Decision("", None, "", None, ""),
    "",
    Resolution("", "", []),
    NO_PLAYBOOK,
    None,
    None,
    NO_OUTPUT,
    ExecState("", "", None),
    AssessmentUnset,
    Notification(NotificationUnset, 0, None, None, None, "", ""),
    NO_TOKEN)

  /** `version` is the resourceVersion the apiserver compares on every update; `createdAt` is in
      seconds. */
  datatype Request = Request(
    name: string,
    uid: Uid,
    createdAt: nat,
    version: nat,
    deleting: bool,
    finalizer: bool,
    spec: Spec,
    status: Status)

  // ----- Configuration -----

  datatype AutoApproveRule = AutoApproveRule(exact: seq<string>, prefix: seq<string>, image: string)

  datatype CleanupRule = CleanupRule(
    requester: string, namespace: string, cronJobs: seq<string>, standalonePrefixes: seq<string>)

  /** Library code the controller calls: each field is one pure library function. */
  datatype Library = Library(
    shlexSplit: string -> Option<seq<string>>,
    shellSyntaxOk: string -> bool,
    preflight: (string, Option<string>) -> Option<seq<string>>,
    isDnsLabel: string -> bool,
    isDnsSubdomain: string -> bool,
    sha256: string -> string,
    uidText: Uid -> string,
    decodeEnv: Json -> Option<EnvVar>,
    decodeEnvFrom: Json -> Option<EnvFrom>,
    decodeVolume: Json -> Option<Volume>,
    decodeMount: Json -> Option<VolumeMount>,
    decodeContainer: Json -> Option<Container>,
    decodePullSecret: Json -> Option<string>)

  datatype Config = Config(
    controllerNamespace: string,
    autoApproveRules: seq<AutoApproveRule>,
    playbookRules: Option<seq<CleanupRule>>,
    assessments: bool,
    lib: Library)
  {
    /** configuredControllerNamespace */
    function Namespace(): string {
      if controllerNamespace == "" then "sudo-service" else controllerNamespace
    }
  }
}
