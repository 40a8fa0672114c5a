/** executionFingerprint (retry.go): the digest that should decide whether two requests run the
    same thing, and how far it does. The digest is taken of the canonical JSON of this record, and
    both steps are modelled as injective, so the record itself stands for the fingerprint. */
module Fingerprint {
  import opened Prelude
  import opened SudoTypes
  import opened PodBuild
  import opened Validation
  import AutoApprove
  import Profiles

  datatype Input = Input(spec: Spec, resolvedImage: string)

  /** The spec with attribution removed and every default written out. */
  function Normalised(spec: Spec, controllerNamespace: string): Spec {
    var s := spec.(requester := "", reason := "", submittedBy := "", retryOf := None);
    var s := if s.image == "" && s.profile == "" then s.(profile := Profiles.DEFAULT_PROFILE) else s;
    var s := if s.namespace == "" then s.(namespace := controllerNamespace) else s;
    var s := if s.ttl.None? then s.(ttl := Some(DEFAULT_POST_APPROVAL)) else s;
    if s.clusterAdmin.None? then s.(clusterAdmin := Some(s.namespace == controllerNamespace)) else s
  }

  /** None is the error for a spec whose profile does not resolve. */
  function ExecutionFingerprint(cfg: Config, sr: Request): Option<Input> {
    var effective := Normalised(sr.spec, cfg.Namespace());
    if sr.status.resolution.image != "" then Some(Input(effective, sr.status.resolution.image))
    else
      var resolved := Profiles.ResolveProfile(effective);
      if resolved.None? then None else Some(Input(effective, resolved.value.image))
  }

  /** The persisted image is the one the spec resolves to. handleNew establishes this and the rest of
      the lifecycle keeps it. */
  predicate ImageSettled(sr: Request) {
    sr.status.resolution.image != "" ==>
      var resolved := Profiles.ResolveProfile(sr.spec);
      resolved.Some? && sr.status.resolution.image == resolved.value.image
  }

  lemma NormalisedResolvesAlike(cfg: Config, spec: Spec)
    ensures Profiles.ResolveProfile(Normalised(spec, cfg.Namespace())) == Profiles.ResolveProfile(spec)
  {
    assert Profiles.DEFAULT_PROFILE != "";
  }

  /** handleNew's resolution leaves the fingerprint unchanged, so a request counts as the same
      duplicate before and after it is picked up. */
  lemma ResolutionKeepsFingerprint(cfg: Config, sr: Request, r: Resolution)
    requires sr.status.resolution.image == ""
    requires Profiles.ResolveAndPreflight(cfg, sr.spec) == Some(r)
    ensures ExecutionFingerprint(cfg, sr.(status := sr.status.(resolution := r))) == ExecutionFingerprint(cfg, sr)
    ensures ImageSettled(sr.(status := sr.status.(resolution := r)))
  {
  }

  /** Requester, reason, submitter and lineage never reach the digest; nor does any status field but
      the resolved image. */
  lemma AttributionIsInvisible(cfg: Config, sr: Request, requester: string, reason: string, submittedBy: string,
                               retryOf: Option<Uid>, status: Status)
    requires status.resolution.image == sr.status.resolution.image
    ensures
      var spec := sr.spec.(requester := requester, reason := reason, submittedBy := submittedBy, retryOf := retryOf);
      ExecutionFingerprint(cfg, sr.(spec := spec, status := status)) == ExecutionFingerprint(cfg, sr)
  {
  }

  lemma SameNormalisedSameChoices(cfg: Config, a: Spec, b: Spec)
    requires Normalised(a, cfg.Namespace()) == Normalised(b, cfg.Namespace())
    requires SpecExtrasOk(cfg, a) && SpecExtrasOk(cfg, b)
    ensures ExecutorNamespace(a, cfg.Namespace()) == ExecutorNamespace(b, cfg.Namespace())
    ensures ClusterAdminEnabled(a, cfg.Namespace()) == ClusterAdminEnabled(b, cfg.Namespace())
    ensures TtlSecondsAfterApproval(a) == TtlSecondsAfterApproval(b)
    ensures ShellCommand(a) == ShellCommand(b) && a.command == b.command && a.stdin == b.stdin
    ensures DecodePodExtras(cfg.lib, a) == DecodePodExtras(cfg.lib, b)
  {
    var na, nb := Normalised(a, cfg.Namespace()), Normalised(b, cfg.Namespace());
    assert na.namespace == ExecutorNamespace(a, cfg.Namespace()) && nb.namespace == ExecutorNamespace(b, cfg.Namespace());
    assert cfg.Namespace() != "";
    DefaultsAreEffective(cfg, a);
    DefaultsAreEffective(cfg, b);
  }

  /** Writing the defaults out changes none of the choices the Job is built from. */
  lemma DefaultsAreEffective(cfg: Config, spec: Spec)
    ensures
      var n := Normalised(spec, cfg.Namespace());
      && n.namespace == ExecutorNamespace(spec, cfg.Namespace())
      && ClusterAdminEnabled(n, cfg.Namespace()) == ClusterAdminEnabled(spec, cfg.Namespace())
      && TtlSecondsAfterApproval(n) == TtlSecondsAfterApproval(spec)
      && ShellCommand(n) == ShellCommand(spec)
      && n.command == spec.command && n.stdin == spec.stdin
      && DecodePodExtras(cfg.lib, n) == DecodePodExtras(cfg.lib, spec)
  {
    var n := Normalised(spec, cfg.Namespace());
    assert n.env == spec.env && n.envFrom == spec.envFrom && n.volumes == spec.volumes && n.mounts == spec.mounts;
    assert n.initContainers == spec.initContainers && n.imagePullSecrets == spec.imagePullSecrets;
  }

  lemma FingerprintFixesImage(cfg: Config, sr: Request)
    requires ExecutionFingerprint(cfg, sr).Some?
    ensures ExecutionFingerprint(cfg, sr).value.resolvedImage == Profiles.ImageFor(sr)
  {
  }

  ghost predicate SameMintedNames(a: Request, b: Request) {
    a.status.exec.stdinName == b.status.exec.stdinName
  }

  /** Which argv two requests with one fingerprint run is decided by the gate alone. */
  lemma SameArgvExactlyWhen(cfg: Config, a: Request, b: Request)
    requires a.spec.command == b.spec.command && Profiles.ImageFor(a) == Profiles.ImageFor(b)
    requires ShellCommand(a.spec) == ShellCommand(b.spec)
    ensures
      var gate := AutoApprove.ParsedCommand(cfg, a.spec.command, Profiles.ImageFor(a));
      ExecutorCommand(cfg, a) == ExecutorCommand(cfg, b)
      <==> gate.None? || HasSpecExtras(a.spec) == HasSpecExtras(b.spec) || gate.value == ShellCommand(a.spec)
  {
  }

  lemma SamePodExactlyWhen(cfg: Config, a: Request, b: Request, extras: PodExtras)
    requires Profiles.ImageFor(a) == Profiles.ImageFor(b)
    requires a.spec.stdin == b.spec.stdin && SameMintedNames(a, b)
    requires ClusterAdminEnabled(a.spec, cfg.Namespace()) == ClusterAdminEnabled(b.spec, cfg.Namespace())
    ensures PodFor(cfg, a, extras) == PodFor(cfg, b, extras) <==> ExecutorCommand(cfg, a) == ExecutorCommand(cfg, b)
  {
  }

  /** Fingerprint soundness, with its exact condition. Two validated requests with one fingerprint and
      the same minted names get the same Job, ownership aside, if and only if no auto-approve rule
      matches, or both requests are (or are not) using widened fields, or the matched argv happens to
      be the shell form. */
  lemma FingerprintSoundness(cfg: Config, a: Request, b: Request, name: string)
    requires SpecExtrasOk(cfg, a.spec) && SpecExtrasOk(cfg, b.spec)
    requires ExecutionFingerprint(cfg, a).Some?
    requires ExecutionFingerprint(cfg, a) == ExecutionFingerprint(cfg, b)
    requires SameMintedNames(a, b)
    ensures
      var xa, xb := DecodePodExtras(cfg.lib, a.spec).value, DecodePodExtras(cfg.lib, b.spec).value;
      var gate := AutoApprove.ParsedCommand(cfg, a.spec.command, Profiles.ImageFor(a));
      JobFor(cfg, a, xa, name).(owner := None) == JobFor(cfg, b, xb, name).(owner := None)
      <==> gate.None? || HasSpecExtras(a.spec) == HasSpecExtras(b.spec) || gate.value == ShellCommand(a.spec)
  {
    hide PodFor, ExecutorCommand, AutoApprove.ParsedCommand, HasSpecExtras, Profiles.ImageFor, DecodePodExtras, Normalised, ExtrasOk;
    SameNormalisedSameChoices(cfg, a.spec, b.spec);
    FingerprintFixesImage(cfg, a);
    FingerprintFixesImage(cfg, b);
    SameArgvExactlyWhen(cfg, a, b);
    SamePodExactlyWhen(cfg, a, b, DecodePodExtras(cfg.lib, a.spec).value);
  }

  /** The condition is needed: hasSpecExtras looks at the raw spec, so a controller namespace spelled
      out and the same namespace left to default share a fingerprint, yet only the second runs the
      tokenised argv when a rule matches. */
  lemma SpelledOutNamespaceRunsDifferently(cfg: Config, a: Request, tokens: seq<string>)
    requires !HasSpecExtras(a.spec)
    requires AutoApprove.ParsedCommand(cfg, a.spec.command, Profiles.ImageFor(a)) == Some(tokens)
    requires tokens != ShellCommand(a.spec)
    ensures
      var b := a.(spec := a.spec.(namespace := cfg.Namespace()));
      && ExecutionFingerprint(cfg, a) == ExecutionFingerprint(cfg, b)
      && ExecutorCommand(cfg, a) == tokens
      && ExecutorCommand(cfg, b) == ShellCommand(b.spec) != tokens
  {
  }
}
