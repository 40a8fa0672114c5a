/** The lifecycle's questions answered by the actual service. */
module Wiring {
  import opened Prelude
  import opened SudoTypes
  import opened PodBuild
  import opened Lifecycle
  import AutoApprove
  import Playbooks
  import Profiles
  import Validation

  function Gate(cfg: Config, spec: Spec, image: string): Option<seq<string>> {
    if HasSpecExtras(spec) then None else AutoApprove.ParsedCommand(cfg, spec.command, image)
  }

  function RenderJob(cfg: Config, sr: Request, name: string): Option<JobSpec> {
    var extras := DecodePodExtras(cfg.lib, sr.spec);
    if extras.None? then None else Some(JobFor(cfg, sr, extras.value, name))
  }

  function ServiceOf(cfg: Config): Service {
    Service(
      spec => ExecutorNamespace(spec, cfg.Namespace()) != cfg.Namespace(),
      spec => Validation.Accepted(cfg, spec),
      spec => Profiles.ResolveAndPreflight(cfg, spec),
      (spec, image) => Gate(cfg, spec, image),
      (sr, name) => RenderJob(cfg, sr, name),
      (spec, job) => Playbooks.Vetted(cfg, spec, job),
      spec => Playbooks.MayBeAbsent(cfg, spec),
      cfg.lib.sha256)
  }

  /** The controller runs with this configuration, and its digest is never empty. */
  ghost predicate Wired(cfg: Config, svc: Service) {
    svc == ServiceOf(cfg) && forall s :: cfg.lib.sha256(s) != ""
  }

  lemma WiredDigest(cfg: Config, svc: Service)
    requires Wired(cfg, svc)
    ensures svc.sha256 == cfg.lib.sha256 && forall s :: cfg.lib.sha256(s) != ""
  {
  }

  lemma WiredNamespace(cfg: Config, svc: Service, spec: Spec)
    requires Wired(cfg, svc)
    ensures svc.crossNamespace(spec) <==> ExecutorNamespace(spec, cfg.Namespace()) != cfg.Namespace()
  {
  }

  lemma WiredReview(cfg: Config, svc: Service, spec: Spec)
    requires Wired(cfg, svc)
    ensures svc.accepted(spec) <==> Validation.Accepted(cfg, spec)
    ensures svc.resolve(spec) == Profiles.ResolveAndPreflight(cfg, spec)
    ensures svc.mayBeAbsent(spec) <==> Playbooks.MayBeAbsent(cfg, spec)
    ensures forall image {:trigger svc.gate(spec, image)} :: svc.gate(spec, image) == Gate(cfg, spec, image)
    ensures forall job {:trigger svc.vetted(spec, job)} :: svc.vetted(spec, job) <==> Playbooks.Vetted(cfg, spec, job)
  {
    hide Validation.Accepted, Profiles.ResolveAndPreflight, Playbooks.MayBeAbsent, Gate, Playbooks.Vetted;
  }

  /** What was accepted decodes, and renders. */
  lemma AcceptedRenders(cfg: Config, svc: Service, sr: Request, name: string)
    requires Wired(cfg, svc) && svc.accepted(sr.spec)
    ensures DecodePodExtras(cfg.lib, sr.spec).Some?
    ensures svc.jobFor(sr, name) == Some(JobFor(cfg, sr, DecodePodExtras(cfg.lib, sr.spec).value, name))
  {
    hide JobFor, DecodePodExtras;
  }

  /** The Job depends on nothing others can change after the approval. */
  lemma RenderingLasts(cfg: Config, svc: Service, a: Request, b: Request, name: string)
    requires Wired(cfg, svc)
    requires a.spec == b.spec && a.uid == b.uid
    requires a.status.resolution == b.status.resolution && a.status.exec == b.status.exec
    ensures svc.jobFor(a, name) == svc.jobFor(b, name)
  {
    hide DecodePodExtras;
    var extras := DecodePodExtras(cfg.lib, a.spec);
    if extras.Some? {
      assert ExecutorContainer(cfg, a, extras.value) == ExecutorContainer(cfg, b, extras.value);
      assert PodFor(cfg, a, extras.value) == PodFor(cfg, b, extras.value);
    }
  }

  lemma GateIsAutoApproveTokens(cfg: Config, sr: Request)
    ensures AutoApproveTokens(cfg, sr) == Gate(cfg, sr.spec, Profiles.ImageFor(sr))
  {
  }
}
