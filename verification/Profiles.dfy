/** The executor profile catalog of profiles.go and the image a request runs (reconciler.go). */
module Profiles {
  import opened Prelude
  import opened SudoTypes

  const DEFAULT_PROFILE := "kubectl"

  const CATALOG: map<string, string> := map[
    "kubectl" := "alpine/k8s:1.35.5@sha256:d870622d004031c4e3ddad80d200692792509176db03c346a8526f4f45476e96",
    "network-tools" := "nicolaka/netshoot:v0.14@sha256:7f08c4aff13ff61a35d30e30c5c1ea8396eac6ab4ce19fd02d5a4b3b5d0d09a2"]

  const DEFAULT_IMAGE: string := CATALOG["kubectl"]

  datatype Resolved = Resolved(profile: Option<string>, image: string)

  /** resolveExecutorProfile: a raw image, or the catalog's image for the (default) profile. */
  function ResolveProfile(spec: Spec): Option<Resolved> {
    if spec.profile != "" && spec.image != "" then None
    else if spec.image != "" then Some(Resolved(None, spec.image))
    else
      var name := if spec.profile == "" then DEFAULT_PROFILE else spec.profile;
      if name in CATALOG then Some(Resolved(Some(name), CATALOG[name])) else None
  }

  /** resolveAndPreflight: None when the command is known not to run as submitted. */
  function ResolveAndPreflight(cfg: Config, spec: Spec): Option<Resolution> {
    var resolved := ResolveProfile(spec);
    if resolved.None? then None
    else
      var warnings := cfg.lib.preflight(spec.command, resolved.value.profile);
      if warnings.None? then None
      else Some(Resolution(if resolved.value.profile.Some? then resolved.value.profile.value else "",
                           resolved.value.image, warnings.value))
  }

  /** A raw image runs as itself, a profile of the catalog as its image, kubectl if neither is named; both, or
      a profile the catalog does not know, is an error. */
  lemma ResolvesExactlyWhen(spec: Spec)
    ensures ResolveProfile(spec).None? <==>
              if spec.image == "" then spec.profile !in {"", "kubectl", "network-tools"} else spec.profile != ""
    ensures ResolveProfile(spec).Some? && spec.image != "" ==> ResolveProfile(spec).value == Resolved(None, spec.image)
    ensures ResolveProfile(spec).Some? && spec.image == "" ==>
              var name := if spec.profile == "" then "kubectl" else spec.profile;
              ResolveProfile(spec).value == Resolved(Some(name), CATALOG[name])
  {
  }

  /** And the preflight of that profile has to let the command through; what it warns of is recorded. */
  lemma PreflightDecides(cfg: Config, spec: Spec)
    ensures ResolveProfile(spec).Some? ==>
              var resolved, r := ResolveProfile(spec).value, ResolveAndPreflight(cfg, spec);
              var warnings := cfg.lib.preflight(spec.command, resolved.profile);
              && (r.Some? <==> warnings.Some?)
              && (r.Some? ==>
                    && r.value.image == resolved.image && r.value.warnings == warnings.value
                    && (resolved.profile.Some? ==> r.value.profile == resolved.profile.value)
                    && (resolved.profile.None? ==> r.value.profile == ""))
    ensures ResolveProfile(spec).None? ==> ResolveAndPreflight(cfg, spec).None?
  {
  }

  function ImageFor(sr: Request): string {
    if sr.status.resolution.image != "" then sr.status.resolution.image
    else if sr.spec.image != "" then sr.spec.image
    else
      var resolved := ResolveProfile(sr.spec);
      if resolved.Some? then resolved.value.image else DEFAULT_IMAGE
  }

  /** Recording the resolution never changes the image: what was reviewed is what runs. */
  lemma ResolutionKeepsImage(cfg: Config, sr: Request, r: Resolution)
    requires ResolveAndPreflight(cfg, sr.spec) == Some(r)
    requires sr.status.resolution.image in {"", r.image}
    ensures r.image != ""
    ensures ImageFor(sr) == ImageFor(sr.(status := sr.status.(resolution := r))) == r.image
  {
    assert CATALOG["kubectl"] != "" && CATALOG["network-tools"] != "";
  }
}
