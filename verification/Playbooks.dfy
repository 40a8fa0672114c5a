/** The cleanup playbook's allowlist (playbooks.go). */
module Playbooks {
  import opened Prelude
  import opened SudoTypes
  import opened Lifecycle
  import opened Validation

  /** jobTerminal */
  predicate JobTerminal(job: TargetJob) {
    exists c :: c in job.conditions && c.status == "True" && (c.kind == "Complete" || c.kind == "Failed")
  }

  lemma TerminalExactlyWhen(job: TargetJob)
    ensures JobTerminal(job) <==>
              Condition("Complete", "True") in job.conditions || Condition("Failed", "True") in job.conditions
  {
  }

  /** The first owner marked as controller decides; a Job with owners but no controller is nobody's. */
  predicate MatchesRule(name: string, owners: seq<OwnerRef>, rule: CleanupRule) {
    if owners == [] then exists p :: p in rule.standalonePrefixes && HasPrefix(name, p)
    else MatchesOwners(owners, rule)
  }

  predicate MatchesOwners(owners: seq<OwnerRef>, rule: CleanupRule) {
    owners != [] &&
    if owners[0].controller then
      owners[0].apiVersion == "batch/v1" && owners[0].kind == "CronJob" && owners[0].name in rule.cronJobs
    else MatchesOwners(owners[1..], rule)
  }

  method MatchesTerminalJobRule(name: string, owners: seq<OwnerRef>, rule: CleanupRule) returns (ok: bool)
    ensures ok <==> MatchesRule(name, owners, rule)
  {
    for i := 0 to |owners|
      invariant MatchesOwners(owners, rule) == MatchesOwners(owners[i..], rule)
    {
      assert owners[i..][1..] == owners[i + 1..];
      if owners[i].controller {
        return owners[i].apiVersion == "batch/v1" && owners[i].kind == "CronJob" && owners[i].name in rule.cronJobs;
      }
    }
    if |owners| != 0 {
      return false;
    }
    for i := 0 to |rule.standalonePrefixes|
      invariant forall k :: 0 <= k < i ==> !HasPrefix(name, rule.standalonePrefixes[k])
    {
      if HasPrefix(name, rule.standalonePrefixes[i]) {
        return true;
      }
    }
    return false;
  }

  predicate RuleApplies(spec: Spec, rule: CleanupRule, target: Target) {
    rule.requester == spec.requester && rule.namespace == target.namespace
  }

  /** Some rule for this requester and namespace admits the Job, and it is terminal. */
  predicate Vetted(cfg: Config, spec: Spec, job: TargetJob) {
    var target := CleanupParameters(cfg.lib, spec);
    && JobTerminal(job) && target.Some? && cfg.playbookRules.Some?
    && exists rule :: rule in cfg.playbookRules.value && RuleApplies(spec, rule, target.value)
                      && MatchesRule(target.value.name, job.owners, rule)
  }

  predicate InFamily(name: string, rule: CleanupRule) {
    || (exists c :: c in rule.cronJobs && HasPrefix(name, c + "-"))
    || (exists p :: p in rule.standalonePrefixes && HasPrefix(name, p))
  }

  /** A missing Job counts as cleaned up only if its name fits an allowlisted family. */
  predicate MayBeAbsent(cfg: Config, spec: Spec) {
    var target := CleanupParameters(cfg.lib, spec);
    && target.Some? && cfg.playbookRules.Some?
    && exists rule :: rule in cfg.playbookRules.value && RuleApplies(spec, rule, target.value)
                      && InFamily(target.value.name, rule)
  }

  /** The rules for a requester and namespace, in order. */
  method MatchingRules(cfg: Config, spec: Spec, target: Target) returns (matching: seq<CleanupRule>)
    requires cfg.playbookRules.Some?
    ensures forall r :: r in matching <==> r in cfg.playbookRules.value && RuleApplies(spec, r, target)
  {
    var rules := cfg.playbookRules.value;
    matching := [];
    for i := 0 to |rules|
      invariant forall r :: r in matching <==> r in rules[..i] && RuleApplies(spec, r, target)
    {
      assert rules[..i + 1] == rules[..i] + [rules[i]];
      if rules[i].requester == spec.requester && rules[i].namespace == target.namespace {
        matching := matching + [rules[i]];
      }
    }
    assert rules[..|rules|] == rules;
  }

  method FitsFamily(name: string, rule: CleanupRule) returns (ok: bool)
    ensures ok <==> InFamily(name, rule)
  {
    for i := 0 to |rule.cronJobs|
      invariant forall k :: 0 <= k < i ==> !HasPrefix(name, rule.cronJobs[k] + "-")
    {
      if HasPrefix(name, rule.cronJobs[i] + "-") {
        return true;
      }
    }
    for i := 0 to |rule.standalonePrefixes|
      invariant forall k :: 0 <= k < i ==> !HasPrefix(name, rule.standalonePrefixes[k])
    {
      if HasPrefix(name, rule.standalonePrefixes[i]) {
        return true;
      }
    }
    return false;
  }

  method FitsAnyFamily(name: string, rules: seq<CleanupRule>) returns (ok: bool)
    ensures ok <==> exists rule :: rule in rules && InFamily(name, rule)
  {
    for i := 0 to |rules|
      invariant forall k :: 0 <= k < i ==> !InFamily(name, rules[k])
    {
      ok := FitsFamily(name, rules[i]);
      if ok {
        return;
      }
    }
    return false;
  }

  method MatchesAnyRule(name: string, owners: seq<OwnerRef>, rules: seq<CleanupRule>) returns (ok: bool)
    ensures ok <==> exists rule :: rule in rules && MatchesRule(name, owners, rule)
  {
    for i := 0 to |rules|
      invariant forall k :: 0 <= k < i ==> !MatchesRule(name, owners, rules[k])
    {
      ok := MatchesTerminalJobRule(name, owners, rules[i]);
      if ok {
        return;
      }
    }
    return false;
  }

  /** What an automatic approval records, if the target as it stands qualifies for one. */
  function Prepared(cfg: Config, spec: Spec, target: Option<TargetJob>): Option<PlaybookState> {
    if target.None? then (if MayBeAbsent(cfg, spec) then Some(PlaybookState(true, None, true)) else None)
    else if Vetted(cfg, spec, target.value) then Some(PlaybookState(true, Some(target.value.uid), false))
    else None
  }

  /** The decision of prepareAutoApprovedPlaybook once the target has been read. */
  method Prepare(cfg: Config, spec: Spec, target: Option<TargetJob>, matching: seq<CleanupRule>)
    returns (prepared: Option<PlaybookState>)
    requires cfg.playbookRules.Some? && CleanupParameters(cfg.lib, spec).Some?
    requires forall r :: r in matching <==>
               r in cfg.playbookRules.value && RuleApplies(spec, r, CleanupParameters(cfg.lib, spec).value)
    ensures prepared == Prepared(cfg, spec, target)
  {
    var name := CleanupParameters(cfg.lib, spec).value.name;
    if target.None? {
      var fits := FitsAnyFamily(name, matching);
      return if fits then Some(PlaybookState(true, None, true)) else None;
    }
    if !JobTerminal(target.value) {
      return None;
    }
    var matches := MatchesAnyRule(name, target.value.owners, matching);
    return if matches then Some(PlaybookState(true, Some(target.value.uid), false)) else None;
  }
}
