/** The command allowlist of auto_approve.go. */
module AutoApprove {
  import opened Prelude
  import opened SudoTypes
  import Profiles

  function ExpectedImage(rule: AutoApproveRule): string {
    if rule.image == "" then Profiles.DEFAULT_IMAGE else rule.image
  }

  predicate RuleMatches(rule: AutoApproveRule, tokens: seq<string>, image: string) {
    && image == ExpectedImage(rule)
    && ((rule.exact != [] && tokens == rule.exact) || (rule.prefix != [] && rule.prefix <= tokens))
  }

  /** The allowlist's verdict: the parsed argv exactly when some rule admits it. */
  function ParsedCommand(cfg: Config, command: string, image: string): Option<seq<string>> {
    var tokens := cfg.lib.shlexSplit(command);
    if tokens.Some? && tokens.value != []
       && exists rule :: rule in cfg.autoApproveRules && RuleMatches(rule, tokens.value, image)
    then tokens
    else None
  }

  /** Some rule for this image, the default one unless it names another, lists the argv or a non-empty start
      of it. */
  ghost predicate Admits(rules: seq<AutoApproveRule>, tokens: seq<string>, image: string) {
    exists i :: 0 <= i < |rules|
      && image == (if rules[i].image != "" then rules[i].image else Profiles.CATALOG["kubectl"])
      && ((tokens == rules[i].exact && |tokens| > 0)
          || (0 < |rules[i].prefix| <= |tokens| && tokens[..|rules[i].prefix|] == rules[i].prefix))
  }

  lemma ParsedExactlyWhen(cfg: Config, command: string, image: string, tokens: seq<string>)
    ensures ParsedCommand(cfg, command, image) == Some(tokens) <==>
              cfg.lib.shlexSplit(command) == Some(tokens) && tokens != [] && Admits(cfg.autoApproveRules, tokens, image)
  {
    if tokens != [] && Admits(cfg.autoApproveRules, tokens, image) {
      var i :| 0 <= i < |cfg.autoApproveRules|
        && image == (if cfg.autoApproveRules[i].image != "" then cfg.autoApproveRules[i].image else Profiles.CATALOG["kubectl"])
        && ((tokens == cfg.autoApproveRules[i].exact && |tokens| > 0)
            || (0 < |cfg.autoApproveRules[i].prefix| <= |tokens|
                && tokens[..|cfg.autoApproveRules[i].prefix|] == cfg.autoApproveRules[i].prefix));
      assert RuleMatches(cfg.autoApproveRules[i], tokens, image);
    }
  }

  method GetAutoApproveParsedCommand(cfg: Config, command: string, image: string) returns (tokens: seq<string>, ok: bool)
    ensures ok <==> ParsedCommand(cfg, command, image).Some?
    ensures tokens == if ok then ParsedCommand(cfg, command, image).value else []
  {
    var split := cfg.lib.shlexSplit(command);
    if split.None? || split.value == [] {
      return [], false;
    }
    tokens := split.value;
    for r := 0 to |cfg.autoApproveRules|
      invariant forall k :: 0 <= k < r ==> !RuleMatches(cfg.autoApproveRules[k], tokens, image)
    {
      var rule := cfg.autoApproveRules[r];
      if image != ExpectedImage(rule) {
        continue;
      }
      if |rule.exact| > 0 && |tokens| == |rule.exact| {
        var agree := AgreeOn(tokens, rule.exact);
        if agree {
          assert tokens == rule.exact;
          assert RuleMatches(rule, tokens, image);
          return tokens, true;
        }
      }
      if |rule.prefix| > 0 && |tokens| >= |rule.prefix| {
        var agree := AgreeOn(tokens, rule.prefix);
        if agree {
          assert RuleMatches(rule, tokens, image);
          return tokens, true;
        }
      }
    }
    return [], false;
  }

  /** The token-by-token comparison both kinds of rule make. */
  method AgreeOn(tokens: seq<string>, wanted: seq<string>) returns (agree: bool)
    requires |wanted| <= |tokens|
    ensures agree <==> wanted <= tokens
  {
    agree := true;
    for i := 0 to |wanted|
      invariant agree
      invariant wanted[..i] == tokens[..i]
    {
      if tokens[i] != wanted[i] {
        agree := false;
        break;
      }
    }
  }
}
