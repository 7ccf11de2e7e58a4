/** Rendering the golden-path templates with the values of a workload. */
module Rendering {
  import opened Wrappers
  import opened Text
  import opened Template
  import opened TemplateOrder

  datatype Vars = Vars(
    app: string, appUC: string, group: string, groupUC: string, ns: string, repoURL: string, repoPath: string,
    hostname: string, gatewayPort: string, chartRepo: string, chartRevision: string, chartPath: string,
    targetRevision: string, serviceAccounts: string, helmValuesIndented: string, gitopsHelmValues: string)

  datatype DefaultsConfig = DefaultsConfig(
    repoPath: string, gatewayPort: string, chartRevision: string, targetRevision: string, hostnamePattern: string)

  function OrElse(s: string, fallback: string): string { if s == "" then fallback else s }

  function WithDefaults(v: Vars, cfg: DefaultsConfig): Vars {
    v.(repoPath := OrElse(v.repoPath, cfg.repoPath),
       gatewayPort := OrElse(v.gatewayPort, cfg.gatewayPort),
       chartRepo := OrElse(v.chartRepo, v.repoURL),
       chartRevision := OrElse(v.chartRevision, cfg.chartRevision),
       targetRevision := OrElse(v.targetRevision, cfg.targetRevision),
       hostname := OrElse(v.hostname, ReplaceAll(cfg.hostnamePattern, "{{APP}}", v.app)))
  }

  function Replacements(v: Vars): map<string, string> {
    map["APP" := v.app, "APP_UC" := v.appUC, "GROUP" := v.group, "GROUP_UC" := v.groupUC, "NAMESPACE" := v.ns,
        "REPO_URL" := v.repoURL, "REPO_PATH" := v.repoPath, "HOSTNAME" := v.hostname,
        "GATEWAY_PORT" := v.gatewayPort, "CHART_REPO" := v.chartRepo, "CHART_REVISION" := v.chartRevision,
        "CHART_PATH" := v.chartPath, "TARGET_REVISION" := v.targetRevision,
        "SERVICE_ACCOUNTS" := v.serviceAccounts, "REPO_HELM_SETTINGS" := v.helmValuesIndented,
        "GITOPS_HELM_SETTINGS" := v.gitopsHelmValues]
  }

  method Defaults(v0: Vars, cfg: DefaultsConfig) returns (v: Vars)
    ensures v == WithDefaults(v0, cfg)
  {
    v := v0;
    if v.repoPath == "" { v := v.(repoPath := cfg.repoPath); }
    if v.gatewayPort == "" { v := v.(gatewayPort := cfg.gatewayPort); }
    if v.chartRepo == "" { v := v.(chartRepo := v.repoURL); }
    if v.chartRevision == "" { v := v.(chartRevision := cfg.chartRevision); }
    if v.targetRevision == "" { v := v.(targetRevision := cfg.targetRevision); }
    if v.hostname == "" { v := v.(hostname := ReplaceAll(cfg.hostnamePattern, "{{APP}}", v.app)); }
  }

  /** Every text a caller can pass, whatever it looks like, is folded over the keys in the order the map yields them; a
      template has all its holes filled at once if no value opens another key. */
  method Render(content0: string, v0: Vars, cfg: DefaultsConfig) returns (content: string)
    ensures var texts := Replacements(WithDefaults(v0, cfg));
            exists order :: Enumerates(order, texts.Keys) && content == Fold(content0, order, texts)
    ensures var texts := Replacements(WithDefaults(v0, cfg));
            forall ts :: Valid(ts) && content0 == Source(ts) && Tame(texts) ==> content == Filled(ts, texts, texts.Keys)
  {
    var v := Defaults(v0, cfg);
    var replacements := Replacements(v);
    content := content0;
    ghost var order := [];
    var todo := replacements.Keys;
    while todo != {}
      invariant todo <= replacements.Keys && Enumerates(order, replacements.Keys - todo)
      invariant content == Fold(content0, order, replacements)
    {
      var k :| k in todo;
      FoldSnoc(content0, order, k, replacements);
      content := ReplaceAll(content, Key(k), replacements[k]);
      order := order + [k];
      todo := todo - {k};
    }
    assert Enumerates(order, replacements.Keys);
    forall ts | Valid(ts) && content0 == Source(ts) && Tame(replacements)
      ensures content == Filled(ts, replacements, replacements.Keys)
    {
      KeysBraceFree(v);
      TameFills(ts, order, replacements);
    }
  }

  const OWN_KEYS := {"APP", "APP_UC", "GROUP", "GROUP_UC", "NAMESPACE", "HOSTNAME", "GATEWAY_PORT", "SERVICE_ACCOUNTS"}

  const REPOSITORY_KEYS := {"REPO_URL", "REPO_PATH", "CHART_REPO", "CHART_REVISION", "CHART_PATH", "TARGET_REVISION",
                            "REPO_HELM_SETTINGS", "GITOPS_HELM_SETTINGS"}

  lemma OwnKeysBraceFree(n: string)
    requires n in OWN_KEYS
    ensures BraceFree(n)
  {
  }

  lemma RepositoryKeysBraceFree(n: string)
    requires n in REPOSITORY_KEYS
    ensures BraceFree(n)
  {
  }

  lemma KeysBraceFree(v: Vars)
    ensures NamesOk(Replacements(v))
  {
    forall n | n in Replacements(v) ensures BraceFree(n) {
      if n !in OWN_KEYS { RepositoryKeysBraceFree(n); } else { OwnKeysBraceFree(n); }
    }
  }

  /** Whatever the template, all renderings of it with these values agree exactly if no value opens another key. */
  lemma RenderOrderExactly(v: Vars, cfg: DefaultsConfig)
    ensures OrderFree(Replacements(WithDefaults(v, cfg))) <==> Tame(Replacements(WithDefaults(v, cfg)))
  {
    KeysBraceFree(WithDefaults(v, cfg));
    OrderFreeExactly(Replacements(WithDefaults(v, cfg)));
  }

  /** A text that is just a key becomes the key's value. */
  lemma KeyRendered(v: Vars, order: seq<string>, name: string)
    requires var texts := Replacements(v); Tame(texts) && Enumerates(order, texts.Keys) && name in texts
    ensures Fold("{{" + name + "}}", order, Replacements(v)) == Replacements(v)[name]
  {
    var texts, ts := Replacements(v), [Hole(name)];
    KeysBraceFree(v);
    assert Source(ts) == Key(name) + Source([]) == Key(name);
    TameFills(ts, order, texts);
    assert Filled(ts, texts, texts.Keys) == texts[name] + Filled([], texts, texts.Keys);
  }

  /** What stands in a rendered text for a key. */
  function Shown(name: string, v: Vars, cfg: DefaultsConfig, order: seq<string>): string
    requires Enumerates(order, Replacements(WithDefaults(v, cfg)).Keys)
  {
    Fold("{{" + name + "}}", order, Replacements(WithDefaults(v, cfg)))
  }

  ghost predicate TameOrder(v: Vars, cfg: DefaultsConfig, order: seq<string>) {
    var texts := Replacements(WithDefaults(v, cfg));
    Tame(texts) && Enumerates(order, texts.Keys)
  }

  /** The names of the workload are shown under their keys. */
  lemma IdentityShown(v0: Vars, cfg: DefaultsConfig, order: seq<string>)
    requires TameOrder(v0, cfg, order)
    ensures Shown("APP", v0, cfg, order) == v0.app
    ensures Shown("APP_UC", v0, cfg, order) == v0.appUC
    ensures Shown("GROUP", v0, cfg, order) == v0.group
  {
    var v := WithDefaults(v0, cfg);
    KeyRendered(v, order, "APP");
    KeyRendered(v, order, "APP_UC");
    KeyRendered(v, order, "GROUP");
  }

  lemma PlaceShown(v0: Vars, cfg: DefaultsConfig, order: seq<string>)
    requires TameOrder(v0, cfg, order)
    ensures Shown("GROUP_UC", v0, cfg, order) == v0.groupUC
    ensures Shown("NAMESPACE", v0, cfg, order) == v0.ns
    ensures Shown("REPO_URL", v0, cfg, order) == v0.repoURL
  {
    var v := WithDefaults(v0, cfg);
    KeyRendered(v, order, "GROUP_UC");
    KeyRendered(v, order, "NAMESPACE");
    KeyRendered(v, order, "REPO_URL");
  }

  /** What is not given is shown with its default. */
  lemma RepositoryShown(v0: Vars, cfg: DefaultsConfig, order: seq<string>)
    requires TameOrder(v0, cfg, order)
    ensures Shown("REPO_PATH", v0, cfg, order) == (if v0.repoPath == "" then cfg.repoPath else v0.repoPath)
    ensures Shown("GATEWAY_PORT", v0, cfg, order) == (if v0.gatewayPort == "" then cfg.gatewayPort else v0.gatewayPort)
  {
    var v := WithDefaults(v0, cfg);
    KeyRendered(v, order, "REPO_PATH");
    KeyRendered(v, order, "GATEWAY_PORT");
  }

  lemma ChartShown(v0: Vars, cfg: DefaultsConfig, order: seq<string>)
    requires TameOrder(v0, cfg, order)
    ensures Shown("CHART_REPO", v0, cfg, order) == (if v0.chartRepo == "" then v0.repoURL else v0.chartRepo)
    ensures Shown("CHART_REVISION", v0, cfg, order)
         == if v0.chartRevision == "" then cfg.chartRevision else v0.chartRevision
  {
    var v := WithDefaults(v0, cfg);
    KeyRendered(v, order, "CHART_REPO");
    KeyRendered(v, order, "CHART_REVISION");
  }

  lemma TargetShown(v0: Vars, cfg: DefaultsConfig, order: seq<string>)
    requires TameOrder(v0, cfg, order)
    ensures Shown("CHART_PATH", v0, cfg, order) == v0.chartPath
    ensures Shown("TARGET_REVISION", v0, cfg, order)
         == if v0.targetRevision == "" then cfg.targetRevision else v0.targetRevision
    ensures Shown("SERVICE_ACCOUNTS", v0, cfg, order) == v0.serviceAccounts
  {
    var v := WithDefaults(v0, cfg);
    KeyRendered(v, order, "CHART_PATH");
    KeyRendered(v, order, "TARGET_REVISION");
    KeyRendered(v, order, "SERVICE_ACCOUNTS");
  }

  lemma SettingsShown(v0: Vars, cfg: DefaultsConfig, order: seq<string>)
    requires TameOrder(v0, cfg, order)
    ensures Shown("REPO_HELM_SETTINGS", v0, cfg, order) == v0.helmValuesIndented
    ensures Shown("GITOPS_HELM_SETTINGS", v0, cfg, order) == v0.gitopsHelmValues
  {
    var v := WithDefaults(v0, cfg);
    KeyRendered(v, order, "REPO_HELM_SETTINGS");
    KeyRendered(v, order, "GITOPS_HELM_SETTINGS");
  }

  /** A host name that is given is shown as it is; otherwise the pattern decides, with the application in its place. */
  lemma HostnameShown(ts: seq<Token>, v0: Vars, cfg: DefaultsConfig, order: seq<string>)
    requires TameOrder(v0, cfg, order) && Valid(ts) && cfg.hostnamePattern == Source(ts)
    ensures Shown("HOSTNAME", v0, cfg, order)
         == if v0.hostname == "" then Filled(ts, map["APP" := v0.app], {"APP"}) else v0.hostname
  {
    KeyRendered(WithDefaults(v0, cfg), order, "HOSTNAME");
    if v0.hostname == "" { HostnameFromPattern(ts, v0, cfg); }
  }

  /** A host name that was not given is the pattern with the application in its place, the same as rendering the
      pattern; defaults are filled in once and for all. */
  lemma HostnameFromPattern(ts: seq<Token>, v: Vars, cfg: DefaultsConfig)
    requires Valid(ts) && cfg.hostnamePattern == Source(ts) && v.hostname == ""
    ensures WithDefaults(v, cfg).hostname == Filled(ts, map["APP" := v.app], {"APP"})
    ensures WithDefaults(WithDefaults(v, cfg), cfg) == WithDefaults(v, cfg)
  {
    var texts := map["APP" := v.app];
    assert Key("APP") == "{{APP}}";
    FilledNothing(ts, texts);
    FillNext(ts, texts, {}, "APP");
    assert {} + {"APP"} == {"APP"};
  }
}
