/** Translation of a project configuration into the remote objects: the property
    bags of each step kind, the step built from one configured step, the full step
    list of a deployment process, and the project record. */
module ProjectBuilder {
  import opened GoStrings
  import opened Octopus
  import opened Schema

  /** A bag written as a list of (key, value) entries, the way a Go map literal
      lists them; a later entry for the same key wins. */
  function BagOf(entries: seq<(string, string)>): (r: Properties)
  {
    if entries == [] then map[]
    else BagOf(entries[..|entries| - 1])[entries[|entries| - 1].0 := entries[|entries| - 1].1]
  }

  function EntryKey(e: (string, string)): string { e.0 }

  /** The keys of a list of entries, in order. */
  function KeysOf(entries: seq<(string, string)>): seq<string>
  {
    MapSeq(EntryKey, entries)
  }

  predicate Distinct(ks: seq<string>)
  {
    forall i, j :: 0 <= i < j < |ks| ==> ks[i] != ks[j]
  }

  /** The keys of a bag are the keys its entries list. */
  lemma {:induction false} BagOfKeys(entries: seq<(string, string)>)
    ensures forall k :: k in BagOf(entries) <==> k in KeysOf(entries)
  {
    if entries != [] {
      var init := entries[..|entries| - 1];
      BagOfKeys(init);
      assert KeysOf(entries) == KeysOf(init) + [entries[|entries| - 1].0];
    }
  }

  /** When no key is listed twice, each listed key maps to its listed value. */
  lemma {:induction false} BagOfLookup(entries: seq<(string, string)>, i: nat)
    requires i < |entries|
    requires Distinct(KeysOf(entries))
    ensures entries[i].0 in BagOf(entries) && BagOf(entries)[entries[i].0] == entries[i].1
  {
    var n := |entries| - 1;
    if i < n {
      var init := entries[..n];
      assert KeysOf(init) == KeysOf(entries)[..n];
      BagOfLookup(init, i);
      assert KeysOf(entries)[i] != KeysOf(entries)[n];
    }
  }

  /** The keys of the fixed Windows-service action bag, in the order written. */
  const WindowsServiceKeyOrder: seq<string> :=
    [CreateOrUpdateServiceKey, ServiceAccountKey, StartModeKey, RunConfigurationTransformsKey,
     UpdateAppSettingsKey, EnabledFeaturesKey, FeedIdKey, PackageIdKey, DownloadOnTentacleKey,
     ServiceNameKey, ExecutablePathKey]

  /** The fixed action bag of a Windows-service step, before the JSON-replacement
      extension. */
  function WindowsServiceEntries(s: WindowsServiceStep): (r: seq<(string, string)>)
    ensures KeysOf(r) == WindowsServiceKeyOrder
  {
    [ (CreateOrUpdateServiceKey, "True"),
      (ServiceAccountKey, s.serviceAccount),
      (StartModeKey, s.serviceStartMode),
      (RunConfigurationTransformsKey, FormatBool(s.common.configurationTransforms)),
      (UpdateAppSettingsKey, FormatBool(s.common.configurationVariables)),
      (EnabledFeaturesKey, WindowsServiceFeatures),
      (FeedIdKey, s.common.feedId),
      (PackageIdKey, PlaceholderPackageId),
      (DownloadOnTentacleKey, "False"),
      (ServiceNameKey, s.serviceName),
      (ExecutablePathKey, s.executablePath) ]
  }

  function WindowsServiceBaseProperties(s: WindowsServiceStep): Properties
  {
    BagOf(WindowsServiceEntries(s))
  }

  /** The keys of the fixed IIS web-site action bag, in the order written. */
  const IisKeyOrder: seq<string> :=
    [DeploymentTypeKey, CreateOrUpdateWebSiteKey, BindingsKey, FrameworkVersionKey, IdentityTypeKey,
     AnonymousAuthenticationKey, BasicAuthenticationKey, WindowsAuthenticationKey,
     WebAppFrameworkVersionKey, WebAppIdentityTypeKey, RunConfigurationTransformsKey,
     UpdateAppSettingsKey, EnabledFeaturesKey, FeedIdKey, DownloadOnTentacleKey, WebRootTypeKey,
     StartApplicationPoolKey, StartWebSiteKey, PackageIdKey, WebSiteNameKey, ApplicationPoolNameKey]

  /** The fixed action bag of an IIS web-site step, before the JSON-replacement
      extension. The pool framework and identity appear under both the web-site
      and the web-application keys. */
  function IisEntries(s: IisWebsiteStep): (r: seq<(string, string)>)
    ensures KeysOf(r) == IisKeyOrder
  {
    [ (DeploymentTypeKey, "webSite"),
      (CreateOrUpdateWebSiteKey, "True"),
      (BindingsKey, DefaultBindings),
      (FrameworkVersionKey, s.applicationPoolFramework),
      (IdentityTypeKey, s.applicationPoolIdentity),
      (AnonymousAuthenticationKey, FormatBool(s.anonymousAuthentication)),
      (BasicAuthenticationKey, FormatBool(s.basicAuthentication)),
      (WindowsAuthenticationKey, FormatBool(s.windowsAuthentication)),
      (WebAppFrameworkVersionKey, s.applicationPoolFramework),
      (WebAppIdentityTypeKey, s.applicationPoolIdentity),
      (RunConfigurationTransformsKey, FormatBool(s.common.configurationTransforms)),
      (UpdateAppSettingsKey, FormatBool(s.common.configurationVariables)),
      (EnabledFeaturesKey, IisFeatures),
      (FeedIdKey, s.common.feedId),
      (DownloadOnTentacleKey, "False"),
      (WebRootTypeKey, "packageRoot"),
      (StartApplicationPoolKey, "True"),
      (StartWebSiteKey, "True"),
      (PackageIdKey, PlaceholderPackageId),
      (WebSiteNameKey, s.websiteName),
      (ApplicationPoolNameKey, s.applicationPoolName) ]
  }

  function IisBaseProperties(s: IisWebsiteStep): Properties
  {
    BagOf(IisEntries(s))
  }

  /** An action bag with the JSON-replacement extension applied: a non-empty
      replacement setting adds its two keys and appends the JSON feature to the
      enabled features (to "" when the bag has none, as Go's `+=` on a missing
      map entry does); an empty one leaves the bag as it is. */
  function WithJsonReplacement(base: Properties, json: string): (r: Properties)
    ensures json == "" ==> r == base
    ensures json != "" ==> r.Keys == base.Keys + {JsonTargetsKey, JsonEnabledKey, EnabledFeaturesKey}
    ensures json != "" ==> r[JsonTargetsKey] == json && r[JsonEnabledKey] == "True"
    ensures json != "" ==> r[EnabledFeaturesKey] == FeaturesOf(base) + JsonFeatureSuffix
  {
    if json == "" then base
    else
      base[JsonTargetsKey := json][JsonEnabledKey := "True"]
          [EnabledFeaturesKey := FeaturesOf(base) + JsonFeatureSuffix]
  }

  /** The enabled-features entry of a bag, or Go's zero value when it is missing. */
  function FeaturesOf(base: Properties): string
  {
    if EnabledFeaturesKey in base then base[EnabledFeaturesKey] else ""
  }

  /** The extension touches no key but its own three. */
  lemma JsonReplacementKeeps(base: Properties, json: string, k: string)
    requires k in base && k != JsonTargetsKey && k != JsonEnabledKey && k != EnabledFeaturesKey
    ensures k in WithJsonReplacement(base, json) && WithJsonReplacement(base, json)[k] == base[k]
  {
  }

  /** The step-level bag: the target roles joined with commas, when the step's
      field map has a roles entry; otherwise no properties. */
  function TargetRoleProperties(roles: Option<seq<string>>): (r: Properties)
    ensures roles.Some? ==> r.Keys == {TargetRolesKey} && r[TargetRolesKey] == Join(roles.value, ",")
    ensures roles.None? ==> r == map[]
  {
    match roles
    case Some(rs) => map[TargetRolesKey := Join(rs, ",")]
    case None => map[]
  }

  /** The step built from a configured step's shared settings, its action type and
      its kind-specific base bag. */
  function StepFor(c: StepCommon, actionType: string, base: Properties): (st: DeploymentStep)
    ensures |st.actions| == 1
    ensures st.name == c.stepName && st.actions[0].name == c.stepName
    ensures st.packageRequirement == LetOctopusDecide
    ensures st.condition == c.stepCondition && st.startTrigger == c.stepStartTrigger
    ensures st.actions[0].actionType == actionType
    ensures st.actions[0].properties == WithJsonReplacement(base, c.jsonFileVariableReplacement)
    ensures st.properties == TargetRoleProperties(c.targetRoles)
  {
    DeploymentStep(
      c.stepName, LetOctopusDecide, c.stepCondition, c.stepStartTrigger,
      [DeploymentAction(c.stepName, actionType, WithJsonReplacement(base, c.jsonFileVariableReplacement))],
      TargetRoleProperties(c.targetRoles))
  }

  /** The step a configured Windows-service step becomes. */
  function WindowsServiceDeploymentStep(s: WindowsServiceStep): (st: DeploymentStep)
    ensures st.name == s.common.stepName && |st.actions| == 1
    ensures st.actions[0].actionType == WindowsServiceActionType
    ensures st.actions[0].properties == WithJsonReplacement(WindowsServiceBaseProperties(s), s.common.jsonFileVariableReplacement)
  {
    StepFor(s.common, WindowsServiceActionType, WindowsServiceBaseProperties(s))
  }

  /** The step a configured IIS web-site step becomes. */
  function IisDeploymentStep(s: IisWebsiteStep): (st: DeploymentStep)
    ensures st.name == s.common.stepName && |st.actions| == 1
    ensures st.actions[0].actionType == IisActionType
    ensures st.actions[0].properties == WithJsonReplacement(IisBaseProperties(s), s.common.jsonFileVariableReplacement)
  {
    StepFor(s.common, IisActionType, IisBaseProperties(s))
  }

  /** `f` applied to each element, in order. */
  function MapSeq<A, B>(f: A -> B, xs: seq<A>): (r: seq<B>)
    ensures |r| == |xs|
    ensures forall i :: 0 <= i < |xs| ==> r[i] == f(xs[i])
  {
    seq(|xs|, i requires 0 <= i < |xs| => f(xs[i]))
  }

  lemma MapSeqSnoc<A, B>(f: A -> B, xs: seq<A>, i: nat)
    requires i < |xs|
    ensures MapSeq(f, xs[..i + 1]) == MapSeq(f, xs[..i]) + [f(xs[i])]
  {
    assert xs[..i + 1][..i] == xs[..i];
  }

  /** The step list a deployment process holds after the rebuild: every
      Windows-service step, then every IIS step, each kind in configuration order. */
  function ProcessSteps(cfg: ProjectConfig): (r: seq<DeploymentStep>)
    ensures |r| == |cfg.windowsServiceSteps| + |cfg.iisWebsiteSteps|
  {
    MapSeq(WindowsServiceDeploymentStep, cfg.windowsServiceSteps)
      + MapSeq(IisDeploymentStep, cfg.iisWebsiteSteps)
  }

  /** Copies the configured roles into a fresh list, one by one. */
  method CollectTargetRoles(roles: seq<string>) returns (slice: seq<string>)
    ensures slice == roles
  {
    slice := [];
    var i := 0;
    while i < |roles|
      invariant 0 <= i <= |roles|
      invariant slice == roles[..i]
    {
      slice := slice + [roles[i]];
      i := i + 1;
    }
  }

  /** Builds one step the way the provider does: the base bag, then the JSON
      replacement keys added in place, then the step-level roles bag. */
  method BuildStep(c: StepCommon, actionType: string, base: Properties) returns (step: DeploymentStep)
    ensures step == StepFor(c, actionType, base)
  {
    var props := base;
    if c.jsonFileVariableReplacement != "" {
      props := props[JsonTargetsKey := c.jsonFileVariableReplacement];
      props := props[JsonEnabledKey := "True"];
      var features := if EnabledFeaturesKey in props then props[EnabledFeaturesKey] else "";
      props := props[EnabledFeaturesKey := features + JsonFeatureSuffix];
    }
    var stepProps: Properties := map[];
    if c.targetRoles.Some? {
      var slice := CollectTargetRoles(c.targetRoles.value);
      stepProps := map[TargetRolesKey := Join(slice, ",")];
    }
    step := DeploymentStep(c.stepName, LetOctopusDecide, c.stepCondition, c.stepStartTrigger,
                           [DeploymentAction(c.stepName, actionType, props)], stepProps);
  }

  method BuildWindowsServiceStep(s: WindowsServiceStep) returns (step: DeploymentStep)
    ensures step == WindowsServiceDeploymentStep(s)
  {
    step := BuildStep(s.common, WindowsServiceActionType, WindowsServiceBaseProperties(s));
  }

  method BuildIisStep(s: IisWebsiteStep) returns (step: DeploymentStep)
    ensures step == IisDeploymentStep(s)
  {
    step := BuildStep(s.common, IisActionType, IisBaseProperties(s));
  }

  /** Appends one step per configured Windows-service step, in order. */
  method AppendWindowsServiceSteps(process: DeploymentProcess, ws: seq<WindowsServiceStep>)
    modifies process`steps
    ensures process.steps == old(process.steps) + MapSeq(WindowsServiceDeploymentStep, ws)
  {
    ghost var prior := process.steps;
    var i := 0;
    assert ws[..i] == [];
    while i < |ws|
      invariant 0 <= i <= |ws|
      invariant process.steps == prior + MapSeq(WindowsServiceDeploymentStep, ws[..i])
    {
      var step := BuildWindowsServiceStep(ws[i]);
      MapSeqSnoc(WindowsServiceDeploymentStep, ws, i);
      assert (prior + MapSeq(WindowsServiceDeploymentStep, ws[..i])) + [step]
          == prior + (MapSeq(WindowsServiceDeploymentStep, ws[..i]) + [step]);
      process.steps := process.steps + [step];
      i := i + 1;
    }
    assert ws[..i] == ws;
  }

  /** Appends one step per configured IIS web-site step, in order. */
  method AppendIisSteps(process: DeploymentProcess, iis: seq<IisWebsiteStep>)
    modifies process`steps
    ensures process.steps == old(process.steps) + MapSeq(IisDeploymentStep, iis)
  {
    ghost var prior := process.steps;
    var i := 0;
    assert iis[..i] == [];
    while i < |iis|
      invariant 0 <= i <= |iis|
      invariant process.steps == prior + MapSeq(IisDeploymentStep, iis[..i])
    {
      var step := BuildIisStep(iis[i]);
      MapSeqSnoc(IisDeploymentStep, iis, i);
      assert (prior + MapSeq(IisDeploymentStep, iis[..i])) + [step]
          == prior + (MapSeq(IisDeploymentStep, iis[..i]) + [step]);
      process.steps := process.steps + [step];
      i := i + 1;
    }
    assert iis[..i] == iis;
  }

  /** Empties the process's step list, then appends one step per configured
      Windows-service step and one per configured IIS step, in that order. Only
      the step list changes; the same process object is returned. */
  method BuildDeploymentProcess(cfg: ProjectConfig, process: DeploymentProcess) returns (r: DeploymentProcess)
    modifies process`steps
    ensures r == process
    ensures process.steps == ProcessSteps(cfg)
    ensures process.id == old(process.id) && process.projectId == old(process.projectId)
  {
    process.steps := [];
    AppendWindowsServiceSteps(process, cfg.windowsServiceSteps);
    assert [] + MapSeq(WindowsServiceDeploymentStep, cfg.windowsServiceSteps)
        == MapSeq(WindowsServiceDeploymentStep, cfg.windowsServiceSteps);
    AppendIisSteps(process, cfg.iisWebsiteSteps);
    r := process;
  }

  /** The library constructor: the given name, lifecycle and group on top of the
      library's own defaults for every other field (`defaults`). */
  function NewProject(name: string, lifecycleId: string, projectGroupId: string, defaults: Project): (p: Project)
    ensures p.name == name && p.lifecycleId == lifecycleId && p.projectGroupId == projectGroupId
    ensures p.(name := defaults.name, lifecycleId := defaults.lifecycleId, projectGroupId := defaults.projectGroupId)
            == defaults
  {
    defaults.(name := name, lifecycleId := lifecycleId, projectGroupId := projectGroupId)
  }

  /** The project record submitted on create and update: the required fields from
      the configuration, and each optional field from the configuration only when
      it is set to a non-empty value. */
  function BuildProjectResource(cfg: ProjectConfig, defaults: Project): (p: Project)
    ensures p.name == cfg.name && p.lifecycleId == cfg.lifecycleId && p.projectGroupId == cfg.projectGroupId
    ensures p.description == if cfg.description != "" then cfg.description else defaults.description
    ensures p.defaultGuidedFailureMode ==
      if cfg.defaultFailureMode != "" then cfg.defaultFailureMode else defaults.defaultGuidedFailureMode
    ensures p.projectConnectivityPolicy.skipMachineBehavior ==
      if cfg.skipMachineBehavior != "" then cfg.skipMachineBehavior
      else defaults.projectConnectivityPolicy.skipMachineBehavior
    ensures p.id == defaults.id && p.deploymentProcessId == defaults.deploymentProcessId
  {
    var project := NewProject(cfg.name, cfg.lifecycleId, cfg.projectGroupId, defaults);
    var project := if cfg.description != "" then project.(description := cfg.description) else project;
    var project := if cfg.defaultFailureMode != "" then project.(defaultGuidedFailureMode := cfg.defaultFailureMode)
                   else project;
    if cfg.skipMachineBehavior != "" then
      project.(projectConnectivityPolicy := project.projectConnectivityPolicy.(skipMachineBehavior := cfg.skipMachineBehavior))
    else project
  }
}
