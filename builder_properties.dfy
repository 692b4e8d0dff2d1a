/** What the translation promises, stated over the specification functions of
    ProjectBuilder: the layout of the rebuilt step list, the shape of each step,
    the JSON-replacement extension, the target-roles bag, boolean rendering,
    schema defaults flowing into the payload, and the project record. */
module BuilderProperties {
  import opened GoStrings
  import opened Octopus
  import opened Schema
  import opened ProjectBuilder

  /** The rebuilt list has one step per configured step: the Windows-service steps
      first, in configuration order, then the IIS steps, in configuration order. */
  lemma ProcessStepsLayout(cfg: ProjectConfig)
    ensures |ProcessSteps(cfg)| == |cfg.windowsServiceSteps| + |cfg.iisWebsiteSteps|
    ensures forall i :: 0 <= i < |cfg.windowsServiceSteps| ==>
      ProcessSteps(cfg)[i] == WindowsServiceDeploymentStep(cfg.windowsServiceSteps[i])
    ensures forall j :: 0 <= j < |cfg.iisWebsiteSteps| ==>
      ProcessSteps(cfg)[|cfg.windowsServiceSteps| + j] == IisDeploymentStep(cfg.iisWebsiteSteps[j])
  {
    var front := MapSeq(WindowsServiceDeploymentStep, cfg.windowsServiceSteps);
    var back := MapSeq(IisDeploymentStep, cfg.iisWebsiteSteps);
    assert ProcessSteps(cfg) == front + back;
    forall i | 0 <= i < |cfg.windowsServiceSteps|
      ensures ProcessSteps(cfg)[i] == WindowsServiceDeploymentStep(cfg.windowsServiceSteps[i])
    {
      assert (front + back)[i] == front[i];
    }
    forall j | 0 <= j < |cfg.iisWebsiteSteps|
      ensures ProcessSteps(cfg)[|cfg.windowsServiceSteps| + j] == IisDeploymentStep(cfg.iisWebsiteSteps[j])
    {
      assert (front + back)[|front| + j] == back[j];
    }
  }

  /** Full replacement: every step of the rebuilt list comes from a configured
      step, so nothing of the previous list survives; a configuration without
      steps empties the process. */
  lemma ProcessStepsOnlyFromConfig(cfg: ProjectConfig)
    ensures forall st :: st in ProcessSteps(cfg) ==>
      (exists w :: w in cfg.windowsServiceSteps && st == WindowsServiceDeploymentStep(w)) ||
      (exists v :: v in cfg.iisWebsiteSteps && st == IisDeploymentStep(v))
    ensures cfg.windowsServiceSteps == [] && cfg.iisWebsiteSteps == [] ==> ProcessSteps(cfg) == []
  {
    var ws, iis := cfg.windowsServiceSteps, cfg.iisWebsiteSteps;
    forall st | st in ProcessSteps(cfg)
      ensures (exists w :: w in ws && st == WindowsServiceDeploymentStep(w)) ||
              (exists v :: v in iis && st == IisDeploymentStep(v))
    {
      var k :| 0 <= k < |ProcessSteps(cfg)| && ProcessSteps(cfg)[k] == st;
      if k < |ws| {
        assert ws[k] in ws;
      } else {
        assert iis[k - |ws|] in iis;
      }
    }
  }

  /** Every rebuilt step has exactly one action, named like the step, of the type
      of its kind; the package requirement is fixed and the condition and start
      trigger are copied from the configured step. */
  lemma ProcessStepsShape(cfg: ProjectConfig, i: nat)
    requires i < |ProcessSteps(cfg)|
    ensures var st := ProcessSteps(cfg)[i];
      && |st.actions| == 1
      && st.actions[0].name == st.name
      && st.packageRequirement == LetOctopusDecide
      && (i < |cfg.windowsServiceSteps| ==>
            var w := cfg.windowsServiceSteps[i];
            && st.name == w.common.stepName
            && st.condition == w.common.stepCondition
            && st.startTrigger == w.common.stepStartTrigger
            && st.actions[0].actionType == WindowsServiceActionType)
      && (i >= |cfg.windowsServiceSteps| ==>
            var v := cfg.iisWebsiteSteps[i - |cfg.windowsServiceSteps|];
            && st.name == v.common.stepName
            && st.condition == v.common.stepCondition
            && st.startTrigger == v.common.stepStartTrigger
            && st.actions[0].actionType == IisActionType)
  {
    ProcessStepsLayout(cfg);
  }

  /** No key of the Windows-service bag is written twice, and the JSON-replacement
      keys are not among them. */
  lemma WindowsServiceKeysDistinct()
    ensures Distinct(WindowsServiceKeyOrder)
    ensures JsonTargetsKey !in WindowsServiceKeyOrder && JsonEnabledKey !in WindowsServiceKeyOrder
  {
  }

  /** The fixed Windows-service bag holds exactly its eleven keys, each with the
      value written for it. */
  lemma WindowsServiceBag(s: WindowsServiceStep)
    ensures forall k :: k in WindowsServiceBaseProperties(s) <==> k in WindowsServiceKeyOrder
    ensures forall i :: 0 <= i < |WindowsServiceEntries(s)| ==>
      var e := WindowsServiceEntries(s)[i];
      e.0 in WindowsServiceBaseProperties(s) && WindowsServiceBaseProperties(s)[e.0] == e.1
  {
    var entries := WindowsServiceEntries(s);
    WindowsServiceKeysDistinct();
    BagOfKeys(entries);
    forall i | 0 <= i < |entries|
      ensures entries[i].0 in BagOf(entries) && BagOf(entries)[entries[i].0] == entries[i].1
    {
      BagOfLookup(entries, i);
    }
  }

  /** Every fixed entry of the Windows-service bag other than the enabled features
      (entry 5) reaches the action unchanged, with or without JSON replacement. */
  lemma WindowsServiceActionEntry(s: WindowsServiceStep, i: nat)
    requires i < |WindowsServiceEntries(s)| && i != 5
    ensures var props := WindowsServiceDeploymentStep(s).actions[0].properties;
      var e := WindowsServiceEntries(s)[i];
      e.0 in props && props[e.0] == e.1
  {
    var entries := WindowsServiceEntries(s);
    WindowsServiceBag(s);
    WindowsServiceKeysDistinct();
    assert entries[i].0 == WindowsServiceKeyOrder[i] != WindowsServiceKeyOrder[5] == EnabledFeaturesKey;
    JsonReplacementKeeps(WindowsServiceBaseProperties(s), s.common.jsonFileVariableReplacement, entries[i].0);
  }

  /** No key of the IIS bag is written twice, and the JSON-replacement keys are
      not among them. */
  lemma IisKeysDistinct()
    ensures Distinct(IisKeyOrder)
    ensures JsonTargetsKey !in IisKeyOrder && JsonEnabledKey !in IisKeyOrder
  {
  }

  /** The fixed IIS bag holds exactly its twenty-one keys, each with the value
      written for it. */
  lemma IisBag(s: IisWebsiteStep)
    ensures forall k :: k in IisBaseProperties(s) <==> k in IisKeyOrder
    ensures forall i :: 0 <= i < |IisEntries(s)| ==>
      var e := IisEntries(s)[i];
      e.0 in IisBaseProperties(s) && IisBaseProperties(s)[e.0] == e.1
  {
    var entries := IisEntries(s);
    IisKeysDistinct();
    BagOfKeys(entries);
    forall i | 0 <= i < |entries|
      ensures entries[i].0 in BagOf(entries) && BagOf(entries)[entries[i].0] == entries[i].1
    {
      BagOfLookup(entries, i);
    }
  }

  /** Every fixed entry of the IIS bag other than the enabled features (entry 12)
      reaches the action unchanged, with or without JSON replacement. */
  lemma IisActionEntry(s: IisWebsiteStep, i: nat)
    requires i < |IisEntries(s)| && i != 12
    ensures var props := IisDeploymentStep(s).actions[0].properties;
      var e := IisEntries(s)[i];
      e.0 in props && props[e.0] == e.1
  {
    var entries := IisEntries(s);
    IisBag(s);
    IisKeysDistinct();
    assert entries[i].0 == IisKeyOrder[i] != IisKeyOrder[12] == EnabledFeaturesKey;
    JsonReplacementKeeps(IisBaseProperties(s), s.common.jsonFileVariableReplacement, entries[i].0);
  }

  /** A Windows-service action's bag: the fixed bag when the JSON-replacement
      setting is empty; otherwise the fixed keys and exactly the two JSON keys,
      holding the setting and "True", with the JSON feature appended to the
      enabled features. */
  lemma WindowsServiceJsonReplacement(s: WindowsServiceStep)
    ensures var props := WindowsServiceDeploymentStep(s).actions[0].properties;
      var json := s.common.jsonFileVariableReplacement;
      && (json == "" ==> props == WindowsServiceBaseProperties(s))
      && (json != "" ==>
            && (forall k :: k in props <==> k in WindowsServiceKeyOrder || k == JsonTargetsKey || k == JsonEnabledKey)
            && props[JsonTargetsKey] == json
            && props[JsonEnabledKey] == "True"
            && props[EnabledFeaturesKey] == WindowsServiceFeatures + JsonFeatureSuffix)
  {
    var entries := WindowsServiceEntries(s);
    WindowsServiceBag(s);
    assert entries[5] == (EnabledFeaturesKey, WindowsServiceFeatures);
    assert WindowsServiceKeyOrder[5] == EnabledFeaturesKey;
  }

  /** The same for an IIS action's bag. */
  lemma IisJsonReplacement(s: IisWebsiteStep)
    ensures var props := IisDeploymentStep(s).actions[0].properties;
      var json := s.common.jsonFileVariableReplacement;
      && (json == "" ==> props == IisBaseProperties(s))
      && (json != "" ==>
            && (forall k :: k in props <==> k in IisKeyOrder || k == JsonTargetsKey || k == JsonEnabledKey)
            && props[JsonTargetsKey] == json
            && props[JsonEnabledKey] == "True"
            && props[EnabledFeaturesKey] == IisFeatures + JsonFeatureSuffix)
  {
    var entries := IisEntries(s);
    IisBag(s);
    assert entries[12] == (EnabledFeaturesKey, IisFeatures);
    assert IisKeyOrder[12] == EnabledFeaturesKey;
  }

  /** The pool framework and identity of an IIS step are written under both the
      web-site and the web-application keys, with or without JSON replacement. */
  lemma IisPoolSettingsWrittenTwice(s: IisWebsiteStep)
    ensures var props := IisDeploymentStep(s).actions[0].properties;
      && FrameworkVersionKey in props && WebAppFrameworkVersionKey in props
      && IdentityTypeKey in props && WebAppIdentityTypeKey in props
      && props[FrameworkVersionKey] == props[WebAppFrameworkVersionKey] == s.applicationPoolFramework
      && props[IdentityTypeKey] == props[WebAppIdentityTypeKey] == s.applicationPoolIdentity
  {
    var entries := IisEntries(s);
    assert entries[3].0 == FrameworkVersionKey;
    assert entries[4].0 == IdentityTypeKey;
    assert entries[8].0 == WebAppFrameworkVersionKey;
    assert entries[9].0 == WebAppIdentityTypeKey;
    IisActionEntry(s, 3);
    IisActionEntry(s, 4);
    IisActionEntry(s, 8);
    IisActionEntry(s, 9);
  }

  /** User-chosen booleans are rendered by FormatBool, so as "true"/"false"; the
      flags the provider fixes are the capitalised "True"/"False". */
  lemma WindowsServiceBooleanRendering(w: WindowsServiceStep)
    ensures var p := WindowsServiceDeploymentStep(w).actions[0].properties;
      && RunConfigurationTransformsKey in p && UpdateAppSettingsKey in p
      && CreateOrUpdateServiceKey in p && DownloadOnTentacleKey in p
      && p[RunConfigurationTransformsKey] == FormatBool(w.common.configurationTransforms)
      && p[UpdateAppSettingsKey] == FormatBool(w.common.configurationVariables)
      && p[CreateOrUpdateServiceKey] == "True" && p[DownloadOnTentacleKey] == "False"
  {
    var entries := WindowsServiceEntries(w);
    assert entries[0].0 == CreateOrUpdateServiceKey;
    assert entries[3].0 == RunConfigurationTransformsKey;
    assert entries[4].0 == UpdateAppSettingsKey;
    assert entries[8].0 == DownloadOnTentacleKey;
    WindowsServiceActionEntry(w, 0);
    WindowsServiceActionEntry(w, 3);
    WindowsServiceActionEntry(w, 4);
    WindowsServiceActionEntry(w, 8);
  }

  lemma IisBooleanRendering(v: IisWebsiteStep)
    ensures var q := IisDeploymentStep(v).actions[0].properties;
      && RunConfigurationTransformsKey in q && UpdateAppSettingsKey in q
      && CreateOrUpdateWebSiteKey in q && DownloadOnTentacleKey in q
      && q[RunConfigurationTransformsKey] == FormatBool(v.common.configurationTransforms)
      && q[UpdateAppSettingsKey] == FormatBool(v.common.configurationVariables)
      && q[CreateOrUpdateWebSiteKey] == "True" && q[DownloadOnTentacleKey] == "False"
  {
    var entries := IisEntries(v);
    assert entries[1].0 == CreateOrUpdateWebSiteKey;
    assert entries[10].0 == RunConfigurationTransformsKey;
    assert entries[11].0 == UpdateAppSettingsKey;
    assert entries[14].0 == DownloadOnTentacleKey;
    IisActionEntry(v, 1);
    IisActionEntry(v, 10);
    IisActionEntry(v, 11);
    IisActionEntry(v, 14);
  }

  /** The three authentication switches of an IIS step are user booleans too. */
  lemma IisAuthenticationRendering(v: IisWebsiteStep)
    ensures var q := IisDeploymentStep(v).actions[0].properties;
      && AnonymousAuthenticationKey in q && BasicAuthenticationKey in q && WindowsAuthenticationKey in q
      && q[AnonymousAuthenticationKey] == FormatBool(v.anonymousAuthentication)
      && q[BasicAuthenticationKey] == FormatBool(v.basicAuthentication)
      && q[WindowsAuthenticationKey] == FormatBool(v.windowsAuthentication)
  {
    var entries := IisEntries(v);
    assert entries[5].0 == AnonymousAuthenticationKey;
    assert entries[6].0 == BasicAuthenticationKey;
    assert entries[7].0 == WindowsAuthenticationKey;
    IisActionEntry(v, 5);
    IisActionEntry(v, 6);
    IisActionEntry(v, 7);
  }

  /** No rendering of a user boolean coincides with the capitalised literals. */
  lemma FormatBoolNeverCapitalised(b: bool)
    ensures FormatBool(b) != "True" && FormatBool(b) != "False"
  {
  }

  /** The step-level bag holds exactly the roles joined with commas, and the
      roles can be read back from it by splitting at the commas when there is at
      least one role and no role contains a comma. */
  lemma {:induction false} TargetRolesRoundTrip(c: StepCommon, actionType: string, base: Properties)
    requires c.targetRoles.Some? && |c.targetRoles.value| >= 1
    requires forall i :: 0 <= i < |c.targetRoles.value| ==> ',' !in c.targetRoles.value[i]
    ensures StepFor(c, actionType, base).properties.Keys == {TargetRolesKey}
    ensures Split(StepFor(c, actionType, base).properties[TargetRolesKey], ',') == c.targetRoles.value
  {
    SplitJoin(c.targetRoles.value, ',');
  }

  /** The two roles of the multi-step example configuration become "Role1,Role2". */
  lemma TargetRolesExample(w: WindowsServiceStep)
    requires w.common.targetRoles == Some(["Role1", "Role2"])
    ensures WindowsServiceDeploymentStep(w).properties == map[TargetRolesKey := "Role1,Role2"]
  {
    assert Join(["Role1", "Role2"], ",") == "Role1" + "," + "Role2";
    assert "Role1" + "," + "Role2" == "Role1,Role2";
  }

  /** A Windows-service step that sets only its required fields gets the schema
      defaults in its payload, and no JSON-replacement keys. */
  lemma WindowsServiceDefaultsInPayload(stepName: string, roles: seq<string>, exe: string, service: string)
    ensures var w := DefaultWindowsServiceStep(stepName, roles, exe, service);
      var st := WindowsServiceDeploymentStep(w);
      var p := st.actions[0].properties;
      && st.condition == DefaultStepCondition && st.startTrigger == DefaultStepStartTrigger
      && p == WindowsServiceBaseProperties(w)
      && RunConfigurationTransformsKey in p && UpdateAppSettingsKey in p && FeedIdKey in p
      && ServiceAccountKey in p && StartModeKey in p && ServiceNameKey in p && ExecutablePathKey in p
      && p[RunConfigurationTransformsKey] == "true" && p[UpdateAppSettingsKey] == "true"
      && p[FeedIdKey] == DefaultFeedId
      && p[ServiceAccountKey] == DefaultServiceAccount && p[StartModeKey] == DefaultServiceStartMode
      && p[ServiceNameKey] == service && p[ExecutablePathKey] == exe
  {
    var w := DefaultWindowsServiceStep(stepName, roles, exe, service);
    var entries := WindowsServiceEntries(w);
    assert entries[1].0 == ServiceAccountKey;
    assert entries[2].0 == StartModeKey;
    assert entries[3].0 == RunConfigurationTransformsKey;
    assert entries[4].0 == UpdateAppSettingsKey;
    assert entries[6].0 == FeedIdKey;
    assert entries[9].0 == ServiceNameKey;
    assert entries[10].0 == ExecutablePathKey;
    WindowsServiceActionEntry(w, 1);
    WindowsServiceActionEntry(w, 2);
    WindowsServiceActionEntry(w, 3);
    WindowsServiceActionEntry(w, 4);
    WindowsServiceActionEntry(w, 6);
    WindowsServiceActionEntry(w, 9);
    WindowsServiceActionEntry(w, 10);
  }

  /** An IIS step that sets only its required fields gets the schema defaults in
      its payload, and no JSON-replacement keys. */
  lemma IisDefaultsInPayload(stepName: string, roles: seq<string>, site: string, pool: string)
    ensures var v := DefaultIisWebsiteStep(stepName, roles, site, pool);
      var st := IisDeploymentStep(v);
      var p := st.actions[0].properties;
      && st.condition == DefaultStepCondition && st.startTrigger == DefaultStepStartTrigger
      && p == IisBaseProperties(v)
      && AnonymousAuthenticationKey in p && BasicAuthenticationKey in p && WindowsAuthenticationKey in p
      && FrameworkVersionKey in p && IdentityTypeKey in p && WebSiteNameKey in p && ApplicationPoolNameKey in p
      && p[AnonymousAuthenticationKey] == "false" && p[BasicAuthenticationKey] == "false"
      && p[WindowsAuthenticationKey] == "true"
      && p[FrameworkVersionKey] == DefaultApplicationPoolFramework
      && p[IdentityTypeKey] == DefaultApplicationPoolIdentity
      && p[WebSiteNameKey] == site && p[ApplicationPoolNameKey] == pool
  {
    var v := DefaultIisWebsiteStep(stepName, roles, site, pool);
    var entries := IisEntries(v);
    assert entries[3].0 == FrameworkVersionKey;
    assert entries[4].0 == IdentityTypeKey;
    assert entries[5].0 == AnonymousAuthenticationKey;
    assert entries[6].0 == BasicAuthenticationKey;
    assert entries[7].0 == WindowsAuthenticationKey;
    assert entries[19].0 == WebSiteNameKey;
    assert entries[20].0 == ApplicationPoolNameKey;
    IisActionEntry(v, 3);
    IisActionEntry(v, 4);
    IisActionEntry(v, 5);
    IisActionEntry(v, 6);
    IisActionEntry(v, 7);
    IisActionEntry(v, 19);
    IisActionEntry(v, 20);
  }

  /** A failure mode or skip-machine behaviour that is one of the listed values
      is never empty, so the project record always takes it from the
      configuration. */
  lemma ProjectEnumeratedFieldsAlwaysSet(cfg: ProjectConfig, defaults: Project)
    requires IsFailureMode(cfg.defaultFailureMode) && IsSkipMachineBehavior(cfg.skipMachineBehavior)
    ensures BuildProjectResource(cfg, defaults).defaultGuidedFailureMode == cfg.defaultFailureMode
    ensures BuildProjectResource(cfg, defaults).projectConnectivityPolicy.skipMachineBehavior == cfg.skipMachineBehavior
  {
  }

  /** A project that sets only its required fields is sent with the failure mode
      "EnvironmentDefault", the skip behaviour "None" and the constructor's
      description. */
  lemma ProjectDefaultsInRecord(name: string, lifecycleId: string, projectGroupId: string, defaults: Project)
    ensures var p := BuildProjectResource(DefaultProjectConfig(name, lifecycleId, projectGroupId), defaults);
      && p.defaultGuidedFailureMode == DefaultFailureMode
      && p.projectConnectivityPolicy.skipMachineBehavior == DefaultSkipMachineBehavior
      && p.description == defaults.description
  {
  }
}
