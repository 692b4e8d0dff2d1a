/** The project resource's configuration, as typed records in place of the
    framework's untyped field map, and the schema's enumerations and defaults.
    A field the schema marks optional without a default holds "" when unset, its
    Go zero value. */
module Schema {
  import opened GoStrings

  /** Settings shared by both step kinds. `targetRoles` is None only when the
      step's field map has no "target_roles" entry; the schema marks the field
      required, so a configured step always has Some. */
  datatype StepCommon = StepCommon(
    stepName: string,
    stepCondition: string,
    stepStartTrigger: string,
    targetRoles: Option<seq<string>>,
    feedId: string,
    configurationTransforms: bool,
    configurationVariables: bool,
    jsonFileVariableReplacement: string)

  datatype Option<T> = None | Some(value: T)

  datatype WindowsServiceStep = WindowsServiceStep(
    common: StepCommon,
    executablePath: string,
    serviceName: string,
    serviceAccount: string,
    serviceStartMode: string)

  datatype IisWebsiteStep = IisWebsiteStep(
    common: StepCommon,
    websiteName: string,
    anonymousAuthentication: bool,
    basicAuthentication: bool,
    windowsAuthentication: bool,
    applicationPoolName: string,
    applicationPoolFramework: string,
    applicationPoolIdentity: string)

  datatype ProjectConfig = ProjectConfig(
    name: string,
    lifecycleId: string,
    projectGroupId: string,
    description: string,
    defaultFailureMode: string,
    skipMachineBehavior: string,
    windowsServiceSteps: seq<WindowsServiceStep>,
    iisWebsiteSteps: seq<IisWebsiteStep>)

  // Project-level enumerations and defaults.
  const FailureModes: seq<string> := ["EnvironmentDefault", "Off", "On"]
  const DefaultFailureMode := "EnvironmentDefault"
  const SkipMachineBehaviors: seq<string> := ["SkipUnavailableMachines", "None"]
  const DefaultSkipMachineBehavior := "None"

  // Common step enumerations and defaults.
  const StepConditions: seq<string> := ["success", "failure", "always", "variable"]
  const DefaultStepCondition := "success"
  const StepStartTriggers: seq<string> := ["startafterprevious", "startwithprevious"]
  const DefaultStepStartTrigger := "StartAfterPrevious"
  const DefaultFeedId := "feeds-builtin"
  const DefaultConfigurationTransforms := true
  const DefaultConfigurationVariables := true

  // Windows-service step enumerations and defaults.
  const DefaultServiceAccount := "LocalSystem"
  const ServiceStartModes: seq<string> := ["auto", "delayed-auto", "demand", "unchanged"]
  const DefaultServiceStartMode := "auto"

  // IIS web-site step enumerations and defaults.
  const DefaultAnonymousAuthentication := false
  const DefaultBasicAuthentication := false
  const DefaultWindowsAuthentication := true
  const ApplicationPoolFrameworks: seq<string> := ["v2.0", "v4.0"]
  const DefaultApplicationPoolFramework := "v4.0"
  const ApplicationPoolIdentities: seq<string> :=
    ["ApplicationPoolIdentity", "LocalService", "LocalSystem", "NetworkService", "SpecificUser"]
  const DefaultApplicationPoolIdentity := "ApplicationPoolIdentity"

  /** Values listed, verbatim, in each enumeration of the schema. */
  predicate IsFailureMode(s: string) { s in FailureModes }
  predicate IsSkipMachineBehavior(s: string) { s in SkipMachineBehaviors }
  predicate IsStepCondition(s: string) { s in StepConditions }
  predicate IsStepStartTrigger(s: string) { s in StepStartTriggers }
  predicate IsServiceStartMode(s: string) { s in ServiceStartModes }
  predicate IsApplicationPoolFramework(s: string) { s in ApplicationPoolFrameworks }
  predicate IsApplicationPoolIdentity(s: string) { s in ApplicationPoolIdentities }

  /** The common settings of a step that sets only its required fields. */
  function DefaultStepCommon(stepName: string, targetRoles: seq<string>): (c: StepCommon)
    ensures c.stepName == stepName && c.targetRoles == Some(targetRoles)
    ensures c.stepCondition == DefaultStepCondition && IsStepCondition(c.stepCondition)
    ensures c.stepStartTrigger == DefaultStepStartTrigger && c.feedId == DefaultFeedId
    ensures c.configurationTransforms && c.configurationVariables
    ensures c.jsonFileVariableReplacement == ""
  {
    StepCommon(stepName, DefaultStepCondition, DefaultStepStartTrigger, Some(targetRoles),
               DefaultFeedId, DefaultConfigurationTransforms, DefaultConfigurationVariables, "")
  }

  /** A Windows-service step that sets only its required fields. */
  function DefaultWindowsServiceStep(stepName: string, targetRoles: seq<string>,
                                     executablePath: string, serviceName: string): (s: WindowsServiceStep)
    ensures s.common == DefaultStepCommon(stepName, targetRoles)
    ensures s.executablePath == executablePath && s.serviceName == serviceName
    ensures IsServiceStartMode(s.serviceStartMode)
  {
    WindowsServiceStep(DefaultStepCommon(stepName, targetRoles), executablePath, serviceName,
                       DefaultServiceAccount, DefaultServiceStartMode)
  }

  /** An IIS web-site step that sets only its required fields. */
  function DefaultIisWebsiteStep(stepName: string, targetRoles: seq<string>,
                                 websiteName: string, applicationPoolName: string): (s: IisWebsiteStep)
    ensures s.common == DefaultStepCommon(stepName, targetRoles)
    ensures s.websiteName == websiteName && s.applicationPoolName == applicationPoolName
    ensures !s.anonymousAuthentication && !s.basicAuthentication && s.windowsAuthentication
    ensures IsApplicationPoolFramework(s.applicationPoolFramework)
    ensures IsApplicationPoolIdentity(s.applicationPoolIdentity)
  {
    IisWebsiteStep(DefaultStepCommon(stepName, targetRoles), websiteName,
                   DefaultAnonymousAuthentication, DefaultBasicAuthentication, DefaultWindowsAuthentication,
                   applicationPoolName, DefaultApplicationPoolFramework, DefaultApplicationPoolIdentity)
  }

  /** A project that sets only its required fields. */
  function DefaultProjectConfig(name: string, lifecycleId: string, projectGroupId: string): (c: ProjectConfig)
    ensures c.name == name && c.lifecycleId == lifecycleId && c.projectGroupId == projectGroupId
    ensures c.description == ""
    ensures c.defaultFailureMode == DefaultFailureMode && c.skipMachineBehavior == DefaultSkipMachineBehavior
    ensures IsFailureMode(c.defaultFailureMode) && IsSkipMachineBehavior(c.skipMachineBehavior)
    ensures c.windowsServiceSteps == [] && c.iisWebsiteSteps == []
  {
    ProjectConfig(name, lifecycleId, projectGroupId, "", DefaultFailureMode, DefaultSkipMachineBehavior, [], [])
  }

  /** The project-level defaults are among their listed values. */
  lemma ProjectDefaultsListed()
    ensures IsFailureMode(DefaultFailureMode)
    ensures IsSkipMachineBehavior(DefaultSkipMachineBehavior)
  {
  }

  /** The step-condition default is among its listed values (unlike the start
      trigger's, below). */
  lemma StepConditionDefaultListed()
    ensures IsStepCondition(DefaultStepCondition)
  {
  }

  lemma ServiceStartModeDefaultListed()
    ensures IsServiceStartMode(DefaultServiceStartMode)
  {
  }

  lemma ApplicationPoolDefaultsListed()
    ensures IsApplicationPoolFramework(DefaultApplicationPoolFramework)
    ensures IsApplicationPoolIdentity(DefaultApplicationPoolIdentity)
  {
  }

  /** The start-trigger default "StartAfterPrevious" is not among the listed
      values verbatim; it matches "startafterprevious" only up to case. Whether the
      validator compares case-insensitively is not part of this model. */
  lemma StartTriggerDefaultDiffersInCase()
    ensures !IsStepStartTrigger(DefaultStepStartTrigger)
    ensures EqualFoldAscii(DefaultStepStartTrigger, StepStartTriggers[0])
  {
  }
}
