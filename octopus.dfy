/** The remote deployment server's objects as the client library hands them to the
    provider: projects, deployment processes, their steps and actions, and the
    namespaced property keys the server expects. Only the fields the provider sets
    or relies on are modelled. */
module Octopus {

  /** A string-keyed, string-valued property bag. */
  type Properties = map<string, string>

  datatype DeploymentAction = DeploymentAction(
    name: string,
    actionType: string,
    properties: Properties)

  /** A step of a deployment process; `properties` is the step-level bag (target
      roles), distinct from the action's bag. An unset Go map is the empty map. */
  datatype DeploymentStep = DeploymentStep(
    name: string,
    packageRequirement: string,
    condition: string,
    startTrigger: string,
    actions: seq<DeploymentAction>,
    properties: Properties)

  datatype ProjectConnectivityPolicy = ProjectConnectivityPolicy(skipMachineBehavior: string)

  datatype Project = Project(
    id: string,
    name: string,
    description: string,
    lifecycleId: string,
    projectGroupId: string,
    defaultGuidedFailureMode: string,
    projectConnectivityPolicy: ProjectConnectivityPolicy,
    deploymentProcessId: string)

  /** A deployment process fetched from the server. The provider rewrites its step
      list in place and hands the same object back for the update call, which
      needs the identifier to be untouched. */
  class DeploymentProcess {
    var id: string
    var projectId: string
    var steps: seq<DeploymentStep>

    constructor (id: string, projectId: string, steps: seq<DeploymentStep>)
      ensures this.id == id && this.projectId == projectId && this.steps == steps
    {
      this.id := id;
      this.projectId := projectId;
      this.steps := steps;
    }
  }

  // Action and step types.
  const WindowsServiceActionType := "Octopus.WindowsService"
  const IisActionType := "Octopus.IIS"
  const LetOctopusDecide := "LetOctopusDecide"

  // Step-level property key.
  const TargetRolesKey := "Octopus.Action.TargetRoles"

  // Action property keys shared by both step kinds.
  const EnabledFeaturesKey := "Octopus.Action.EnabledFeatures"
  const RunConfigurationTransformsKey := "Octopus.Action.Package.AutomaticallyRunConfigurationTransformationFiles"
  const UpdateAppSettingsKey := "Octopus.Action.Package.AutomaticallyUpdateAppSettingsAndConnectionStrings"
  const FeedIdKey := "Octopus.Action.Package.FeedId"
  const PackageIdKey := "Octopus.Action.Package.PackageId"
  const DownloadOnTentacleKey := "Octopus.Action.Package.DownloadOnTentacle"
  const JsonTargetsKey := "Octopus.Action.Package.JsonConfigurationVariablesTargets"
  const JsonEnabledKey := "Octopus.Action.Package.JsonConfigurationVariablesEnabled"

  // Windows-service action property keys.
  const CreateOrUpdateServiceKey := "Octopus.Action.WindowsService.CreateOrUpdateService"
  const ServiceAccountKey := "Octopus.Action.WindowsService.ServiceAccount"
  const StartModeKey := "Octopus.Action.WindowsService.StartMode"
  const ServiceNameKey := "Octopus.Action.WindowsService.ServiceName"
  const ExecutablePathKey := "Octopus.Action.WindowsService.ExecutablePath"

  // IIS web-site action property keys.
  const DeploymentTypeKey := "Octopus.Action.IISWebSite.DeploymentType"
  const CreateOrUpdateWebSiteKey := "Octopus.Action.IISWebSite.CreateOrUpdateWebSite"
  const BindingsKey := "Octopus.Action.IISWebSite.Bindings"
  const FrameworkVersionKey := "Octopus.Action.IISWebSite.ApplicationPoolFrameworkVersion"
  const IdentityTypeKey := "Octopus.Action.IISWebSite.ApplicationPoolIdentityType"
  const AnonymousAuthenticationKey := "Octopus.Action.IISWebSite.EnableAnonymousAuthentication"
  const BasicAuthenticationKey := "Octopus.Action.IISWebSite.EnableBasicAuthentication"
  const WindowsAuthenticationKey := "Octopus.Action.IISWebSite.EnableWindowsAuthentication"
  const WebAppFrameworkVersionKey := "Octopus.Action.IISWebSite.WebApplication.ApplicationPoolFrameworkVersion"
  const WebAppIdentityTypeKey := "Octopus.Action.IISWebSite.WebApplication.ApplicationPoolIdentityType"
  const WebRootTypeKey := "Octopus.Action.IISWebSite.WebRootType"
  const StartApplicationPoolKey := "Octopus.Action.IISWebSite.StartApplicationPool"
  const StartWebSiteKey := "Octopus.Action.IISWebSite.StartWebSite"
  const WebSiteNameKey := "Octopus.Action.IISWebSite.WebSiteName"
  const ApplicationPoolNameKey := "Octopus.Action.IISWebSite.ApplicationPoolName"

  // Feature tokens of the enabled-features list.
  const WindowsServiceFeatures := "Octopus.Features.WindowsService,Octopus.Features.ConfigurationTransforms,Octopus.Features.ConfigurationVariables"
  const IisFeatures := "Octopus.Features.IISWebSite,Octopus.Features.ConfigurationTransforms,Octopus.Features.ConfigurationVariables"
  const JsonFeatureSuffix := ",Octopus.Features.JsonConfigurationVariables"

  /** The single default HTTP binding on port 80 written for every IIS step. */
  const DefaultBindings := "[{\"protocol\":\"http\",\"port\":\"80\",\"host\":\"\",\"thumbprint\":null,\"certificateVariable\":null,\"requireSni\":false,\"enabled\":true}]"

  /** The placeholder package identifier the provider writes for every step. */
  const PlaceholderPackageId := "a"
}
