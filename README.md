# Octopus Deploy project resource: request building

This project models the part of the Terraform provider's `octopusdeploy_project`
resource that turns a project's configuration into the objects sent to an Octopus
Deploy server:

- `buildDeploymentProcess` empties the step list of a deployment process fetched from the server and rebuilds it in place:
  - one step per configured Windows-service step, then one per configured IIS web-site step;
  - each step carries one action and a fixed, namespaced property bag;
  - a non-empty JSON-replacement setting extends the bag;
  - the target roles become a step-level property.
- `buildProjectResource` builds the project record: the required fields, and each optional field only when it is set.
- The schema's enumerations and defaults: failure mode, skip-machine behaviour, step condition and start trigger, service start mode, application-pool framework and identity.

Layout:

- `go_strings.dfy` (module `GoStrings`) models Go's `strings.Join` and `strconv.FormatBool`, with `Split` as the inverse Join is checked against.
- `octopus.dfy` (module `Octopus`) holds the server objects and the exact property keys and literal values the provider writes.
  - The deployment process is a class whose step list is updated in place.
- `schema.dfy` (module `Schema`) holds the configuration as typed records, the enumerations and the defaults.
- `builder.dfy` (module `ProjectBuilder`) holds the translation:
  - specification functions for each bag, each step and the whole step list;
  - the imperative methods that rebuild the process step by step, each proved equal to those functions.
- `builder_properties.dfy` (module `BuilderProperties`) holds what the translation promises, stated over the specification functions.

How the framework's behaviour is modelled:

- `GetOk` reports "not set" for a field's zero value. An optional string that is unset is therefore `""`, and the model tests it with `!= ""` exactly where the code calls `GetOk`.
- A list of steps that is empty behaves like one that is absent: the process ends with no steps.
- Each Go map literal is written as its list of (key, value) entries in source order. `ProjectBuilder.BagOf` folds that list into a map.
- `target_roles` is `Option<seq<string>>`. `None` stands for the step's field map having no roles entry; the step-level bag then stays Go's nil map, modelled as `map[]`.

Two points of the code that the model keeps as written:

- The default start trigger is `"StartAfterPrevious"` (`octopusdeploy/resource_project.go:108`), while the values its validator lists are lower case (:110-111). The model keeps the code's value.
  - `Schema.StartTriggerDefaultDiffersInCase` records that this default is not among the listed values verbatim, and that it equals `"startafterprevious"` ignoring ASCII case.
  - How the validator treats the difference is not modelled.
- `buildDeploymentProcess` clears the `Steps` of the process it is given (:250), appends to them (:315, :395) and returns that same object (:399). The model is a method whose `modifies` clause names only the process's `steps` field, so its identifiers stay untouched.

## Model

| member | source | states |
|---|---|---|
| GoStrings.Join | octopusdeploy/resource_project.go:312 | No parts join to ""; otherwise the join starts with the first part |
| GoStrings.SplitJoin | octopusdeploy/resource_project.go:312 | The comma-joined roles split back into the original list whenever there is at least one role and no role contains the separator |
| GoStrings.JoinLength | octopusdeploy/resource_project.go:392 | A join is as long as its parts plus one separator between each consecutive pair |
| GoStrings.FormatBool | octopusdeploy/resource_project.go:283-284 | A user boolean is rendered "true" exactly when it holds and "false" exactly when it does not |
| Schema.DefaultStepCommon | octopusdeploy/resource_project.go:66-130 | A step that sets only name and roles gets the condition "success", the start trigger "StartAfterPrevious", the feed "feeds-builtin", both configuration flags true and no JSON replacement |
| Schema.DefaultWindowsServiceStep | octopusdeploy/resource_project.go:209-247 | A Windows-service step that sets only its required fields gets the common defaults and a listed start mode |
| Schema.DefaultIisWebsiteStep | octopusdeploy/resource_project.go:132-207 | An IIS step that sets only its required fields has anonymous and basic authentication off, Windows authentication on, and a listed pool framework and identity |
| Schema.DefaultProjectConfig | octopusdeploy/resource_project.go:20-62 | A project that sets only its required fields has no description, the failure mode "EnvironmentDefault", the skip behaviour "None" (both listed values) and no steps |
| Schema.ProjectDefaultsListed | octopusdeploy/resource_project.go:41-58 | The failure-mode and skip-behaviour defaults are among the values their validators list |
| Schema.StepConditionDefaultListed | octopusdeploy/resource_project.go:88-98 | The step-condition default "success" is among the listed conditions |
| Schema.ServiceStartModeDefaultListed | octopusdeploy/resource_project.go:229-238 | The start-mode default "auto" is among the listed start modes |
| Schema.ApplicationPoolDefaultsListed | octopusdeploy/resource_project.go:141-164 | The pool framework and identity defaults are among their listed values |
| Schema.StartTriggerDefaultDiffersInCase | octopusdeploy/resource_project.go:105-113 | The start-trigger default is not a listed value verbatim, yet equals "startafterprevious" up to ASCII case |
| ProjectBuilder.BagOfKeys | octopusdeploy/resource_project.go:279-291 | A bag written as a map literal has exactly the keys its entries list |
| ProjectBuilder.BagOfLookup | octopusdeploy/resource_project.go:279-291 | When no key is listed twice, each listed key maps to the value listed for it |
| ProjectBuilder.WindowsServiceEntries | octopusdeploy/resource_project.go:279-291 | The Windows-service map literal's entries, with its eleven keys in the order written |
| ProjectBuilder.IisEntries | octopusdeploy/resource_project.go:349-371 | The IIS map literal's entries, with its twenty-one keys in the order written |
| ProjectBuilder.WithJsonReplacement | octopusdeploy/resource_project.go:296-301 | An empty replacement setting leaves the bag as it was; otherwise the targets key holds the setting, the enabled key holds "True", the JSON feature token is appended to the enabled features, and no other key is added |
| ProjectBuilder.JsonReplacementKeeps | octopusdeploy/resource_project.go:296-301 | The JSON extension leaves every key other than its own three, and that key's value, as it was |
| ProjectBuilder.TargetRoleProperties | octopusdeploy/resource_project.go:303-313 | With roles, the step-level bag has the single roles key holding the roles joined by commas; without, it is empty |
| ProjectBuilder.StepFor | octopusdeploy/resource_project.go:270-313 | A built step has one action named like the step, of the given type, package requirement "LetOctopusDecide", the configured condition and trigger, the JSON-extended bag and the roles bag |
| ProjectBuilder.WindowsServiceDeploymentStep | octopusdeploy/resource_project.go:270-313 | A configured Windows-service step becomes one step with one action of type "Octopus.WindowsService", named like the step, over the JSON-extended Windows-service bag |
| ProjectBuilder.IisDeploymentStep | octopusdeploy/resource_project.go:340-393 | A configured IIS step becomes one step with one action of type "Octopus.IIS", named like the step, over the JSON-extended IIS bag |
| ProjectBuilder.ProcessSteps | octopusdeploy/resource_project.go:250-397 | The rebuilt step list has one step per configured step of either kind |
| ProjectBuilder.CollectTargetRoles | octopusdeploy/resource_project.go:304-310 | The role-by-role copy loop yields exactly the configured roles in order |
| ProjectBuilder.BuildStep | octopusdeploy/resource_project.go:270-313 | Building a step in place (base bag, JSON keys written in, roles collected and joined) gives the step StepFor specifies |
| ProjectBuilder.BuildWindowsServiceStep | octopusdeploy/resource_project.go:256-313 | A Windows-service step is built with type "Octopus.WindowsService" over the Windows-service bag |
| ProjectBuilder.BuildIisStep | octopusdeploy/resource_project.go:323-393 | An IIS step is built with type "Octopus.IIS" over the IIS bag |
| ProjectBuilder.AppendWindowsServiceSteps | octopusdeploy/resource_project.go:252-317 | The loop appends one built step per configured Windows-service step, in order, after the steps already there |
| ProjectBuilder.AppendIisSteps | octopusdeploy/resource_project.go:319-397 | The loop appends one built step per configured IIS step, in order, after the steps already there |
| ProjectBuilder.BuildDeploymentProcess | octopusdeploy/resource_project.go:249-400 | The process's step list is replaced by the Windows-service steps followed by the IIS steps; its identifiers are unchanged and the same object is returned |
| Octopus.DeploymentProcess.constructor | octopusdeploy/resource_project.go:249 | A deployment process as handed to the builder holds the given identifier, project and step list |
| ProjectBuilder.NewProject | octopusdeploy/resource_project.go:407 | The constructor sets name, lifecycle and group, and every other field keeps the library's default |
| ProjectBuilder.BuildProjectResource | octopusdeploy/resource_project.go:402-421 | Name, lifecycle and group always come from the configuration; description, failure mode and skip behaviour come from it only when non-empty, and otherwise keep the constructor's values; id and process id are the constructor's |
| BuilderProperties.ProcessStepsLayout | octopusdeploy/resource_project.go:250-397 | The rebuilt list has one step per configured step: position i holds Windows-service step i, and position (number of Windows-service steps + j) holds IIS step j |
| BuilderProperties.ProcessStepsOnlyFromConfig | octopusdeploy/resource_project.go:250 | Every rebuilt step comes from a configured step, so nothing of the old list survives, and a configuration without steps empties the process |
| BuilderProperties.ProcessStepsShape | octopusdeploy/resource_project.go:270-278 | Every rebuilt step has one action named like the step, the fixed package requirement, its configured condition and trigger, and its kind's action type |
| BuilderProperties.WindowsServiceKeysDistinct | octopusdeploy/resource_project.go:280-290 | The eleven Windows-service keys are pairwise different and include neither JSON key |
| BuilderProperties.WindowsServiceBag | octopusdeploy/resource_project.go:279-291 | The Windows-service bag has exactly its eleven keys, each holding the value written for it |
| BuilderProperties.WindowsServiceActionEntry | octopusdeploy/resource_project.go:279-301 | Every fixed Windows-service entry other than the enabled features reaches the action unchanged, with or without JSON replacement |
| BuilderProperties.IisKeysDistinct | octopusdeploy/resource_project.go:350-370 | The twenty-one IIS keys are pairwise different and include neither JSON key |
| BuilderProperties.IisBag | octopusdeploy/resource_project.go:349-371 | The IIS bag has exactly its twenty-one keys, each holding the value written for it |
| BuilderProperties.IisActionEntry | octopusdeploy/resource_project.go:349-381 | Every fixed IIS entry other than the enabled features reaches the action unchanged, with or without JSON replacement |
| BuilderProperties.WindowsServiceJsonReplacement | octopusdeploy/resource_project.go:285-301 | A Windows-service action's bag is the fixed bag when the setting is empty; otherwise it has exactly the fixed keys plus the two JSON keys, holding the setting and "True", with the enabled features extended by the JSON feature token |
| BuilderProperties.IisJsonReplacement | octopusdeploy/resource_project.go:362-381 | The same for an IIS action's bag |
| BuilderProperties.IisPoolSettingsWrittenTwice | octopusdeploy/resource_project.go:353-359 | The pool framework and identity are written under both the web-site and the web-application keys |
| BuilderProperties.WindowsServiceBooleanRendering | octopusdeploy/resource_project.go:280-288 | The two configuration flags are rendered by FormatBool; create-or-update is "True" and download-on-tentacle "False" |
| BuilderProperties.IisBooleanRendering | octopusdeploy/resource_project.go:351-364 | The two configuration flags are rendered by FormatBool; create-or-update is "True" and download-on-tentacle "False" |
| BuilderProperties.IisAuthenticationRendering | octopusdeploy/resource_project.go:355-357 | The three authentication switches are rendered by FormatBool |
| BuilderProperties.FormatBoolNeverCapitalised | octopusdeploy/resource_project.go:280-288 | A rendered user boolean never equals the capitalised "True" or "False" the fixed flags use |
| BuilderProperties.TargetRolesRoundTrip | octopusdeploy/resource_project.go:303-313 | The step-level bag has only the roles key, and splitting its value at commas gives back the roles |
| BuilderProperties.TargetRolesExample | octopusdeploy/resource_project.go:312 | The roles ["Role1", "Role2"] become the step property "Role1,Role2" |
| BuilderProperties.WindowsServiceDefaultsInPayload | octopusdeploy/resource_project.go:209-247 | A Windows-service step with only its required fields sends the default condition, trigger, flags, feed, account and start mode, and no JSON keys |
| BuilderProperties.IisDefaultsInPayload | octopusdeploy/resource_project.go:132-207 | An IIS step with only its required fields sends the default condition, trigger, authentication switches, pool framework and identity, and no JSON keys |
| BuilderProperties.ProjectDefaultsInRecord | octopusdeploy/resource_project.go:41-58 | A project that sets only its required fields is sent with failure mode "EnvironmentDefault", skip behaviour "None" and the constructor's description |
| BuilderProperties.ProjectEnumeratedFieldsAlwaysSet | octopusdeploy/resource_project.go:41-58 | A listed failure mode or skip behaviour is never empty, so the record always takes it from the configuration |

## Left out

- The resource's create, read, update and delete entry points, `updateDeploymentProcess` and the server client calls: these are network I/O.
- The framework's `schema.ResourceData` and the schema declarations. The configuration is a typed record instead, and the framework's job of filling in defaults appears only as the `Default…` functions.
- `validateValueFunc`: the enumerations are modelled as membership predicates, with no claim about how the validator compares values.
- `octopusdeploy.NewProject` is library code. It is modelled as a `defaults: Project` parameter carrying every field the constructor sets besides name, lifecycle and group.
- Log calls and the read-side mapping from server objects back into configuration fields.
- The computed `deployment_process_id` field is carried from the constructor's record, not derived.
- Server object fields the provider neither sets nor reads are not modelled.
- Type assertions in the step and role loops: Go's iteration over `[]interface{}` with type assertions is modelled on typed sequences, so a wrongly typed element, which panics in Go, cannot occur.
- GoStrings.Split: models `strings.Split` only for a one-character separator, which is all the roles round trip needs.
