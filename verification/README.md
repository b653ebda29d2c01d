# ApiDocumentMojo — a Dafny model of the swagger-maven-plugin `generate` goal

The `generate` goal of swagger-maven-plugin turns each configured
`<apiSource>` bundle into a Swagger document. Under the Maven plumbing,
`ApiDocumentMojo` holds a small decision core, and this project models that
core and proves properties of it:

- **`validateConfiguration`**: six mandatory-field rules, checked in a fixed
  order. The first broken rule is reported with its own message.
- **the guards of `execute`**: first the missing-list check, then the
  swagger 1.1 probe, then the swagger 1.3 probe.
- **the bundle loop**: for each bundle in order, the goal validates it, builds
  a `MavenDocumentSource` or `SpringMavenDocumentSource` (the `springmvc`
  flag picks which), then calls `loadOverridingModels` and `loadDocuments`.
  Next come the optional `mkdirs` of the output directory and the optional
  `toDocuments` (template rendering). Last comes `toSwaggerDocuments`, on the
  UI base path when one is configured and on `basePath` otherwise.
- **the two catch clauses**: a `GenerateException` becomes a
  `MojoFailureException`, and any other exception becomes a
  `MojoExecutionException`. Both keep the message.

A run is the pure function `Mojo.Execute`. It takes the configuration and an
`Environment` holding everything the goal observes but does not decide: the
two classpath probes, and for each bundle how each of its calls ends. It
returns the trace of calls made, in order, and how the run ended.

Files: `wrappers.dfy` (`Option`, `Outcome`), `config.dfy` (the bundle
configuration), `validation.dfy` (the validator), `failures.dfy` (exceptions,
messages, classification), `pipeline.dfy` (variant choice, the per-bundle plan
and the stop-at-first-throw runner), `mojo.dfy` (`execute`), and
`properties.dfy` (lemmas about whole runs).

Where the code and the documented intent differ, the model follows the code:

- an empty `apiSources` list is accepted and runs nothing; only a missing list is rejected;
- `<locations>` is only checked for presence; an empty list passes;
- the failed-`mkdirs` message names the configured output path, not its parent directory;
- the missing-list check runs before the two version probes.

## Model

| member | source | states |
|---|---|---|
| Validation.ValidateConfiguration | src/main/java/com/github/kongchen/swagger/docgen/mavenplugin/ApiDocumentMojo.java:103-125 | on failure, the reported rule is violated and every rule checked before it holds; on success, no rule is violated |
| Validation.PassesIffNoRuleViolated | src/main/java/com/github/kongchen/swagger/docgen/mavenplugin/ApiDocumentMojo.java:103-125 | validation passes if and only if none of the six rules is violated |
| Validation.ReportsFirstViolatedRule | src/main/java/com/github/kongchen/swagger/docgen/mavenplugin/ApiDocumentMojo.java:103-125 | the validator reports rule k if and only if k is violated and no earlier rule is |
| Validation.ValidBundleIsComplete | src/main/java/com/github/kongchen/swagger/docgen/mavenplugin/ApiDocumentMojo.java:103-125 | a bundle that passes is present and has info, title, version, locations, and a named license if it has a license |
| Validation.MessagesIdentifyRules | src/main/java/com/github/kongchen/swagger/docgen/mavenplugin/ApiDocumentMojo.java:104-123 | distinct rules throw distinct messages |
| Validation.LicenseRuleNeedsLicenseWithoutName | src/main/java/com/github/kongchen/swagger/docgen/mavenplugin/ApiDocumentMojo.java:117-119 | the license rule is reported if and only if the earlier rules hold and a license is present without a name |
| Validation.AbsentLicenseNeverFails | src/main/java/com/github/kongchen/swagger/docgen/mavenplugin/ApiDocumentMojo.java:117-119 | a bundle without a license is never rejected by the license rule |
| Validation.EmptyLocationsAreAccepted | src/main/java/com/github/kongchen/swagger/docgen/mavenplugin/ApiDocumentMojo.java:121-123 | an empty locations list is not rejected; only a missing one is |
| Failures.Classify | src/main/java/com/github/kongchen/swagger/docgen/mavenplugin/ApiDocumentMojo.java:90-94 | a GenerateException becomes a MojoFailureException and any other Exception a MojoExecutionException, each with the same message; an Error is not caught |
| Failures.CreateDirectoryMessageRoundTrip | src/main/java/com/github/kongchen/swagger/docgen/mavenplugin/ApiDocumentMojo.java:76-77 | the output path can be read back out of the failed-mkdirs message, so the message names exactly the configured output path |
| Failures.CreateDirectoryMessageInjective | src/main/java/com/github/kongchen/swagger/docgen/mavenplugin/ApiDocumentMojo.java:76-77 | distinct output paths give distinct failed-mkdirs messages |
| Pipeline.SelectVariant | src/main/java/com/github/kongchen/swagger/docgen/mavenplugin/ApiDocumentMojo.java:64-68 | the Spring document source is chosen if and only if springmvc is set |
| Pipeline.Plan | src/main/java/com/github/kongchen/swagger/docgen/mavenplugin/ApiDocumentMojo.java:64-87 | a bundle's plan starts with construction of the variant `springmvc` selects, then loadOverridingModels and loadDocuments, and ends with toSwaggerDocuments on swaggerUIDocBasePath when set, else basePath |
| Pipeline.PlanShape | src/main/java/com/github/kongchen/swagger/docgen/mavenplugin/ApiDocumentMojo.java:70-87 | the plan starts with construction of the selected variant, then loadOverridingModels and loadDocuments; it ends with toSwaggerDocuments on the UI override or else basePath; it is strictly ordered; mkdirs appears only at position 3, for a configured output path whose parent is missing; toDocuments appears if and only if a template path is set |
| Pipeline.RunSteps | src/main/java/com/github/kongchen/swagger/docgen/mavenplugin/ApiDocumentMojo.java:70-87 | calls are made in order until one throws; the trace is a prefix of the plan; it is the whole plan if and only if every call completes; otherwise it ends with the throwing call and all earlier calls completed |
| Pipeline.StopsAtFirstThrow | src/main/java/com/github/kongchen/swagger/docgen/mavenplugin/ApiDocumentMojo.java:70-87 | when calls before position n complete and call n throws, exactly the calls up to n are made and the run ends with call n's exception |
| Mojo.RunBundle | src/main/java/com/github/kongchen/swagger/docgen/mavenplugin/ApiDocumentMojo.java:58-87 | a bundle failing validation throws a GenerateException with the rule's message and makes no call; a valid bundle makes a prefix of its plan; it throws nothing exactly when every planned call completes, and then makes the whole plan; otherwise its last call is the one that threw, it throws exactly that call's exception, and every earlier call completed; every call is tagged with the bundle's position |
| Mojo.RunBundles | src/main/java/com/github/kongchen/swagger/docgen/mavenplugin/ApiDocumentMojo.java:56-94 | the loop ends normally if and only if no bundle throws, and its calls are a prefix of all the bundles' calls |
| Mojo.Execute | src/main/java/com/github/kongchen/swagger/docgen/mavenplugin/ApiDocumentMojo.java:42-95 | a missing list fails with "You must configure at least one apiSources element" whatever the probes say; otherwise the 1.1 probe, then the 1.3 probe, fails with its own message; each guard stops the run before any call |
| ExecuteProperties.StopsAtFirstFailure | src/main/java/com/github/kongchen/swagger/docgen/mavenplugin/ApiDocumentMojo.java:58-94 | when bundles before k complete and bundle k throws, the trace is every call of the earlier bundles then bundle k's calls, and the run ends with bundle k's exception |
| ExecuteProperties.CompletesEveryRun | src/main/java/com/github/kongchen/swagger/docgen/mavenplugin/ApiDocumentMojo.java:58-88 | when no bundle throws, every call of every bundle is made in order and the loop ends normally |
| ExecuteProperties.TracesOrdered | src/main/java/com/github/kongchen/swagger/docgen/mavenplugin/ApiDocumentMojo.java:58-88 | bundles that each keep the fixed call order, at consecutive positions, give a trace ordered by bundle and then by call order |
| ExecuteProperties.CompletedBundleRanItsPlan | src/main/java/com/github/kongchen/swagger/docgen/mavenplugin/ApiDocumentMojo.java:60-87 | a bundle that throws nothing passed validation and made every planned call |
| ExecuteProperties.BundleRunFollowsPlan | src/main/java/com/github/kongchen/swagger/docgen/mavenplugin/ApiDocumentMojo.java:60-87 | every call a bundle makes is in its plan, and the calls keep the fixed order |
| ExecuteProperties.PlannedCallFacts | src/main/java/com/github/kongchen/swagger/docgen/mavenplugin/ApiDocumentMojo.java:64-87 | a planned construction uses the variant springmvc selects; toDocuments needs a template path; mkdirs needs an output path with a missing parent; toSwaggerDocuments gets the UI override or else basePath |
| ExecuteProperties.EmptyListSucceeds | src/main/java/com/github/kongchen/swagger/docgen/mavenplugin/ApiDocumentMojo.java:43-58 | with both probes negative, an empty apiSources list makes no call and the run succeeds |
| ExecuteProperties.ExecuteOrdered | src/main/java/com/github/kongchen/swagger/docgen/mavenplugin/ApiDocumentMojo.java:58-88 | every run's trace is ordered by bundle position and, within a bundle, by the fixed call order |
| ExecuteProperties.FailFast | src/main/java/com/github/kongchen/swagger/docgen/mavenplugin/ApiDocumentMojo.java:56-94 | when bundle k is the first to throw, the run ends with its classified exception; every earlier bundle was valid and made all its planned calls; no later bundle made any call |
| ExecuteProperties.ValidationFailureEndsRun | src/main/java/com/github/kongchen/swagger/docgen/mavenplugin/ApiDocumentMojo.java:56-91 | a bundle failing validation after completed bundles ends the run with a MojoFailureException carrying the rule's message, and no call of that bundle or any later bundle is made |
| ExecuteProperties.DirectoryFailureEndsRun | src/main/java/com/github/kongchen/swagger/docgen/mavenplugin/ApiDocumentMojo.java:72-93 | a failed mkdirs ends the run with a MojoExecutionException naming the output path, and the mkdirs call is the last call made |
| ExecuteProperties.StageFailureEndsRun | src/main/java/com/github/kongchen/swagger/docgen/mavenplugin/ApiDocumentMojo.java:58-93 | when a valid bundle's call throws after the bundle's earlier calls and all earlier bundles completed, the run's result is that exception as the catch clauses classify it (a GenerateException becomes a MojoFailureException with the same message), and that call is the last one made |
| ExecuteProperties.SucceedsIffNoBundleThrows | src/main/java/com/github/kongchen/swagger/docgen/mavenplugin/ApiDocumentMojo.java:56-95 | the run succeeds if and only if no bundle throws; then every bundle was valid and made all of its planned calls |
| ExecuteProperties.CallsFollowConfiguration | src/main/java/com/github/kongchen/swagger/docgen/mavenplugin/ApiDocumentMojo.java:62-87 | every call made belongs to a validated bundle and agrees with that bundle's variant flag, template path, output path, parent directory state and effective base path |
| ExecuteProperties.SuccessfulRunEmitsEveryBundle | src/main/java/com/github/kongchen/swagger/docgen/mavenplugin/ApiDocumentMojo.java:81-87 | in a successful run every bundle calls toSwaggerDocuments with its effective base path, and calls toDocuments if and only if it has a template path |

## Left out

- The two legacy probes (`useSwaggerSpec11` and `useSwaggerSpec13`) look up a class reflectively. The model takes their answers as the booleans `Environment.swagger11` and `Environment.swagger13`.
- The filesystem is left out. The model does not compute `new File(outputPath).getParentFile()`, whether that directory exists, or whether `mkdirs` succeeds. Each bundle's `BundleWorld` supplies these as `parent` and `mkdirsSucceeds`, and the directory actually created is not tracked.
- `MavenDocumentSource` and `SpringMavenDocumentSource` are not part of this model. Their constructors and stages are outcomes supplied by `BundleWorld`: each call completes, or it throws a `GenerateException`, another exception, or an `Error`. What the stages write is not modelled.
- The `ApiSource`, `Info` and `License` classes are not part of this model. Only the fields the goal reads appear in `Config`; the license URL and the info description, which the goal never reads, are left out.
- Maven plumbing is left out: the `@Mojo`/`@Parameter` injection, the lifecycle phase, dependency resolution and the `getLog().debug` call.
- Exceptions carry only their message. The cause chain that the two catch clauses attach is not modelled, and a `null` message is not modelled either.
- Mojo.RunBundles: the loop folds the runs of all bundles in list order. Because each run depends only on its own bundle and world, the runs after the first one that throws contribute nothing, which matches a loop that stops there. The lazy evaluation order itself is not modelled.
- Pipeline.EffectiveBasePath carries no contract of its own. The base-path rule is stated where it is used, by Pipeline.PlanShape and ExecuteProperties.CallsFollowConfiguration.
