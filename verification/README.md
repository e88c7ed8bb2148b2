# Skaffold actionable-error engine, modelled in Dafny

This project models the core of Skaffold's `pkg/skaffold/errors` package. That core turns a failure raised during a pipeline phase (Build, Deploy, Init, StatusCheck, FileSync, DevInit, Cleanup) into three things:

- a stable status code;
- an ordered list of remediation suggestions;
- the error's message.

The model covers these parts of the engine:

- **Write-once run context** (`Errors.SetRunContext`). The holder is an immutable `Option` state. Only the first set fills it.
- **Registry and classification** (`Errors.AllErrors`, `Errors.GetErrorCodeFromError`). Each registered phase has an ordered list of problem descriptors, and the list always ends in a `.*` catch-all with that phase's `*_UNKNOWN` code.
  - An error that is already classified keeps its code and suggestions.
  - A raw error gets the first descriptor whose pattern matches it.
  - In a phase with no entry, the result is `UNKNOWN_ERROR` with nil suggestions.
- **Re-classification without a phase** (`Errors.ShowAIError`). It scans the build, deploy and init known problems, in that order and without catch-alls. The telemetry calls are returned as a list of the codes reported.
- **Assembly** (`Errors.ActionableErr`).
- **Rendering** (`Errors.ConcatSuggestions`). Actions are joined with `" or "` and closed with `"."`. The separator is left out while nothing has been written yet. `Errors.IsOldImageManifestProblem` uses this rendering to build its message.
- **Push/pull-denied suggestions** (`BuildProblems.SuggestBuildPushAccessDeniedAction`). The precedence is the `--default-repo` flag, then the global config, then advice to add the flag. The registry-specific auth hint comes from `BuildProblems.MakeAuthSuggestionsForRepo`.

How the model represents the source:

- Errors are a tagged datatype (`Problems.Err`): `SkaffoldErr`, `ProblemErr` or `Raw`. This replaces Go's `errors.As` unwrapping.
- A Go nil slice is kept apart from an empty one (`Proto.Suggestions`).
- Each descriptor carries its regular expression as a predicate on the message.
- Four patterns have concrete definitions:
  - the catch-all `.*` matches every message;
  - `BuildCancelled` holds when the message contains `context canceled`;
  - `(.+\.)?gcr\.io.*` holds when the repository contains `gcr.io` anywhere, because the match is unanchored;
  - `DockerConnectionFailed` holds for the daemon prefix followed later by " Is" with no newline between them.

Files:

- `wrappers.dfy`: `Option` and `Result`.
- `proto.dfy`: status and suggestion codes, suggestions, and `ActionableErr`.
- `runcontext.dfy`: the run context.
- `config.dfy`: the config loader's boundary.
- `text.dfy`: substring search.
- `problems.dfy`: descriptors, errors, and the first-match scan.
- `build_problems.dfy`: patterns and the push/pull-denied generator.
- `errors.dfy`: everything else from `errors.go`.
- `scenarios.dfy`: Build-phase classification of the daemon-down and cancelled-build failures.

## Model

| member | source | states |
|---|---|---|
| Errors.SetRunContext | pkg/skaffold/errors/errors.go:60-64 | setting an empty holder stores the context; setting a filled holder changes nothing |
| Errors.StoredContextIsFinal | pkg/skaffold/errors/errors.go:60-64 | once a context is stored, no later sequence of sets changes the holder |
| Errors.FirstSetWins | pkg/skaffold/errors/errors.go:44-64 | after any sequence of sets from an empty holder, readers see the first context set, or the zero value if nothing was set |
| Problems.FirstMatch | pkg/skaffold/errors/errors.go:117-123 | the scan returns the index of a matching descriptor with no match before it, or none only when no descriptor matches |
| Problems.EarlierMatchWins | pkg/skaffold/errors/errors.go:118-122 | a matching descriptor at index i means the scan stops at i or earlier, so a later descriptor is never chosen over it |
| Problems.FirstMatchOfConcat | pkg/skaffold/errors/errors.go:86-87 | for concatenated lists, the first match lies in the first list when it has one, and otherwise is the second list's first match shifted by its length |
| Errors.ReportIssueSuggestion | pkg/skaffold/errors/errors.go:48-53 | the suggestion attached to every catch-all: a single OPEN_ISSUE entry with the report-issue text, whatever the run context |
| Errors.AllErrors | pkg/skaffold/errors/errors.go:142-178 | the registry map: Build, Init and Deploy list their known problems and then a catch-all; StatusCheck, FileSync and Cleanup have only a catch-all; DevInit lists the old-image-manifest problem and then a catch-all; each catch-all carries its phase's *_UNKNOWN code |
| Errors.RegistryShape | pkg/skaffold/errors/errors.go:142-178 | the registry has entries for exactly the seven phases; each entry is the phase's known problems followed by a catch-all that matches everything, carries that phase's unknown code (not UNKNOWN_ERROR) and suggests opening an issue |
| Problems.Message | pkg/skaffold/errors/errors.go:71 | the text `err.Error()` gives: the message of a Skaffold or raw error, and the description of the message a matched problem was bound to |
| Errors.GetErrorCodeFromError | pkg/skaffold/errors/errors.go:107-125 | a Skaffold error yields its own code and suggestions; a problem yields its code and the suggestions it gives in this run context; a raw error yields the first matching descriptor of the phase's list; an unregistered phase yields UNKNOWN_ERROR with nil suggestions |
| Errors.RegisteredPhaseClassification | pkg/skaffold/errors/errors.go:117-124 | in a registered phase, a raw error gets the first matching known problem of that phase; only when none matches does it get the phase's unknown code with the open-issue suggestion |
| Errors.RegisteredPhaseNeverUnknownError | pkg/skaffold/errors/errors.go:142-178 | a raw error in any of the seven registered phases never gets UNKNOWN_ERROR, provided no known problem of that phase carries it |
| Errors.ClassifiedIgnoresPhase | pkg/skaffold/errors/errors.go:108-115 | an already classified error gets the same code and suggestions in every phase |
| Errors.ActionableErr | pkg/skaffold/errors/errors.go:67-74 | the message is the error's own message, and the code and suggestions are exactly those classification gives |
| Errors.ShowAIError | pkg/skaffold/errors/errors.go:76-94 | a classified error is returned unchanged and its code is reported once; a raw error is bound to the first matching known problem (build, deploy, init), and that problem's code is reported once; when nothing matches, the error comes back unchanged with no report |
| Errors.ShowAIErrorScanOrder | pkg/skaffold/errors/errors.go:86-92 | a build problem wins if any matches; a deploy problem wins only if no build problem matches; an init problem wins only if neither a build nor a deploy problem matches |
| Errors.ShowAIErrorIdempotent | pkg/skaffold/errors/errors.go:76-84 | running it again on its own result returns the same error and reports the same codes |
| Errors.ShowAIErrorAgreesWithClassification | pkg/skaffold/errors/errors.go:76-115 | classifying its classified result in any phase gives back the code it reported |
| Errors.ShowAIErrorAgreesWithBuildPhase | pkg/skaffold/errors/errors.go:86-92 | for a message some known build problem matches, it reports the same code that Build-phase classification gives |
| Errors.AppendAfterText | pkg/skaffold/errors/errors.go:129-134 | once text has been written, the loop appends " or " and the action for every remaining suggestion, including empty actions |
| Errors.EmptyActionsWriteNothing | pkg/skaffold/errors/errors.go:129-134 | from empty text, a run of empty actions writes nothing, because the separator is suppressed while the text is empty |
| Errors.SkipEmptyActions | pkg/skaffold/errors/errors.go:129-134 | a prefix of empty actions leaves the loop where it would be had those suggestions been absent |
| Errors.RenderFromFirstShown | pkg/skaffold/errors/errors.go:129-134 | from empty text, the loop renders the first non-empty action, then " or " plus each later action |
| Errors.RenderedActions | pkg/skaffold/errors/errors.go:129-137 | the loop builds nothing exactly when every action is empty, and otherwise the rendering from the first non-empty action on |
| Errors.ConcatSuggestions | pkg/skaffold/errors/errors.go:127-140 | the result is "" exactly when every action is empty (an empty list included); otherwise it is the first non-empty action, then " or " plus each later action, then "." |
| Errors.ConcatEndsWithPeriod | pkg/skaffold/errors/errors.go:135-139 | a non-empty rendering ends in "." |
| Errors.ConcatTwoActions | pkg/skaffold/errors/errors.go:127-140 | ["a","b"] renders as "a or b." |
| Errors.ConcatSkipsLeadingEmpty | pkg/skaffold/errors/errors.go:130-133 | ["","b"] renders as "b.", with no separator |
| Errors.ConcatKeepsTrailingEmpty | pkg/skaffold/errors/errors.go:130-133 | ["a",""] renders as "a or .": after text has been written, an empty action still gets its separator |
| Errors.IsOldImageManifestProblem | pkg/skaffold/errors/errors.go:96-105 | a nil error or a non-matching message gives ("", false); a match with nil suggestions gives ("", true); a match with suggestions gives the description, ". " and the rendered suggestions, with true |
| Errors.OldImageManifestAgreesWithDevInit | pkg/skaffold/errors/errors.go:168-172 | a raw error is an old-image-manifest problem exactly when DevInit classifies it with that problem; otherwise DevInit gives DEVINIT_UNKNOWN with the open-issue suggestion |
| BuildProblems.DockerConnectionFailed | pkg/skaffold/errors/build_problems.go:29 | the daemon pattern, matched unanchored: "Cannot connect to the Docker daemon" occurs and is followed later on the same line by " Is" |
| BuildProblems.BuildCancelled | pkg/skaffold/errors/build_problems.go:32 | the cancelled-build pattern, matched unanchored: the message contains "context canceled" |
| BuildProblems.GcrRepo | pkg/skaffold/errors/build_problems.go:67 | the managed-registry pattern, matched unanchored against the repository: since the subdomain group is optional, the repository contains "gcr.io" somewhere |
| BuildProblems.MakeAuthSuggestionsForRepo | pkg/skaffold/errors/build_problems.go:66-77 | the gcloud configure-docker hint is chosen exactly when the repository contains gcr.io; otherwise the hint is docker login; each hint has its fixed text |
| BuildProblems.SuggestBuildPushAccessDeniedAction | pkg/skaffold/errors/build_problems.go:40-64 | with the flag set (even to ""): [check --default-repo, auth hint for it]; with the flag unset and a non-empty default repo in the loaded config: [check global config, auth hint for it]; otherwise, including a failed load: [add --default-repo]; always a non-nil list of one or two |
| BuildProblems.PushAccessDeniedFollowsPrecedence | pkg/skaffold/errors/build_problems.go:40-64 | the suggestions follow the precedence flag, then global config, then none: when a repository is configured, two entries, the exact check suggestion for where it was configured and the auth hint for that repository; otherwise the single add-flag entry |
| BuildProblems.FlagIgnoresGlobalConfig | pkg/skaffold/errors/build_problems.go:41-47 | with the flag set, any two config loaders give the same suggestions, so the global config is never consulted |
| BuildProblems.ConfigErrorIsSwallowed | pkg/skaffold/errors/build_problems.go:50-63 | a failed config load gives the same suggestions as a config with no default repo, so the load error never reaches the caller |
| BuildProblems.GcrDefaultRepoScenario | pkg/skaffold/errors/build_problems.go:41-47 | --default-repo=myrepo.gcr.io gives [check --default-repo, gcloud configure-docker] |
| BuildProblems.RegionalGcrHostsUseGcloud | pkg/skaffold/errors/build_problems.go:67 | every repository of the form sub.gcr.io plus any path gets the gcloud hint |
| BuildProblems.UnanchoredGcrMatch | pkg/skaffold/errors/build_problems.go:67 | gcr.io inside the path of another registry also selects the gcloud hint |
| BuildProblems.DockerHubUsesDockerLogin | pkg/skaffold/errors/build_problems.go:73-76 | docker.io/me gets the docker login hint |
| BuildProblems.BuildCancelledSurvivesWrapping | pkg/skaffold/errors/build_problems.go:32 | a cancelled-build message still matches after context is added around it |
| BuildProblems.ContextCanceledIsBuildCancelled | pkg/skaffold/errors/build_problems.go:32 | the bare message "context canceled" matches the cancelled-build pattern |
| BuildProblems.DockerDaemonDownMatches | pkg/skaffold/errors/build_problems.go:29 | the Docker client's daemon-down message matches the daemon pattern for any single-line socket text |
| BuildProblems.DockerDaemonPatternStopsAtNewline | pkg/skaffold/errors/build_problems.go:29 | the daemon pattern does not match when a newline separates the prefix from " Is" |
| Scenarios.DaemonDownIsNotBuildUnknown | pkg/skaffold/errors/errors.go:117-123 | in the Build phase, a message matching the daemon pattern gets a known code and not BUILD_UNKNOWN, provided the known build table has a descriptor with that pattern and none of its entries uses BUILD_UNKNOWN |
| Scenarios.CancelledBuildIsNotBuildUnknown | pkg/skaffold/errors/errors.go:117-123 | in the Build phase, a message containing "context canceled" gets a known code and not BUILD_UNKNOWN, under the same conditions on the known build table |

## Left out

- `pkg/skaffold/test/test_factory.go` is left out. It only creates log files, tees output and delegates to test runners, and has no matching or state logic.
- The regular-expression engine is left out. Each descriptor's pattern is an abstract predicate, and only the patterns listed above get concrete definitions.
- `sync.Once` is left out. Concurrent callers are not modelled, so the holder is sequential write-once state. The package-level `runCtx` becomes the parameter `rc`, which is what the holder currently shows (`RunContextHolder.Current`).
- `instrumentation.SetErrorCode` is left out. The codes it would receive are returned as `Shown.recorded`.
- The read of `config.GetConfigForCurrentKubectx` is left out, because it is file and YAML I/O. It is a `Config.Loader` parameter that returns a `Result`.
- `errors.As` unwrapping through wrapper chains is left out. The tagged `Err` datatype takes its place.
- The contents of `knownBuildProblems`, `knownDeployProblems`, `knownInitProblems` and `oldImageManifest` are left out. They are defined in files that are not part of this model, so they are parameters (`Errors.KnownProblems`).
- A problem's `Error()` text and `withErr` are left out. They live in a file that is not part of this model. Binding a problem to an error is modelled as `ProblemErr(p, message)`, and that error's message is taken to be `description(message)`.
- Descriptions are applied to the error's message rather than to the error value.
- Numeric protocol-buffer values of the codes are left out. Only the codes' identity matters to the engine.
- The `PushImageErr` constant is left out, because no modelled function uses it.
- Panics are left out: `re` can panic on a bad pattern, and calling `err.Error()` on a nil `err` panics. The model's errors are never nil, except for the `Option` argument of `IsOldImageManifestProblem`.
- Telemetry for `ActionableErr` is left out because `ActionableErr` reports no status code (pkg/skaffold/errors/errors.go:67-74). Only `ShowAIError` reports one, once per classified result, and the model follows that.
- Errors.GetErrorCodeFromError: its own contract gives a raw error in a registered phase only the conditional first-match statement. The fact that a first match always exists there is proved separately, in `Errors.RegisteredPhaseClassification` and `Errors.RegisteredPhaseNeverUnknownError`.
