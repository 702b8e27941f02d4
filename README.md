# life-machine: the decision logic of the auto-publish workflow

life-machine is a command-line tool that runs inside a CI workflow. When a
dependency-bot pull request arrives, it publishes a new release of an npm
package (a patch release by default). In workflow mode, `bin/main.js` runs these steps in order:

1. **manualOnly.** It stops early when `manualOnly` is set.
2. **Tests.** It runs the configured test command, split on spaces.
3. **Major-version gate.** It merges `dependencies` with `devDependencies` and fetches the latest published manifest, meaning to abort when a dependency's major version changed. As written it compares the local map with itself and never aborts (see "## Findings").
4. **Version bump.** It runs `npm version` with `versionType || 'patch'`.
5. **Publish.** It writes `.npmrc`, runs `npm publish`, then removes `.npmrc`.
6. **Notices.** It sends a webhook notice on success when `discordNotifications.onPublish` is truthy, and on failure when `discordNotifications.onAttentionNeeded` is `true`.

This project models that decision layer. Every process, network and file effect becomes an abstract input. The model has five modules:

- **`JsValues`**: the JavaScript values the workflow inspects.
  - `Json` covers configuration and manifest fields: undefined, null, booleans, integers, strings, objects.
  - `Truthy` is JavaScript truthiness. `IsObjectType` is `typeof v === 'object'`, which is true for `null` as well.
  - `Props` represents a plain object of string values. It is a sequence of (name, value) pairs with unique names, in the order `Object.entries` returns them.
- **`Strings`**: `split` with a one-character separator and its inverse `join`. Both directions of the round trip are proved.
- **`DepMerge`**: in-place defaulting of a manifest's dependency fields to `{}`, plus the spread `{ ...dependencies, ...devDependencies }`.
  - A spread assigns each source property in order.
  - An existing name keeps its position and takes the new value.
  - A new name is appended.
- **`MajorCheck`**: the dependency comparator.
  - **Loops.** The nested `for...of` loops are the methods `CheckMajorUpdates` and `ScanLatest`. They keep the `break` on an unchanged version and the early abort on a Major change. Both methods are proved against the recursive functions `GateReport` (the log lines) and `GateVerdict` (proceed, or abort naming a dependency).
  - **Manifest.** `Manifest` is a class whose two dependency fields are defaulted in place.
  - **Gate, as written and corrected.** The gate is modelled twice:
    - as `bin/main.js` writes it, where the "latest" map is rebuilt from the local manifest;
    - as intended, comparing against the registry manifest.

    See "## Findings".
- **`Workflow`**: the order and gating of the run's external steps, written as a pure function `Plan(config, outcomes)`. It returns the list of steps taken and the exit code.
  - The outcomes are booleans and a gate result:
    - whether the test command exited 0;
    - what the gate decided (passed, blocked, or the registry lookup threw);
    - whether `npm version` succeeded;
    - whether `npm publish` succeeded;
    - whether a webhook message can be delivered.
  - `throwError` becomes `Fail`. It adds the attention notice only when `discordNotifications.onAttentionNeeded` is exactly `true` and the webhook works, and it ends with exit code 1.
  - An async rejection that nothing catches also ends with exit code 1. This is Node's default for unhandled rejections. Examples: reading `onPublish` of a null `discordNotifications`, a failed webhook POST, a failed registry GET.

Some behaviour of the code differs from what a reader of the workflow might expect; the model follows the code:

- **manualOnly notice.** The notice at bin/main.js:85 is awaited without a guard, so it is sent only when a webhook can be delivered. Either way the run exits 1: through `process.exit(1)` at line 87, or through the unhandled rejection.
- **When failures are forwarded.** `throwError` (bin/main.js:19-21) forwards a failure to the webhook only when `discordNotifications` is of type `'object'` and `onAttentionNeeded === true`, not for any other truthy value.
- **Unchanged versus Minor/Patch.** bin/main.js:114 tests the raw version strings for equality before any caret stripping, so only identical strings are "Unchanged". In the model, which strips the caret as intended, any other pair with equal majors is "Minor/Patch", even `^2.1.0` against `2.1.0`. As written, a differing pair throws a TypeError instead when the local version starts with `^` (line 118) or the latest one does (line 119) (see the `Classify` line under "## Left out").
- **The comparator's "latest" map.** bin/main.js:102-105 fetches and defaults `latestPkgJson`, but lines 106-109 spread `pkgJson` again. The model reproduces that as written, and "## Findings" reports it.

## Model

| member | source | states |
|---|---|---|
| JsValues.Lookup | bin/main.js:111-113 | `obj[name]`: finds a value exactly when `name` is one of the object's property names |
| JsValues.LookupAt | bin/main.js:111-113 | in an object, looking up the name of the k-th entry gives that entry's value (names are unique) |
| Strings.JoinSplit | bin/main.js:91 | `s.split(sep).join(sep) == s` for every string |
| Strings.SplitJoin | bin/main.js:91 | splitting the join of separator-free pieces gives back those pieces (the split is the unique such decomposition) |
| Strings.SplitCount | bin/main.js:91 | `split` yields one more piece than there are separators, empty pieces included |
| Strings.SplitHead | bin/main.js:91 | the first piece is the text before the first separator, or the whole string |
| Strings.SplitPiecesFree | bin/main.js:91 | no piece contains the separator |
| Strings.SplitAtSeparator | bin/main.js:91 | splitting `a + sep + b` with separator-free `a` gives `a` followed by the pieces of `b` |
| Workflow.TestCommandSplit | bin/main.js:91 | program = text before the first space and contains no space; arguments are the remaining space-separated pieces (as many as there are spaces, empty ones included), none containing a space; joining program and arguments with single spaces reproduces the command |
| Workflow.NpmTestParts | bin/main.js:91 | the default command `npm test` runs program `npm` with arguments `["test"]` |
| Workflow.BumpType | bin/main.js:134 | `versionType \|\| 'patch'`: always truthy; a truthy `versionType` is passed unchanged, a falsy one becomes `"patch"` |
| DepMerge.DefaultToObject | bin/main.js:95-96 | the result is of type 'object'; a value already of type 'object' (null included) is kept; any other value becomes exactly `{}` |
| DepMerge.Assign | bin/main.js:97-100 | one property assignment of a spread: the name set gains `name`, `name` maps to the new value, every other lookup is unchanged, existing names keep their positions, the size grows only for a new name |
| DepMerge.Spread | bin/main.js:97-100 | `{...target, ...src}`: names are the union, names of `src` take `src`'s values, the others keep `target`'s, `target`'s names keep their positions, and after them come exactly `src`'s entries with names new to `target`, in `src`'s order (`Fresh`) |
| DepMerge.SpreadIntoEmpty | bin/main.js:97-98 | spreading an object into `{}` copies it exactly, order included |
| DepMerge.MergeDependencies | bin/main.js:97-100 | names are exactly those of `dependencies` and `devDependencies`; on a shared name the `devDependencies` value wins; `dependencies` names come first in their own order, followed by exactly the `devDependencies` entries whose names `dependencies` lacks, in their order |
| DepMerge.DefaultedMergeIsTotal | bin/main.js:95-100 | after defaulting, the merge is defined for any field values, a non-object field contributes no name, and the merged map has one entry per distinct name |
| DepMerge.KeyedSize | bin/main.js:97-100 | an object has exactly as many entries as distinct names |
| MajorCheck.Manifest.constructor | bin/main.js:82 | a manifest holds the name and the two dependency fields as read |
| MajorCheck.Manifest.DefaultDependencyFields | bin/main.js:95-96 | each dependency field becomes `DefaultToObject` of its old value, in place |
| MajorCheck.StripCaret | bin/main.js:118-119 | removes one leading `^` and nothing else: with a leading `^` the input is `^` followed by the result, otherwise the result is the input |
| MajorCheck.MajorOf | bin/main.js:120-121 | `v.split('.')[0]` is the prefix before the first `.`, the whole string when there is none, and never contains `.` |
| MajorCheck.MajorOfDotted | bin/main.js:120-121 | the major of `a.b…` with dot-free `a` is `a` |
| MajorCheck.Classify | bin/main.js:113-127 | Unchanged iff the raw strings are equal; Major iff they differ and the majors of the caret-stripped versions differ; Minor/Patch otherwise |
| MajorCheck.ClassifyExamples | bin/main.js:114-127 | `^2.1.0` vs `^2.3.0` is Minor/Patch; `^1.0.0` vs `^2.0.0` is Major |
| MajorCheck.ScanLatest | bin/main.js:112-130 | the inner loop for one local entry logs exactly the line for its match (none when the name is absent) and reports Major exactly when that match is Major |
| MajorCheck.GateAdvance | bin/main.js:111-131 | one turn of the outer loop: after entry `i`'s line, a Major entry completes the log and aborts naming it; otherwise the log and verdict of the entries after `i` complete the whole |
| MajorCheck.CheckMajorUpdates | bin/main.js:111-131 | the nested loops log `GateReport` (one line per matched dependency up to the aborting one) and decide `GateVerdict` |
| MajorCheck.GateProceedsIffNoMajor | bin/main.js:111-127 | the comparator proceeds exactly when no dependency is classified Major |
| MajorCheck.GateAbortNamesFirstMajor | bin/main.js:111-127 | an abort names the first Major dependency in the merged map's iteration order |
| MajorCheck.SameVersionsAllUnchanged | bin/main.js:111-116 | when every local version equals the one found for its name, the gate proceeds and logs every dependency as Unchanged, in order |
| MajorCheck.MajorUpdateGateAsWritten | bin/main.js:94-131 | as written: all four fields are defaulted, and then the gate always proceeds and logs every local dependency as Unchanged, whatever the registry manifest holds |
| MajorCheck.MajorUpdateGate | bin/main.js:94-131 | as intended: fields defaulted in place, then the log and verdict are those of comparing the merged local map with the merged registry map |
| MajorCheck.AsWrittenMissesMajorBump | bin/main.js:106-109 | local `lodash ^4.17.21`, registry `lodash ^5.0.0`: the map rebuilt from the local manifest proceeds, the registry map aborts naming `lodash` |
| Workflow.PlanIsOrdered | bin/main.js:84-154 | every run takes its steps in the workflow's fixed order, each at most once |
| Workflow.PlanExitCodes | bin/main.js:84-154 | every run ends with exit code 0 or 1 |
| Workflow.ManualOnlyStopsRun | bin/main.js:84-88 | a truthy `manualOnly` exits 1 with at most the one notice and no tests, bump or publish |
| Workflow.TestsRunWhenConfigured | bin/main.js:90-92 | tests run iff `manualOnly` is falsy, `runTests` truthy and `testCommand` a string; they run first, with the split command |
| Workflow.MajorCheckRunsWhenConfigured | bin/main.js:94 | the major check runs iff `manualOnly` is falsy, `manualCheckOnMajor` truthy and the tests did not fail |
| Workflow.BumpRunsWhenReached | bin/main.js:84-134 | `npm version` runs iff `manualOnly` is falsy, the tests did not fail and the major check, when configured, passed: failed tests, a Major abort or a failed registry lookup skip the bump |
| Workflow.PlanShape | bin/main.js:134-150 | a run that reaches `npm publish` consists of tests, check, bump, `.npmrc` write and publish, then fails or finishes; any other run exits 1 without touching `.npmrc` or publishing |
| Workflow.PublishFollowsBump | bin/main.js:134-146 | publish runs iff every earlier stage succeeded, and a `npm version` with `versionType \|\| 'patch'` precedes it |
| Workflow.CredentialsLeftOnPublishFailure | bin/main.js:142-150 | `.npmrc` is removed iff publish succeeded; it is written and left behind iff publish was reached and failed |
| Workflow.SuccessIffPublished | bin/main.js:152-154 | exit code 0 iff the package was published, `discordNotifications` is not null or absent, and a requested publish notice was delivered |
| Workflow.DefaultRunPublishes | bin/main.js:159-169 | with the setup-mode defaults and every step succeeding: `npm test`, major check, patch bump, `.npmrc`, publish, cleanup, publish notice, exit 0 |

## Left out

- **Child processes.** `runCmd` is not modelled: spawning, output streaming and exit events (bin/main.js:27-59). Only each command's success or failure reaches the plan, as an input.
- **Spawn errors of the test command.** The `error` handler (bin/main.js:55-57) does nothing for the test command, so such a run ends without an error verdict. This is not modelled.
- **HTTP.** The registry GET and the webhook POST are inputs:
  - the registry lookup's outcome is the `RegistryFailed` gate result;
  - whether the webhook can be reached is `webhookOk`.
- **Files.** These file operations are not modelled:
  - reading `.github/.life-machine.json` and `package.json`;
  - re-reading the new version;
  - the text written to `.npmrc`, including its unexpanded `${NPM_TOKEN}` placeholder.
- **Token checks.** The token and argument checks are not part of the plan (bin/main.js:63-78). Whether the process exits there depends on async ordering.
- **Setup mode.** It is not modelled, apart from the configuration it writes (`Workflow.SetupDefaults`), because it only writes fixed template files.
- **Non-awaited `throwError` calls.** Their event-loop ordering is not modelled. A failure is modelled as ending the run at once.
- **Message text.** The console and webhook message text is not modelled. That includes the `+ + '!'` at bin/main.js:152, which appends `NaN` to the publish notice.
- Classify: models the intended caret strip. The assignments at bin/main.js:118-119 reassign `const` loop bindings, and in JavaScript that throws a TypeError. The model does not include that exception. As written, the branch cannot be reached anyway, because every matched pair is identical.
- **Object key order.** Objects are ordered by insertion. JavaScript's rule that integer-like keys come first is not modelled.
- **Odd field types.** These are outside the model:
  - dependency fields that are arrays;
  - version values that are not strings;
  - JSON numbers that are not integers.
- **Non-string `versionType`.** A truthy `versionType` that is not a string reaches `npm version` unchanged. How the shell renders it is not modelled.

## Findings

| source | as written | input that shows it | evidently intended | confidence | as-written member | corrected member |
|---|---|---|---|---|---|---|
| bin/main.js:106-109 | `latestSharedDeps` spreads `pkgJson.dependencies` and `pkgJson.devDependencies`, the local manifest, so every dependency is compared with itself and the gate never aborts | locally `lodash: ^4.17.21`, latest registry manifest `lodash: ^5.0.0`: the gate proceeds (`MajorCheck.AsWrittenMissesMajorBump`) | spread `latestPkgJson.dependencies` and `latestPkgJson.devDependencies`, so this run aborts naming `lodash` | high; not executed | MajorCheck.MajorUpdateGateAsWritten | MajorCheck.MajorUpdateGate |
