# Script bundling of the maskedRoar extension build, modelled in Dafny

`development/build/scripts.js` defines the gulp tasks that bundle the
extension's JavaScript. Each bundle is built in the same way:

- a browserify options object and an event emitter are assembled;
- a six-stage pipeline (`bundler`, `vinyl`, `sourcemaps:init`, `minify`,
  `sourcemaps:write`, `dest`) is created;
- the listeners registered for the `pipeline` event push processing units
  onto the stages.

The stream then runs through the stages in order. This project models the
decisions in that file:

- **Environment slug and envify table** (`environment.dfy`, `envify.dfy`):
  - `getEnvironment` is a priority cascade over the development and test
    flags, the CircleCI branch and the pull-request variable;
  - it models the start-anchored release-branch pattern exactly;
  - the envify table injects METAMASK_DEBUG, METAMASK_ENVIRONMENT,
    NODE_ENV, IN_TEST and the PubNub keys.
- **Pipeline** (`pipeline.dfy`):
  - `StagedPipeline` is a class holding the six declared stages;
  - its only mutator is `get(name).push(unit)`, which appends;
  - in the source, a push to a name that was not declared would throw; the
    model reduces that throw to a refused push that changes nothing.
- **Instrumentation listeners** (`instrumentation.dfy`):
  - the defaults listener pushes minification and the source-map writer;
  - the watchify error hook pushes nothing;
  - the factor-bundle listener pushes a rename and a destination per
    platform;
  - the normal-bundle listener pushes the vinyl conversion, buffering,
    source-map init and a destination per platform;
  - each listener is an imperative method proved against a function that
    lists its pushes, and the two destination listeners loop over the
    platforms;
  - emitting the event fires the listeners in registration order.
- **Bundler setup** (`bundler.dfy`):
  - `BundlerSetup` is a class for the options object and the emitter;
  - its methods are `createBundlerSetup`, `setupBundlerDefaults`,
    `setupWatchify`, and the `Object.assign`s of the factor and lavamoat
    builds;
  - `performBundle` is also here;
  - the three builds (factor, normal and lavamoat) assemble their options
    and their pipeline.
- **What each pipeline holds** (`stages.dfy`): what each build's six stages
  hold once the listeners have fired, and the processing order of a
  production bundle.
- **Task tree** (`tasks.dfy`):
  - `createScriptTasks`, `createBundleTasks` with its `.filter(Boolean)`
    parallel list, and the contentscript series;
  - the series is modelled as written, where a mismatch of option names
    drops the test flag; this is listed under Findings, beside a corrected
    series.

Unknown flags are modelled as `false`. Process environment variables are
parameters whose type wraps each one in `Option`: `None` means unset.

## Model

| member | source | states |
|---|---|---|
| Environment.GetEnvironmentDecision | development/build/scripts.js:332-349 | One if-and-only-if for each of the seven slugs: the first rule that applies decides the slug, with the release-branch rule stated through the reference reading of the pattern. |
| Environment.DevModeWins | development/build/scripts.js:334-335 | Development mode yields `development` whatever the test flag and the CI variables are. |
| Environment.UnsetBranchMatchesNothing | development/build/scripts.js:338-343 | An unset CIRCLE_BRANCH never gives production, release-candidate or staging. This holds even though the pattern then tests the string "undefined". |
| Environment.MatchesVersionBranchCorrect | development/build/scripts.js:340 | The greedy matcher accepts a string exactly when it is "Version-v", three non-empty digit strings joined by dots, then anything. |
| Environment.MatchesVersionBranchSound | development/build/scripts.js:340 | Every accepted branch has the reference shape. |
| Environment.MatchesVersionBranchComplete | development/build/scripts.js:340 | Every branch of the reference shape is accepted. |
| Environment.VersionNameMatches | development/build/scripts.js:340 | A name built from three digit runs and any suffix is accepted. |
| Environment.DigitRunEnd | development/build/scripts.js:340 | The greedy `\d+` scan stops at the first non-digit and covers only digits. |
| Environment.DigitRunEndExact | development/build/scripts.js:340 | A digit run ended by a non-digit is exactly where the greedy scan stops. |
| Environment.VersionBranchAccepted | development/build/scripts.js:340 | "Version-v8.1.0" is a release-candidate branch. |
| Environment.VersionBranchSuffixAccepted | development/build/scripts.js:340 | Text after the patch number is allowed, because the pattern is anchored only at the start. |
| Environment.VersionBranchRejected | development/build/scripts.js:340 | A missing patch number, a lower-case prefix or text before the prefix is not a release branch. |
| Environment.SlugName | development/build/scripts.js:335-347 | Every injected slug is one of the seven names. |
| Environment.SlugNameInjective | development/build/scripts.js:335-347 | Distinct slugs are injected as distinct strings. |
| Envify.EnvifyVars | development/build/scripts.js:232-239 | The envify table has these entries: <br>• METAMASK_DEBUG is the development flag. <br>• METAMASK_ENVIRONMENT is the slug without the test flag, so it is never `testing`. <br>• NODE_ENV is `development` exactly in development mode, else `production`. <br>• IN_TEST is `'true'` exactly when testing, else `false`. <br>• Each PubNub key is its value, or "" when the variable is unset. |
| Envify.OrEmpty | development/build/scripts.js:237-238 | `v \|\| ''` is the variable's value, or "" when it is unset. |
| Envify.EnvironmentIgnoresTest | development/build/scripts.js:234 | The test flag never changes METAMASK_ENVIRONMENT. |
| Envify.EnvironmentAgreesWithNodeEnv | development/build/scripts.js:234-235 | METAMASK_ENVIRONMENT is `development` exactly when NODE_ENV is. |
| Pipeline.StagedPipeline.constructor | development/build/scripts.js:288-295 | A fresh pipeline has the six distinct stages in the declared order, each empty. |
| Pipeline.StagedPipeline.Push | development/build/scripts.js:259-273 | `get(name).push(unit)` appends `unit` to the named stage only. An undeclared name finds no stage; the model refuses that push and changes nothing, where the source would throw. |
| Pipeline.StagedPipeline.Units | development/build/scripts.js:288-300 | The stream's processing sequence is the six stages' units in declared order. |
| Pipeline.LabelOf | development/build/scripts.js:288-295 | Looking a name up finds the stage declared under it, or nothing when no stage has that name. |
| Pipeline.LabelOfName | development/build/scripts.js:288-295 | Looking a stage up by its own name finds it. |
| Pipeline.StageNames | development/build/scripts.js:288-295 | There are six stages, named `bundler`, `vinyl`, `sourcemaps:init`, `minify`, `sourcemaps:write` and `dest`, in that order. |
| Pipeline.EmptyStages | development/build/scripts.js:288-295 | Every stage is present and empty. |
| Pipeline.PushAllAppends | development/build/scripts.js:259-273 | Every stage ends with exactly its own pushes appended, in push order. Nothing is reordered, replaced or dropped. |
| Pipeline.PushAllExtends | development/build/scripts.js:259-273 | Pushing keeps the same stages, and each old stage is a prefix of the new one. |
| Pipeline.PushAllThen | development/build/scripts.js:298 | Performing two batches of pushes one after the other is performing them concatenated. |
| Pipeline.PushedToConcat | development/build/scripts.js:259-273 | What a stage receives from two batches of pushes is what it receives from each, in order. |
| Pipeline.FlattenAt | development/build/scripts.js:288-300 | Each stage's units run together: after every earlier stage's units and before every later stage's. |
| Pipeline.FlattenEmpty | development/build/scripts.js:288-295 | A pipeline with no units runs nothing. |
| Instrumentation.FireDefaults | development/build/scripts.js:255-276 | The defaults listener performs exactly the minify pushes (buffer, terser) when not in development mode, then one source-map writer. |
| Instrumentation.FireFactorDestinations | development/build/scripts.js:106-116 | The platform loop performs, for each platform in order, a rename then `./dist/<platform>`. |
| Instrumentation.FireNormalHead | development/build/scripts.js:133-142 | The normal listener first pushes the vinyl source, then buffer and source-map init. |
| Instrumentation.FireNormalDestinations | development/build/scripts.js:143-147 | The platform loop pushes `./dist/<platform>/` for each platform in order. |
| Instrumentation.FireNormalInstrumentation | development/build/scripts.js:133-148 | The whole normal listener: its head pushes, then its destination pushes. |
| Instrumentation.Fire | development/build/scripts.js:255-276 | One listener performs exactly its own pushes. |
| Instrumentation.Emit | development/build/scripts.js:298 | Emitting fires every listener in registration order. The stages become the pushes of all listeners, concatenated. |
| Instrumentation.FactorDestUnits | development/build/scripts.js:106-116 | The factor listener gives `dest` 2·\|platforms\| units: a rename then `Dest("./dist/<platform>")` for each platform in order. It gives every other stage nothing. |
| Instrumentation.NormalDestUnits | development/build/scripts.js:143-147 | The normal listener's loop gives `dest` one `Dest("./dist/<platform>/")` per platform, in order. It gives every other stage nothing. |
| Instrumentation.FlatMapConcat | development/build/scripts.js:298 | The pushes of two listener lists are the first list's pushes followed by the second's. |
| Bundler.BundlerSetup.constructor | development/build/scripts.js:203-211 | A fresh setup has empty `entries`, `transform` and `plugin`, and no listeners. |
| Bundler.BundlerSetup.On | development/build/scripts.js:255 | Registering appends the listener and changes no option. |
| Bundler.BundlerSetup.SetupWatchify | development/build/scripts.js:307-326 | `watchify` is appended after the existing plugins and the caches it needs are set. Its error hook is registered and pushes nothing. |
| Bundler.BundlerSetup.SetupDefaults | development/build/scripts.js:213-277 | It sets the four transforms (the last is the envify table), `fullPaths` to the development flag and `debug` to true. If watchify is wanted, its plugin and error hook come next. The defaults listener is registered last. |
| Bundler.BundlerSetup.AssignFactorOptions | development/build/scripts.js:93-103 | `entries` is replaced by the ui and background scripts, `dedupe` is off, and `bify-package-factor` is appended last. |
| Bundler.BundlerSetup.AssignLavamoatOptions | development/build/scripts.js:161-188 | The lavamoat arguments are merged in, and then the same entries and dedupe are set. The lavamoat, factor (lavamoat packer) and deps-dump plugins follow the existing plugins. |
| Bundler.BundlerSetup.SetEntry | development/build/scripts.js:130 | `entries` is the single source path. |
| Bundler.StagesAfter | development/build/scripts.js:288-298 | The stages of a fresh pipeline after the listeners fire; every stage is present. |
| Bundler.PerformBundle | development/build/scripts.js:287-298 | A fresh pipeline, then the `pipeline` event. The result is exactly the stages after the setup's listeners. |
| Bundler.BuildFactor | development/build/scripts.js:86-119 | The factor build's options, its listener order (watchify hook, defaults, destinations) and the pipeline it bundles into. |
| Bundler.BuildNormal | development/build/scripts.js:122-152 | A normal build's options, its listener order and the pipeline it bundles into. |
| Bundler.BuildLavamoat | development/build/scripts.js:154-198 | The lavamoat build's options, the defaults listener as its only listener, and its pipeline. |
| BundleStages.FactorBundleStages | development/build/scripts.js:106-116 | The factor build's stages after its listeners fire:<br>• `bundler`, `vinyl` and `sourcemaps:init` are empty;<br>• `minify` is `[Buffer, Terser]` outside development mode, else empty;<br>• `sourcemaps:write` holds one writer;<br>• `dest` holds a rename and a destination per platform, in order. |
| BundleStages.NormalBundleStages | development/build/scripts.js:133-148 | A normal build's stages after its listeners fire:<br>• `vinyl` is exactly `[Source(destName)]`;<br>• `sourcemaps:init` is `[Buffer, SmInit]`;<br>• `minify` is `[Buffer, Terser]` outside development mode;<br>• `sourcemaps:write` holds one writer;<br>• `dest` holds one destination per platform, in order. |
| BundleStages.LavamoatBundleStages | development/build/scripts.js:192-193 | The lavamoat pipeline has production minification and the external writer, and nothing in `dest`. |
| BundleStages.NormalProductionOrder | development/build/scripts.js:133-148 | A production normal bundle runs in this order: the source, buffer and source-map init, buffer and terser, the `../sourcemaps` writer, then the destinations. |
| BundleStages.FreshPipelineEmpty | development/build/scripts.js:288-295 | With no listeners, every stage is empty and the pipeline runs nothing. |
| BundleStages.ListenersOnlyAppend | development/build/scripts.js:298 | Firing more listeners only extends each stage. |
| BundleStages.BuildPushes | development/build/scripts.js:250-255 | The watchify hook adds no pushes. A build's pushes are its first listener's then its second's. |
| BundleStages.DefaultsUnits | development/build/scripts.js:258-274 | The defaults listener gives `minify` `[Buffer, Terser]` exactly outside development mode. It gives `sourcemaps:write` the inline writer in development mode, else `../sourcemaps`. It gives nothing elsewhere. |
| BundleStages.NormalHeadUnits | development/build/scripts.js:135-142 | The normal listener's head gives `vinyl` the source, `sourcemaps:init` buffer then init, and nothing else. |
| Tasks.Compact | development/build/scripts.js:39-43 | `.filter(Boolean)` keeps exactly the entries that are tasks and never lengthens the list. |
| Tasks.CompactConcat | development/build/scripts.js:39-43 | Filtering keeps order: filtering a concatenation concatenates the filtered parts. |
| Tasks.CompactAllSome | development/build/scripts.js:39-43 | Entries that are all tasks pass through unchanged. |
| Tasks.BundleTasks | development/build/scripts.js:37-45 | The task `scripts:<label>` runs the factor then the contentscript child tasks, with live reload appended exactly in development mode. The factor bundles get both flags. The contentscript series is the one built as written, so its test flag is unset. |
| Tasks.BundleTaskLiveReload | development/build/scripts.js:39-43 | A bundle task starts live reload exactly in development mode, with the server it was given. |
| Tasks.CreateScriptTasks | development/build/scripts.js:25-33 | The five tasks `scripts:prod`, `scripts:dev`, `scripts:testDev`, `scripts:test` and `lavamoat:dashboard`. It also gives all eight development and test flags of the four bundle tasks. |
| Tasks.LiveReloadOnlyInDevelopment | development/build/scripts.js:27-29 | Only `dev` and `testDev` start live reload. |
| Tasks.DevLiveReloadWithoutHandle | development/build/scripts.js:27-28 | `dev` starts live reload without the livereload server; only `testDev` passes the server on. |
| Tasks.ContentscriptBundles | development/build/scripts.js:62-84 | The contentscript series with the flag passed through:<br>• `inpage.js` from `./app/scripts/inpage.js`, never watched, comes first;<br>• `contentscript.js` from `./app/scripts/contentscript.js` comes second, watched exactly in development mode;<br>• both carry the caller's flags. |
| Tasks.ContentscriptBundlesAsWritten | development/build/scripts.js:36-84 | As written, `inpage.js` from `./app/scripts/inpage.js`, never watched, comes first, and `contentscript.js` from `./app/scripts/contentscript.js`, watched exactly in development mode, comes second. Both carry the caller's development flag but have the test flag unset: the caller passes `test`, the series reads `testing`, and `createNormalBundle` (line 122) reads `test` again. |
| Tasks.ContentscriptTestFlagLost | development/build/scripts.js:36-84 | As written, a test build injects IN_TEST `'true'` into its factor bundles but `false` into inpage and contentscript. |
| Tasks.ContentscriptTestFlagKept | development/build/scripts.js:62-84 | Corrected, every bundle of the series injects the same IN_TEST as the factor bundles. |
| Tasks.ContentscriptDiffersOnlyInTest | development/build/scripts.js:62-84 | The written and corrected series agree outside test builds and differ in test builds. |
| Tasks.BuildContentscript | development/build/scripts.js:62-84 | Inpage is built and then contentscript, from their configurations as written. Both get the transforms of a non-test build, whatever the caller's test flag; only contentscript may carry watchify. |

## Left out

- Stream driving (`bundleStream.pipe`, `pipeline.resume()`, `endOfStream`) and the libraries behind the units (browserify, babelify, brfs, envify, terser, gulp-sourcemaps, gulp-rename, `gulp.dest`): each unit is an opaque token, and only the `get`/`push` surface of `labeled-stream-splicer` is modelled.
- The watchify `update` re-bundling loop: each `performBundle` creates a fresh pipeline, which the model captures, but re-running it is not modelled.
- Task execution (`createTask`, `composeParallel`, `composeSeries`, `runInChildProcess`) lives in `./task`, which is not part of this model. Tasks are modelled as the names and configurations they are given, and the series as an ordered sequence.
- The body of `initiateLiveReload`, a 75-second timer and a file watcher, is I/O and timing. Only its presence and whether it gets the livereload server are modelled.
- `fs.mkdir`, the bell, `console.warn` and `log` output, and what the lavamoat and deps-dump plugins do are I/O.
- The contents of `lavamoatArgs`, `createLavamoatPacker`'s options and the babelify/envify `global` options are third-party configuration. Each is reduced to a flag or a token.
- `browserPlatforms` is a parameter, and so are `process.env` reads (CIRCLE_BRANCH, CIRCLE_PULL_REQUEST, PUBNUB_SUB_KEY, PUBNUB_PUB_KEY).
- Envify.EnvifyVars: METAMASK_DEBUG and `fullPaths` receive `undefined` when `devMode` is not passed (the `prod`, `test` and lavamoat builds). The model uses `false` for every unset flag, because JavaScript treats both as falsy.
- Bundler.BundlerSetup.AssignLavamoatOptions: keys of `lavamoatArgs` that the later options do not override are not modelled, because their contents come from a library outside the repository.
- Pipeline.StagedPipeline.Push: in the source, `get` of an undeclared name gives no stage and `.push` on it throws, which would abort the remaining listeners. The model reduces the throw to `found == false` with no change. No call in the build reaches this case.
- Tasks.BundleTasks and Tasks.BuildContentscript model the program as written, so the contentscript series of a test build is not built for testing. The corrected series is Tasks.ContentscriptBundles, and the model uses it only to state the fix.
- Environment.GetEnvironmentDecision: a CI variable can only be unset or a string; JavaScript values of other types are not modelled.

## Findings

| source | as written | input that shows it | evidently intended | confidence | as-written member | corrected member |
|---|---|---|---|---|---|---|
| development/build/scripts.js:38, 62, 72, 80, 122 | `createBundleTasks` passes `{ test, devMode }` to `createBuildContentscriptTask`, which destructures `testing`; that function then forwards `testing`, while `createNormalBundle` destructures `test`. The test flag is lost on the way, so the inpage and contentscript bundles always get IN_TEST `false`. | the `scripts:test` or `scripts:testDev` task (test true): the factor bundles get IN_TEST `'true'`, the inpage and contentscript bundles get `false` | the contentscript series is built with the caller's test flag, like the factor bundles | not executed | Tasks.ContentscriptBundlesAsWritten, Tasks.ContentscriptTestFlagLost | Tasks.ContentscriptBundles, Tasks.ContentscriptTestFlagKept |
