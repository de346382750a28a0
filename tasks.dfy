/**
 * The task tree `createScriptTasks` returns (development/build/scripts.js:25-84,
 * 150-152): for each build flavour a parallel task of the factor bundles and
 * the contentscript series, each in a child process, plus live reload in
 * development mode; and the lavamoat dashboard task.
 */
module Tasks {
  import opened Wrappers
  import opened Envify
  import opened Pipeline
  import opened Instrumentation
  import opened Bundler

  /** A member of a bundle task's parallel composition. */
  datatype Subtask =
    /** `runInChildProcess(task)`, naming the task it runs */
    | RunInChildProcess(name: string)
    /** `initiateLiveReload({ livereload })`; `hasHandle` when a livereload server was passed */
    | InitiateLiveReload(hasHandle: bool)

  /** The options `createNormalBundle` destructures. */
  datatype NormalBundleConfig = NormalBundleConfig(
    destName: string,
    srcPath: string,
    devMode: bool,
    test: bool,
    watchify: bool)

  /** `createBundleTasks(name, ...)`: the named parallel task and what its children build. */
  datatype BundleTask = BundleTask(
    name: string,
    parallel: seq<Subtask>,
    factorDevMode: bool,
    factorTest: bool,
    contentscript: seq<NormalBundleConfig>)

  datatype ScriptTasks = ScriptTasks(
    prod: BundleTask,
    dev: BundleTask,
    testDev: BundleTask,
    test: BundleTask,
    lavamoat: string)

  /** `.filter(Boolean)` over entries that are either a task or a falsy value. */
  function Compact<T(!new)>(xs: seq<Option<T>>): (r: seq<T>)
    ensures |r| <= |xs|
    ensures forall x :: x in r <==> Some(x) in xs
    decreases |xs|
  {
    if xs == [] then []
    else (if xs[0].Some? then [xs[0].value] else []) + Compact(xs[1..])
  }

  /** Filtering keeps the order: filtering a concatenation concatenates the filtered parts. */
  lemma {:induction false} CompactConcat<T(!new)>(xs: seq<Option<T>>, ys: seq<Option<T>>)
    ensures Compact(xs + ys) == Compact(xs) + Compact(ys)
    decreases |xs|
  {
    if xs == [] {
      assert xs + ys == ys;
    } else {
      assert (xs + ys)[0] == xs[0];
      assert (xs + ys)[1..] == xs[1..] + ys;
      CompactConcat(xs[1..], ys);
    }
  }

  /** Entries that are all tasks pass through unchanged. */
  lemma {:induction false} CompactAllSome<T(!new)>(xs: seq<Option<T>>)
    requires forall i :: 0 <= i < |xs| ==> xs[i].Some?
    ensures |Compact(xs)| == |xs|
    ensures forall i :: 0 <= i < |xs| ==> Compact(xs)[i] == xs[i].value
    decreases |xs|
  {
    if xs != [] {
      CompactAllSome(xs[1..]);
    }
  }

  const InpageName: string := "inpage"
  const ContentscriptName: string := "contentscript"

  function BundleFile(name: string): string { name + ".js" }

  /** The names `createBundleTasks` gives its three tasks. */
  function TaskName(name: string): string { "scripts:" + name }
  function FactorTaskName(name: string): string { TaskName(name) + ":factor" }
  function ContentscriptTaskName(name: string): string { TaskName(name) + ":contentscript" }
  function ScriptPath(name: string): string { "./app/scripts/" + name + ".js" }

  /**
   * `createBuildContentscriptTask` as written: it destructures a `testing`
   * option that its caller never passes and forwards it under a key that
   * `createNormalBundle` does not read, so `test` is always unset.
   */
  function ContentscriptBundlesAsWritten(devMode: bool, test: bool): (cs: seq<NormalBundleConfig>)
    ensures |cs| == 2
    ensures cs[0].destName == "inpage.js" && cs[0].srcPath == "./app/scripts/inpage.js" && !cs[0].watchify
    ensures cs[1].destName == "contentscript.js" && cs[1].srcPath == "./app/scripts/contentscript.js"
    ensures cs[1].watchify == devMode
    ensures forall i :: 0 <= i < |cs| ==> cs[i].devMode == devMode && !cs[i].test
  {
    [ NormalBundleConfig(BundleFile(InpageName), ScriptPath(InpageName), devMode, false, false),
      NormalBundleConfig(BundleFile(ContentscriptName), ScriptPath(ContentscriptName), devMode, false, devMode) ]
  }

  /**
   * The corrected contentscript series, with the caller's `test` flag passed through:
   * inpage first, never watched, so that it can be inserted into the
   * contentscript, which is watched exactly in development mode.
   */
  function ContentscriptBundles(devMode: bool, test: bool): (cs: seq<NormalBundleConfig>)
    ensures |cs| == 2
    ensures cs[0].destName == "inpage.js" && cs[0].srcPath == "./app/scripts/inpage.js" && !cs[0].watchify
    ensures cs[1].destName == "contentscript.js" && cs[1].srcPath == "./app/scripts/contentscript.js"
    ensures cs[1].watchify == devMode
    ensures forall i :: 0 <= i < |cs| ==> cs[i].devMode == devMode && cs[i].test == test
  {
    [ NormalBundleConfig(BundleFile(InpageName), ScriptPath(InpageName), devMode, test, false),
      NormalBundleConfig(BundleFile(ContentscriptName), ScriptPath(ContentscriptName), devMode, test, devMode) ]
  }

  /** The two differ only in the `test` flag. */
  lemma ContentscriptDiffersOnlyInTest(devMode: bool)
    ensures ContentscriptBundlesAsWritten(devMode, false) == ContentscriptBundles(devMode, false)
    ensures ContentscriptBundlesAsWritten(devMode, true) != ContentscriptBundles(devMode, true)
  {
    assert ContentscriptBundles(devMode, true)[0].test;
  }

  /**
   * As written, a test build injects `IN_TEST` into its factor bundles but
   * not into the inpage or contentscript bundles.
   */
  lemma ContentscriptTestFlagLost(devMode: bool, env: ProcessEnv)
    ensures EnvifyVars(devMode, true, env).inTest == Str("true")
    ensures forall c :: c in ContentscriptBundlesAsWritten(devMode, true) ==>
              EnvifyVars(c.devMode, c.test, env).inTest == Bool(false)
  {
  }

  /** With the flag passed through, every bundle of a test build sees `IN_TEST`. */
  lemma ContentscriptTestFlagKept(devMode: bool, test: bool, env: ProcessEnv)
    ensures forall c :: c in ContentscriptBundles(devMode, test) ==>
              EnvifyVars(c.devMode, c.test, env).inTest == EnvifyVars(devMode, test, env).inTest
    ensures test ==> forall c :: c in ContentscriptBundles(devMode, test) ==>
              EnvifyVars(c.devMode, c.test, env).inTest == Str("true")
  {
  }

  /**
   * `createBundleTasks(name, { devMode, test, livereload })`, as written: the
   * factor bundles receive `test`, the contentscript series does not.
   * `livereload` is whether a livereload server was passed.
   */
  function BundleTasks(name: string, devMode: bool, test: bool, livereload: bool): (t: BundleTask)
    ensures t.name == TaskName(name)
    ensures t.parallel == [RunInChildProcess(FactorTaskName(name)), RunInChildProcess(ContentscriptTaskName(name))]
                          + (if devMode then [InitiateLiveReload(livereload)] else [])
    ensures t.factorDevMode == devMode && t.factorTest == test
    ensures t.contentscript == ContentscriptBundlesAsWritten(devMode, test)
  {
    var children := [ Some(RunInChildProcess(FactorTaskName(name))),
                      Some(RunInChildProcess(ContentscriptTaskName(name))) ];
    var reload: seq<Option<Subtask>> := [if devMode then Some(InitiateLiveReload(livereload)) else None];
    CompactConcat(children, reload);
    CompactAllSome(children);
    assert reload[1..] == [];
    BundleTask(TaskName(name), Compact(children + reload), devMode, test, ContentscriptBundlesAsWritten(devMode, test))
  }

  /** `createScriptTasks({ browserPlatforms, livereload })`; `livereload` is whether a server was passed. */
  function CreateScriptTasks(livereload: bool): (r: ScriptTasks)
    ensures r.prod.name == TaskName("prod") && r.dev.name == TaskName("dev")
    ensures r.testDev.name == TaskName("testDev") && r.test.name == TaskName("test")
    ensures r.lavamoat == "lavamoat:dashboard"
    ensures r.prod.factorDevMode == r.prod.factorTest == r.dev.factorTest == r.test.factorDevMode == false
    ensures r.dev.factorDevMode && r.testDev.factorDevMode && r.testDev.factorTest && r.test.factorTest
  {
    ScriptTasks(
      BundleTasks("prod", false, false, false),
      BundleTasks("dev", true, false, false),
      BundleTasks("testDev", true, true, livereload),
      BundleTasks("test", false, true, false),
      "lavamoat:dashboard")
  }

  /** Whether a bundle task starts live reload. */
  predicate StartsLiveReload(t: BundleTask) {
    exists h :: InitiateLiveReload(h) in t.parallel
  }

  /** A bundle task starts live reload exactly in development mode, with the server it was given. */
  lemma {:induction false} BundleTaskLiveReload(name: string, devMode: bool, test: bool, livereload: bool, h: bool)
    ensures StartsLiveReload(BundleTasks(name, devMode, test, livereload)) <==> devMode
    ensures InitiateLiveReload(h) in BundleTasks(name, devMode, test, livereload).parallel <==> devMode && h == livereload
  {
    var ps := BundleTasks(name, devMode, test, livereload).parallel;
    assert ps[0].RunInChildProcess? && ps[1].RunInChildProcess?;
    if devMode {
      assert ps == [ps[0], ps[1], InitiateLiveReload(livereload)];
    } else {
      assert ps == [ps[0], ps[1]];
    }
  }

  /** Only the two development tasks start live reload. */
  lemma LiveReloadOnlyInDevelopment(livereload: bool)
    ensures var r := CreateScriptTasks(livereload);
      && StartsLiveReload(r.dev) && StartsLiveReload(r.testDev)
      && !StartsLiveReload(r.prod) && !StartsLiveReload(r.test)
  {
    BundleTaskLiveReload("prod", false, false, false, false);
    BundleTaskLiveReload("dev", true, false, false, false);
    BundleTaskLiveReload("testDev", true, true, livereload, livereload);
    BundleTaskLiveReload("test", false, true, false, false);
  }

  /**
   * The `dev` task never receives the livereload server, so its live reload
   * has nothing to notify; only `testDev` passes the server on.
   */
  lemma DevLiveReloadWithoutHandle(livereload: bool)
    ensures var r := CreateScriptTasks(livereload);
      && InitiateLiveReload(false) in r.dev.parallel
      && InitiateLiveReload(true) !in r.dev.parallel
      && (InitiateLiveReload(true) in r.testDev.parallel <==> livereload)
  {
    BundleTaskLiveReload("dev", true, false, false, false);
    BundleTaskLiveReload("dev", true, false, false, true);
    BundleTaskLiveReload("testDev", true, true, livereload, true);
  }

  /**
   * `createBuildContentscriptTask({ devMode, testing })` as its caller invokes it
   * with `{ devMode, test }`: inpage, then contentscript, each a normal bundle
   * built from its configuration. The caller's `test` never arrives, so both
   * bundles are built for a non-test environment.
   */
  method BuildContentscript(devMode: bool, test: bool, platforms: seq<string>, env: ProcessEnv)
    returns (inpage: BundlerSetup, contentscript: BundlerSetup)
    ensures inpage.entries == ["./app/scripts/inpage.js"] && inpage.plugin == []
    ensures contentscript.entries == ["./app/scripts/contentscript.js"]
    ensures contentscript.plugin == if devMode then [Watchify] else []
    ensures inpage.transform == contentscript.transform == DefaultTransforms(devMode, false, env)
    ensures inpage.listeners == NormalListeners("inpage.js", devMode, false, platforms)
    ensures contentscript.listeners == NormalListeners("contentscript.js", devMode, devMode, platforms)
  {
    var cs := ContentscriptBundlesAsWritten(devMode, test);
    var p: StagedPipeline;
    inpage, p := BuildNormal(cs[0].destName, cs[0].srcPath, cs[0].devMode, cs[0].test, cs[0].watchify, platforms, env);
    contentscript, p := BuildNormal(cs[1].destName, cs[1].srcPath, cs[1].devMode, cs[1].test, cs[1].watchify, platforms, env);
  }
}
