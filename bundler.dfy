/**
 * Bundler option assembly and the three bundle builds
 * (development/build/scripts.js:86-199, 203-326): a fresh options object and
 * event emitter per build, the shared defaults, the build-specific options and
 * listeners, and the pipeline each build pushes its bundle through.
 */
module Bundler {
  import opened Wrappers
  import opened Environment
  import opened Envify
  import opened Pipeline
  import opened Instrumentation

  /** The source transforms of `setupBundlerDefaults`, in order. */
  datatype Transform =
    | Babelify
    | BabelifyGlobal(only: seq<string>, plugins: seq<string>)
    | Brfs
    | EnvifyGlobal(vars: EnvifyTable)

  /** The browserify plugins the build adds. */
  datatype Plugin =
    | Watchify
    /** bify-package-factor; `lavamoatPacker` when it is given the lavamoat `createPacker` */
    | BifyPackageFactor(lavamoatPacker: bool)
    | LavamoatBrowserify(config: string, writeAutoConfig: bool)
    | DepsDump(filename: string)

  const UiEntry: string := "app/scripts/ui.js"
  const BackgroundEntry: string := "app/scripts/background.js"
  const LavamoatConfig: string := "./dist/lavamoat/lavamoat-config.json"
  const DepsDumpFile: string := "./dist/lavamoat/deps.json"

  function DefaultTransforms(devMode: bool, test: bool, env: ProcessEnv): seq<Transform> {
    [ Babelify,
      BabelifyGlobal(["./**/node_modules/libp2p"], ["@babel/plugin-proposal-object-rest-spread"]),
      Brfs,
      EnvifyGlobal(EnvifyVars(devMode, test, env)) ]
  }

  /**
   * The options object and event emitter of one build (`createBundlerSetup`).
   * `listeners` are the handlers registered for the 'pipeline' event, in
   * registration order. Options the source never sets are `None`.
   */
  class BundlerSetup {
    var entries: seq<string>
    var transform: seq<Transform>
    var plugin: seq<Plugin>
    var fullPaths: Option<bool>
    var debug: Option<bool>
    var dedupe: Option<bool>
    /** `cache: {}` and `packageCache: {}`, which watchify requires */
    var watchifyCaches: bool
    /** the recommended lavamoat-browserify arguments have been merged in */
    var lavamoatArgs: bool
    var listeners: seq<Listener>

    /** `createBundlerSetup()` */
    constructor ()
      ensures entries == [] && transform == [] && plugin == [] && listeners == []
      ensures fullPaths == None && debug == None && dedupe == None
      ensures !watchifyCaches && !lavamoatArgs
    {
      entries, transform, plugin, listeners := [], [], [], [];
      fullPaths, debug, dedupe := None, None, None;
      watchifyCaches, lavamoatArgs := false, false;
    }

    /** `events.on('pipeline', listener)` */
    method On(l: Listener)
      modifies this
      ensures listeners == old(listeners) + [l]
      ensures entries == old(entries) && transform == old(transform) && plugin == old(plugin)
      ensures fullPaths == old(fullPaths) && debug == old(debug) && dedupe == old(dedupe)
      ensures watchifyCaches == old(watchifyCaches) && lavamoatArgs == old(lavamoatArgs)
    {
      listeners := listeners + [l];
    }

    /** `setupWatchify`: the watchify plugin after the existing ones, its caches and its error hook. */
    method SetupWatchify()
      modifies this
      ensures plugin == old(plugin) + [Watchify]
      ensures watchifyCaches
      ensures listeners == old(listeners) + [WatchifyErrorHook]
      ensures entries == old(entries) && transform == old(transform)
      ensures fullPaths == old(fullPaths) && debug == old(debug) && dedupe == old(dedupe)
      ensures lavamoatArgs == old(lavamoatArgs)
    {
      plugin := plugin + [Watchify];
      watchifyCaches := true;
      On(WatchifyErrorHook);
    }

    /**
     * `setupBundlerDefaults`: the transforms, `fullPaths` and `debug`, then
     * watchify if asked for, then the defaults listener.
     */
    method SetupDefaults(devMode: bool, test: bool, watchify: bool, env: ProcessEnv)
      modifies this
      ensures transform == DefaultTransforms(devMode, test, env)
      ensures fullPaths == Some(devMode) && debug == Some(true)
      ensures plugin == old(plugin) + (if watchify then [Watchify] else [])
      ensures watchifyCaches == (old(watchifyCaches) || watchify)
      ensures listeners == old(listeners) + (if watchify then [WatchifyErrorHook] else []) + [Defaults(devMode)]
      ensures entries == old(entries) && dedupe == old(dedupe) && lavamoatArgs == old(lavamoatArgs)
    {
      transform := DefaultTransforms(devMode, test, env);
      fullPaths := Some(devMode);
      debug := Some(true);
      if watchify {
        SetupWatchify();
      }
      On(Defaults(devMode));
    }

    /** The factor build's `Object.assign`: both entry points, no dedupe, the factor plugin last. */
    method AssignFactorOptions()
      modifies this
      ensures entries == [UiEntry, BackgroundEntry]
      ensures dedupe == Some(false)
      ensures plugin == old(plugin) + [BifyPackageFactor(false)]
      ensures transform == old(transform) && listeners == old(listeners)
      ensures fullPaths == old(fullPaths) && debug == old(debug)
      ensures watchifyCaches == old(watchifyCaches) && lavamoatArgs == old(lavamoatArgs)
    {
      entries := [UiEntry, BackgroundEntry];
      dedupe := Some(false);
      plugin := plugin + [BifyPackageFactor(false)];
    }

    /**
     * The lavamoat build's `Object.assign`: the recommended arguments, both
     * entry points, no dedupe, then the lavamoat, factor and deps-dump plugins.
     */
    method AssignLavamoatOptions()
      modifies this
      ensures lavamoatArgs
      ensures entries == [UiEntry, BackgroundEntry]
      ensures dedupe == Some(false)
      ensures plugin == old(plugin) + [LavamoatBrowserify(LavamoatConfig, true), BifyPackageFactor(true), DepsDump(DepsDumpFile)]
      ensures transform == old(transform) && listeners == old(listeners)
      ensures fullPaths == old(fullPaths) && debug == old(debug) && watchifyCaches == old(watchifyCaches)
    {
      lavamoatArgs := true;
      entries := [UiEntry, BackgroundEntry];
      dedupe := Some(false);
      plugin := plugin + [LavamoatBrowserify(LavamoatConfig, true), BifyPackageFactor(true), DepsDump(DepsDumpFile)];
    }

    /** `bundlerOpts.entries = [srcPath]` */
    method SetEntry(srcPath: string)
      modifies this
      ensures entries == [srcPath]
      ensures transform == old(transform) && plugin == old(plugin) && listeners == old(listeners)
      ensures fullPaths == old(fullPaths) && debug == old(debug) && dedupe == old(dedupe)
      ensures watchifyCaches == old(watchifyCaches) && lavamoatArgs == old(lavamoatArgs)
    {
      entries := [srcPath];
    }
  }

  /** The stages of a fresh pipeline once the listeners `ls` have fired, in order. */
  function StagesAfter(ls: seq<Listener>): (st: Stages)
    ensures Full(st)
  {
    PushAll(EmptyStages(), AllPushes(ls))
  }

  /**
   * `performBundle`: a fresh six-stage pipeline, then the 'pipeline' event.
   * Streaming the bundle through it is not modelled.
   */
  method PerformBundle(setup: BundlerSetup) returns (p: StagedPipeline)
    ensures fresh(p) && p.Valid()
    ensures p.stages == StagesAfter(setup.listeners)
  {
    p := new StagedPipeline();
    Emit(setup.listeners, p);
  }

  /** Registration order of the factor build's listeners. */
  function FactorListeners(devMode: bool, platforms: seq<string>): seq<Listener> {
    (if devMode then [WatchifyErrorHook] else []) + [Defaults(devMode), FactorDestinations(platforms)]
  }

  /** Registration order of a normal build's listeners. */
  function NormalListeners(destName: string, devMode: bool, watchify: bool, platforms: seq<string>): seq<Listener> {
    (if watchify then [WatchifyErrorHook] else []) + [Defaults(devMode), NormalInstrumentation(destName, platforms)]
  }

  /** The lavamoat build registers only the defaults listener, with development mode off. */
  const LavamoatListeners: seq<Listener> := [Defaults(false)]

  /** `createFactorBundles({ devMode, test })`, up to the pipeline it bundles into. */
  method BuildFactor(devMode: bool, test: bool, platforms: seq<string>, env: ProcessEnv)
    returns (setup: BundlerSetup, p: StagedPipeline)
    ensures fresh(setup) && fresh(p) && p.Valid()
    ensures setup.entries == [UiEntry, BackgroundEntry] && setup.dedupe == Some(false)
    ensures setup.transform == DefaultTransforms(devMode, test, env)
    ensures setup.plugin == (if devMode then [Watchify] else []) + [BifyPackageFactor(false)]
    ensures setup.watchifyCaches == devMode && !setup.lavamoatArgs
    ensures setup.listeners == FactorListeners(devMode, platforms)
    ensures p.stages == StagesAfter(FactorListeners(devMode, platforms))
  {
    setup := new BundlerSetup();
    setup.SetupDefaults(devMode, test, devMode, env);
    setup.AssignFactorOptions();
    setup.On(FactorDestinations(platforms));
    p := PerformBundle(setup);
  }

  /** `createNormalBundle({ destName, srcPath, devMode, test, watchify })`, up to its pipeline. */
  method BuildNormal(destName: string, srcPath: string, devMode: bool, test: bool, watchify: bool,
                     platforms: seq<string>, env: ProcessEnv)
    returns (setup: BundlerSetup, p: StagedPipeline)
    ensures fresh(setup) && fresh(p) && p.Valid()
    ensures setup.entries == [srcPath] && setup.dedupe == None
    ensures setup.transform == DefaultTransforms(devMode, test, env)
    ensures setup.plugin == if watchify then [Watchify] else []
    ensures setup.watchifyCaches == watchify && !setup.lavamoatArgs
    ensures setup.listeners == NormalListeners(destName, devMode, watchify, platforms)
    ensures p.stages == StagesAfter(NormalListeners(destName, devMode, watchify, platforms))
  {
    setup := new BundlerSetup();
    setup.SetupDefaults(devMode, test, watchify, env);
    setup.SetEntry(srcPath);
    setup.On(NormalInstrumentation(destName, platforms));
    p := PerformBundle(setup);
  }

  /**
   * `createLavamoatTask`: the defaults without any flags, the lavamoat
   * options, and no destination listener.
   */
  method BuildLavamoat(env: ProcessEnv) returns (setup: BundlerSetup, p: StagedPipeline)
    ensures fresh(setup) && fresh(p) && p.Valid()
    ensures setup.entries == [UiEntry, BackgroundEntry] && setup.dedupe == Some(false)
    ensures setup.transform == DefaultTransforms(false, false, env)
    ensures setup.plugin == [LavamoatBrowserify(LavamoatConfig, true), BifyPackageFactor(true), DepsDump(DepsDumpFile)]
    ensures !setup.watchifyCaches && setup.lavamoatArgs
    ensures setup.listeners == LavamoatListeners
    ensures p.stages == StagesAfter(LavamoatListeners)
  {
    setup := new BundlerSetup();
    setup.SetupDefaults(false, false, false, env);
    setup.AssignLavamoatOptions();
    p := PerformBundle(setup);
  }
}
