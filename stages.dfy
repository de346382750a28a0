/**
 * What each build's pipeline holds once the 'pipeline' event has fired
 * (development/build/scripts.js:106-116, 133-148, 192-193, 255-276, 288-295).
 */
module BundleStages {
  import opened Pipeline
  import opened Instrumentation
  import opened Bundler

  /** The minify stage outside development mode. */
  const MinifyUnits: seq<Unit> := [Buffer, Terser]

  /** The one source-map writer of a build. */
  function SourcemapWriter(devMode: bool): Unit {
    if devMode then SmWriteInline else SmWriteExternal(SourcemapsDir)
  }

  lemma {:induction false} StageAfter(ls: seq<Listener>, stage: Label)
        ensures StagesAfter(ls)[stage] == PushedTo(AllPushes(ls), stage)
  {
    PushAllAppends(EmptyStages(), AllPushes(ls), stage);
  }

  lemma {:induction false} AllPushesSingle(l: Listener)
    ensures AllPushes([l]) == ListenerPushes(l)
  {
    assert [l][..0] == [];
    assert FlatMap([l], ListenerPushes) == FlatMap([l][..0], ListenerPushes) + ListenerPushes([l][0]);
  }

  /** The pushes of a build are those of its listeners in registration order; the watchify hook adds none. */
  lemma {:induction false} BuildPushes(hook: bool, first: Listener, second: Listener)
    ensures AllPushes((if hook then [WatchifyErrorHook] else []) + [first, second])
         == ListenerPushes(first) + ListenerPushes(second)
  {
    var ls := (if hook then [WatchifyErrorHook] else []) + [first, second];
    var front := if hook then [WatchifyErrorHook] else [];
    FlatMapConcat(front, [first, second], ListenerPushes);
    FlatMapConcat([first], [second], ListenerPushes);
    assert [first] + [second] == [first, second];
    AllPushesSingle(first);
    AllPushesSingle(second);
    if hook {
      AllPushesSingle(WatchifyErrorHook);
    }
  }

  /** The units one push contributes to a stage. */
  function UnitIf(x: PushOp, stage: Label): seq<Unit> {
    if x.stage == stage then [x.unit] else []
  }

  lemma {:induction false} PushedToSingle(x: PushOp, stage: Label)
    ensures PushedTo([x], stage) == UnitIf(x, stage)
  {
    assert [x][..0] == [];
  }

  lemma {:induction false} PushedToThree(a: PushOp, b: PushOp, c: PushOp, stage: Label)
    ensures PushedTo([a, b, c], stage) == UnitIf(a, stage) + UnitIf(b, stage) + UnitIf(c, stage)
  {
    PushedToConcat([a], [b], stage);
    PushedToConcat([a, b], [c], stage);
    assert [a] + [b] == [a, b];
    assert [a, b] + [c] == [a, b, c];
    PushedToSingle(a, stage);
    PushedToSingle(b, stage);
    PushedToSingle(c, stage);
  }

  lemma {:induction false} DefaultsUnits(devMode: bool, stage: Label)
    ensures PushedTo(DefaultsPushes(devMode), stage) ==
      if stage == Minify then (if devMode then [] else MinifyUnits)
      else if stage == SourcemapsWrite then [SourcemapWriter(devMode)]
      else []
  {
    var writer := PushOp(SourcemapsWrite, SourcemapWriter(devMode));
    if devMode {
      assert DefaultsPushes(devMode) == [writer];
      PushedToSingle(writer, stage);
    } else {
      assert DefaultsPushes(devMode) == [PushOp(Minify, Buffer), PushOp(Minify, Terser), writer];
      PushedToThree(PushOp(Minify, Buffer), PushOp(Minify, Terser), writer, stage);
    }
  }

  lemma {:induction false} NormalHeadUnits(destName: string, stage: Label)
    ensures PushedTo(NormalHeadPushes(destName), stage) ==
      if stage == VinylStage then [Source(destName)]
      else if stage == SourcemapsInit then [Buffer, SmInit]
      else []
  {
    PushedToThree(PushOp(VinylStage, Source(destName)), PushOp(SourcemapsInit, Buffer), PushOp(SourcemapsInit, SmInit), stage);
  }

  /**
   * The factor build: nothing in the bundler, vinyl or source-map init
   * stages; minification exactly outside development mode; one source-map
   * writer; and for each platform in order a rename then its output
   * directory.
   */
  lemma FactorBundleStages(devMode: bool, platforms: seq<string>)
    ensures var st := StagesAfter(FactorListeners(devMode, platforms));
      && st[BundlerStage] == [] && st[VinylStage] == [] && st[SourcemapsInit] == []
      && st[Minify] == (if devMode then [] else MinifyUnits)
      && st[SourcemapsWrite] == [SourcemapWriter(devMode)]
      && |st[DestStage]| == 2 * |platforms|
      && (forall i :: 0 <= i < |platforms| ==>
            st[DestStage][2 * i] == Rename && st[DestStage][2 * i + 1] == Dest(FactorDestPath(platforms[i])))
  {
    FactorUpstreamStages(devMode, platforms);
    FactorDefaultStages(devMode, platforms);
    FactorDestStage(devMode, platforms);
  }

  lemma {:induction false} FactorUpstreamStages(devMode: bool, platforms: seq<string>)
    ensures var st := StagesAfter(FactorListeners(devMode, platforms));
      st[BundlerStage] == [] && st[VinylStage] == [] && st[SourcemapsInit] == []
  {
    FactorStage(devMode, platforms, BundlerStage);
    FactorStage(devMode, platforms, VinylStage);
    FactorStage(devMode, platforms, SourcemapsInit);
  }

  lemma {:induction false} FactorDefaultStages(devMode: bool, platforms: seq<string>)
    ensures var st := StagesAfter(FactorListeners(devMode, platforms));
      st[Minify] == (if devMode then [] else MinifyUnits) && st[SourcemapsWrite] == [SourcemapWriter(devMode)]
  {
    FactorStage(devMode, platforms, Minify);
    FactorStage(devMode, platforms, SourcemapsWrite);
  }

  lemma {:induction false} FactorDestStage(devMode: bool, platforms: seq<string>)
    ensures var st := StagesAfter(FactorListeners(devMode, platforms));
      && |st[DestStage]| == 2 * |platforms|
      && (forall i :: 0 <= i < |platforms| ==>
            st[DestStage][2 * i] == Rename && st[DestStage][2 * i + 1] == Dest(FactorDestPath(platforms[i])))
  {
    FactorStage(devMode, platforms, DestStage);
    FactorDestUnits(platforms);
  }

  /** One stage of the factor build's pipeline. */
  lemma {:induction false} FactorStage(devMode: bool, platforms: seq<string>, stage: Label)
    ensures StagesAfter(FactorListeners(devMode, platforms))[stage] ==
      match stage
      case Minify => if devMode then [] else MinifyUnits
      case SourcemapsWrite => [SourcemapWriter(devMode)]
      case DestStage => PushedTo(FactorDestPushes(platforms), DestStage)
      case _ => []
  {
    StageAfter(FactorListeners(devMode, platforms), stage);
    FactorPushesTo(devMode, platforms, stage);
    DefaultsUnits(devMode, stage);
    if stage != DestStage {
      FactorDestOther(platforms, stage);
    }
  }

  lemma {:induction false} FactorPushesTo(devMode: bool, platforms: seq<string>, stage: Label)
    ensures PushedTo(AllPushes(FactorListeners(devMode, platforms)), stage)
         == PushedTo(DefaultsPushes(devMode), stage) + PushedTo(FactorDestPushes(platforms), stage)
  {
    BuildPushes(devMode, Defaults(devMode), FactorDestinations(platforms));
    PushedToConcat(DefaultsPushes(devMode), FactorDestPushes(platforms), stage);
  }

  lemma FactorDestOther(platforms: seq<string>, stage: Label)
    requires stage != DestStage
    ensures PushedTo(FactorDestPushes(platforms), stage) == []
  {
    FactorDestUnits(platforms);
  }

  /**
   * A normal build: the vinyl stage holds exactly the named source, the
   * source-map init stage a buffer then the init, minification exactly
   * outside development mode, one source-map writer, and one output
   * directory per platform in order.
   */
  lemma NormalBundleStages(destName: string, devMode: bool, watchify: bool, platforms: seq<string>)
    ensures var st := StagesAfter(NormalListeners(destName, devMode, watchify, platforms));
      && st[BundlerStage] == []
      && st[VinylStage] == [Source(destName)]
      && st[SourcemapsInit] == [Buffer, SmInit]
      && st[Minify] == (if devMode then [] else MinifyUnits)
      && st[SourcemapsWrite] == [SourcemapWriter(devMode)]
      && |st[DestStage]| == |platforms|
      && (forall i :: 0 <= i < |platforms| ==> st[DestStage][i] == Dest(NormalDestPath(platforms[i])))
  {
    NormalUpstreamStages(destName, devMode, watchify, platforms);
    NormalDefaultStages(destName, devMode, watchify, platforms);
    NormalDestStage(destName, devMode, watchify, platforms);
  }

  lemma {:induction false} NormalUpstreamStages(destName: string, devMode: bool, watchify: bool, platforms: seq<string>)
    ensures var st := StagesAfter(NormalListeners(destName, devMode, watchify, platforms));
      st[BundlerStage] == [] && st[VinylStage] == [Source(destName)] && st[SourcemapsInit] == [Buffer, SmInit]
  {
    NormalStage(destName, devMode, watchify, platforms, BundlerStage);
    NormalStage(destName, devMode, watchify, platforms, VinylStage);
    NormalStage(destName, devMode, watchify, platforms, SourcemapsInit);
  }

  lemma {:induction false} NormalDefaultStages(destName: string, devMode: bool, watchify: bool, platforms: seq<string>)
    ensures var st := StagesAfter(NormalListeners(destName, devMode, watchify, platforms));
      st[Minify] == (if devMode then [] else MinifyUnits) && st[SourcemapsWrite] == [SourcemapWriter(devMode)]
  {
    NormalStage(destName, devMode, watchify, platforms, Minify);
    NormalStage(destName, devMode, watchify, platforms, SourcemapsWrite);
  }

  lemma {:induction false} NormalDestStage(destName: string, devMode: bool, watchify: bool, platforms: seq<string>)
    ensures var st := StagesAfter(NormalListeners(destName, devMode, watchify, platforms));
      && |st[DestStage]| == |platforms|
      && (forall i :: 0 <= i < |platforms| ==> st[DestStage][i] == Dest(NormalDestPath(platforms[i])))
  {
    NormalStage(destName, devMode, watchify, platforms, DestStage);
    NormalDestUnits(platforms);
  }

  /** One stage of a normal build's pipeline. */
  lemma {:induction false} NormalStage(destName: string, devMode: bool, watchify: bool, platforms: seq<string>, stage: Label)
    ensures StagesAfter(NormalListeners(destName, devMode, watchify, platforms))[stage] ==
      match stage
      case BundlerStage => []
      case VinylStage => [Source(destName)]
      case SourcemapsInit => [Buffer, SmInit]
      case Minify => if devMode then [] else MinifyUnits
      case SourcemapsWrite => [SourcemapWriter(devMode)]
      case DestStage => PushedTo(NormalDestPushes(platforms), DestStage)
  {
    StageAfter(NormalListeners(destName, devMode, watchify, platforms), stage);
    NormalPushesTo(destName, devMode, watchify, platforms, stage);
    DefaultsUnits(devMode, stage);
    NormalHeadUnits(destName, stage);
    if stage != DestStage {
      NormalDestOther(platforms, stage);
    }
  }

  lemma {:induction false} NormalPushesTo(destName: string, devMode: bool, watchify: bool, platforms: seq<string>, stage: Label)
    ensures PushedTo(AllPushes(NormalListeners(destName, devMode, watchify, platforms)), stage)
         == PushedTo(DefaultsPushes(devMode), stage) + PushedTo(NormalHeadPushes(destName), stage)
            + PushedTo(NormalDestPushes(platforms), stage)
  {
    BuildPushes(watchify, Defaults(devMode), NormalInstrumentation(destName, platforms));
    PushedToConcat(DefaultsPushes(devMode), NormalPushes(destName, platforms), stage);
    PushedToConcat(NormalHeadPushes(destName), NormalDestPushes(platforms), stage);
  }

  lemma NormalDestOther(platforms: seq<string>, stage: Label)
    requires stage != DestStage
    ensures PushedTo(NormalDestPushes(platforms), stage) == []
  {
    NormalDestUnits(platforms);
  }

  /**
   * The lavamoat build keeps the bundle output out of every destination: its
   * pipeline holds only the production-mode minification and source-map writer.
   */
  lemma LavamoatBundleStages()
    ensures var st := StagesAfter(LavamoatListeners);
      && st[BundlerStage] == [] && st[VinylStage] == [] && st[SourcemapsInit] == []
      && st[Minify] == MinifyUnits
      && st[SourcemapsWrite] == [SmWriteExternal(SourcemapsDir)]
      && st[DestStage] == []
  {
    LavamoatStage(BundlerStage);
    LavamoatStage(VinylStage);
    LavamoatStage(SourcemapsInit);
    LavamoatStage(Minify);
    LavamoatStage(SourcemapsWrite);
    LavamoatStage(DestStage);
  }

  lemma {:induction false} LavamoatStage(stage: Label)
        ensures StagesAfter(LavamoatListeners)[stage] ==
      if stage == Minify then MinifyUnits
      else if stage == SourcemapsWrite then [SmWriteExternal(SourcemapsDir)]
      else []
  {
    AllPushesSingle(Defaults(false));
    StageAfter(LavamoatListeners, stage);
    DefaultsUnits(false, stage);
  }

  /**
   * The whole processing order of a normal production bundle: source,
   * buffering and source-map init, minification, the external source-map
   * writer, then the destinations.
   */
  lemma NormalProductionOrder(destName: string, platforms: seq<string>)
    ensures var st := StagesAfter(NormalListeners(destName, false, false, platforms));
      Flatten(StageLabels, st)
        == [Source(destName), Buffer, SmInit, Buffer, Terser, SmWriteExternal(SourcemapsDir)] + st[DestStage]
  {
    var st := StagesAfter(NormalListeners(destName, false, false, platforms));
    NormalBundleStages(destName, false, false, platforms);
    FlattenSix(st);
  }

  /** Every pipeline the build creates has its six declared stages, each starting empty. */
  lemma FreshPipelineEmpty()
    ensures StagesAfter([]) == EmptyStages()
    ensures Flatten(StageLabels, StagesAfter([])) == []
  {
    FlattenEmpty(StageLabels);
  }

  /** Firing more listeners only appends: every stage keeps what it had, in order. */
  lemma {:induction false} ListenersOnlyAppend(ls: seq<Listener>, more: seq<Listener>)
    ensures Extends(StagesAfter(ls), StagesAfter(ls + more))
  {
    FlatMapConcat(ls, more, ListenerPushes);
    var e := EmptyStages();
    var a, b := AllPushes(ls), AllPushes(more);
    PushAllThen(e, a, b);
    PushAllExtends(PushAll(e, a), b);
  }
}
