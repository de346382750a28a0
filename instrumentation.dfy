/**
 * The listeners the build registers for the bundler's 'pipeline' event and
 * the units each pushes (development/build/scripts.js:106-116, 133-148,
 * 255-276, 319-325). Emitting the event calls the listeners in registration
 * order with the fresh pipeline.
 */
module Instrumentation {
  import opened Pipeline

  datatype Listener =
    /** `setupBundlerDefaults`: minification and the source-map writer. */
    | Defaults(devMode: bool)
    /** `setupWatchify`: an error handler on the bundle stream; it pushes nothing. */
    | WatchifyErrorHook
    /** `createFactorBundles`: a rename and a destination per platform. */
    | FactorDestinations(platforms: seq<string>)
    /** `createNormalBundle`: the vinyl conversion, source-map init and a destination per platform. */
    | NormalInstrumentation(destName: string, platforms: seq<string>)

  const SourcemapsDir: string := "../sourcemaps"

  /** The output directory of the factor bundles for a platform. */
  function FactorDestPath(platform: string): (path: string) {
    "./dist/" + platform
  }

  /** The output directory of a normal bundle for a platform (with a trailing slash). */
  function NormalDestPath(platform: string): (path: string) {
    "./dist/" + platform + "/"
  }

  function DefaultsPushes(devMode: bool): (ps: seq<PushOp>) {
    (if devMode then [] else [PushOp(Minify, Buffer), PushOp(Minify, Terser)])
    + [PushOp(SourcemapsWrite, if devMode then SmWriteInline else SmWriteExternal(SourcemapsDir))]
  }

  /** The pushes of the first `|platforms|` rounds of the factor bundle's platform loop. */
  function FactorDestPushes(platforms: seq<string>): (ps: seq<PushOp>)
    decreases |platforms|
  {
    if platforms == [] then []
    else
      var last := platforms[|platforms| - 1];
      FactorDestPushes(platforms[..|platforms| - 1])
      + [PushOp(DestStage, Rename), PushOp(DestStage, Dest(FactorDestPath(last)))]
  }

  function NormalDestPushes(platforms: seq<string>): (ps: seq<PushOp>)
    decreases |platforms|
  {
    if platforms == [] then []
    else
      var last := platforms[|platforms| - 1];
      NormalDestPushes(platforms[..|platforms| - 1]) + [PushOp(DestStage, Dest(NormalDestPath(last)))]
  }

  function NormalHeadPushes(destName: string): (ps: seq<PushOp>) {
    [PushOp(VinylStage, Source(destName)), PushOp(SourcemapsInit, Buffer), PushOp(SourcemapsInit, SmInit)]
  }

  function NormalPushes(destName: string, platforms: seq<string>): (ps: seq<PushOp>) {
    NormalHeadPushes(destName) + NormalDestPushes(platforms)
  }

  /** The pushes one listener performs when the pipeline event fires. */
  function ListenerPushes(l: Listener): (ps: seq<PushOp>) {
    match l
    case Defaults(devMode) => DefaultsPushes(devMode)
    case WatchifyErrorHook => []
    case FactorDestinations(platforms) => FactorDestPushes(platforms)
    case NormalInstrumentation(destName, platforms) => NormalPushes(destName, platforms)
  }

  /** `f` applied to each element of `xs`, the results concatenated in order. */
  function FlatMap<A, B>(xs: seq<A>, f: A -> seq<B>): (ys: seq<B>)
    decreases |xs|
  {
    if xs == [] then [] else FlatMap(xs[..|xs| - 1], f) + f(xs[|xs| - 1])
  }

  lemma {:induction false} FlatMapConcat<A, B>(a: seq<A>, b: seq<A>, f: A -> seq<B>)
    ensures FlatMap(a + b, f) == FlatMap(a, f) + FlatMap(b, f)
    decreases |b|
  {
    if b == [] {
      assert a + b == a;
    } else {
      assert (a + b)[..|a + b| - 1] == a + b[..|b| - 1];
      FlatMapConcat(a, b[..|b| - 1], f);
    }
  }

  /** The pushes of the listeners `ls`, fired in order. */
  function AllPushes(ls: seq<Listener>): (ps: seq<PushOp>) {
    FlatMap(ls, ListenerPushes)
  }

  /**
   * The factor bundle's destination units: for each platform in order, a
   * rename and then the platform's output directory.
   */
  lemma {:induction false} FactorDestUnits(platforms: seq<string>)
    ensures var us := PushedTo(FactorDestPushes(platforms), DestStage);
      && |us| == 2 * |platforms|
      && forall i :: 0 <= i < |platforms| ==> us[2 * i] == Rename && us[2 * i + 1] == Dest(FactorDestPath(platforms[i]))
    ensures forall s :: s != DestStage ==> PushedTo(FactorDestPushes(platforms), s) == []
    decreases |platforms|
  {
    if platforms != [] {
      var init := platforms[..|platforms| - 1];
      var last := platforms[|platforms| - 1];
      var tail := [PushOp(DestStage, Rename), PushOp(DestStage, Dest(FactorDestPath(last)))];
      FactorDestUnits(init);
      PushedToConcat(FactorDestPushes(init), tail, DestStage);
      var first := tail[..1];
      assert first == [PushOp(DestStage, Rename)] && first[..0] == [];
      assert PushedTo(first, DestStage) == PushedTo(first[..0], DestStage) + [Rename];
      assert PushedTo(tail, DestStage) == PushedTo(first, DestStage) + [Dest(FactorDestPath(last))];
      forall s | s != DestStage
        ensures PushedTo(FactorDestPushes(platforms), s) == []
      {
        PushedToConcat(FactorDestPushes(init), tail, s);
        assert PushedTo(first, s) == PushedTo(first[..0], s);
        assert PushedTo(tail, s) == PushedTo(first, s);
      }
    }
  }

  /** The normal bundle's destination units: one output directory per platform, in order. */
  lemma {:induction false} NormalDestUnits(platforms: seq<string>)
    ensures var us := PushedTo(NormalDestPushes(platforms), DestStage);
      && |us| == |platforms|
      && forall i :: 0 <= i < |platforms| ==> us[i] == Dest(NormalDestPath(platforms[i]))
    ensures forall s :: s != DestStage ==> PushedTo(NormalDestPushes(platforms), s) == []
    decreases |platforms|
  {
    if platforms != [] {
      var init := platforms[..|platforms| - 1];
      var last := platforms[|platforms| - 1];
      var tail := [PushOp(DestStage, Dest(NormalDestPath(last)))];
      NormalDestUnits(init);
      PushedToConcat(NormalDestPushes(init), tail, DestStage);
      forall s | s != DestStage
        ensures PushedTo(NormalDestPushes(platforms), s) == []
      {
        PushedToConcat(NormalDestPushes(init), tail, s);
      }
    }
  }

  /** The defaults listener: minification outside development mode, then the source-map writer. */
  method FireDefaults(devMode: bool, p: StagedPipeline)
    requires p.Valid()
    modifies p
    ensures p.Valid()
    ensures p.stages == PushAll(old(p.stages), DefaultsPushes(devMode))
  {
    ghost var st0 := p.stages;
    LabelOfName(Minify);
    LabelOfName(SourcemapsWrite);
    var found: bool;
    if !devMode {
      found := p.Push(LabelName(Minify), Buffer);
      PushAllSnoc(st0, [], PushOp(Minify, Buffer));
      found := p.Push(LabelName(Minify), Terser);
      PushAllSnoc(st0, [PushOp(Minify, Buffer)], PushOp(Minify, Terser));
    }
    ghost var minified: seq<PushOp> := if devMode then [] else [PushOp(Minify, Buffer), PushOp(Minify, Terser)];
    assert p.stages == PushAll(st0, minified);
    var writer := if devMode then SmWriteInline else SmWriteExternal(SourcemapsDir);
    found := p.Push(LabelName(SourcemapsWrite), writer);
    PushAllSnoc(st0, minified, PushOp(SourcemapsWrite, writer));
  }

  /** The factor bundle's listener: for each platform, a rename and the platform's output directory. */
  method FireFactorDestinations(platforms: seq<string>, p: StagedPipeline)
    requires p.Valid()
    modifies p
    ensures p.Valid()
    ensures p.stages == PushAll(old(p.stages), FactorDestPushes(platforms))
  {
    ghost var st0 := p.stages;
    LabelOfName(DestStage);
    var found: bool;
    var i := 0;
    while i < |platforms|
      invariant 0 <= i <= |platforms|
      invariant p.Valid()
      invariant p.stages == PushAll(st0, FactorDestPushes(platforms[..i]))
    {
      ghost var done := FactorDestPushes(platforms[..i]);
      var dest := FactorDestPath(platforms[i]);
      found := p.Push(LabelName(DestStage), Rename);
      PushAllSnoc(st0, done, PushOp(DestStage, Rename));
      found := p.Push(LabelName(DestStage), Dest(dest));
      PushAllSnoc(st0, done + [PushOp(DestStage, Rename)], PushOp(DestStage, Dest(dest)));
      assert platforms[..i + 1][..i] == platforms[..i];
      assert done + [PushOp(DestStage, Rename)] + [PushOp(DestStage, Dest(dest))] == FactorDestPushes(platforms[..i + 1]);
      i := i + 1;
    }
    assert platforms[..i] == platforms;
  }

  /** The first part of the normal bundle's listener: vinyl conversion, buffering, source-map init. */
  method FireNormalHead(destName: string, p: StagedPipeline)
    requires p.Valid()
    modifies p
    ensures p.Valid()
    ensures p.stages == PushAll(old(p.stages), NormalHeadPushes(destName))
  {
    ghost var st0 := p.stages;
    LabelOfName(VinylStage);
    LabelOfName(SourcemapsInit);
    ghost var vinyl, buffer, init := PushOp(VinylStage, Source(destName)), PushOp(SourcemapsInit, Buffer), PushOp(SourcemapsInit, SmInit);
    var found: bool;
    found := p.Push(LabelName(VinylStage), Source(destName));
    PushAllSnoc(st0, [], vinyl);
    assert [] + [vinyl] == [vinyl];
    found := p.Push(LabelName(SourcemapsInit), Buffer);
    PushAllSnoc(st0, [vinyl], buffer);
    found := p.Push(LabelName(SourcemapsInit), SmInit);
    PushAllSnoc(st0, [vinyl] + [buffer], init);
    assert [vinyl] + [buffer] + [init] == NormalHeadPushes(destName);
  }

  /** The normal bundle's destination loop: an output directory per platform. */
  method FireNormalDestinations(platforms: seq<string>, p: StagedPipeline)
    requires p.Valid()
    modifies p
    ensures p.Valid()
    ensures p.stages == PushAll(old(p.stages), NormalDestPushes(platforms))
  {
    ghost var st0 := p.stages;
    LabelOfName(DestStage);
    var found: bool;
    var i := 0;
    while i < |platforms|
      invariant 0 <= i <= |platforms|
      invariant p.Valid()
      invariant p.stages == PushAll(st0, NormalDestPushes(platforms[..i]))
    {
      ghost var done := NormalDestPushes(platforms[..i]);
      var dest := NormalDestPath(platforms[i]);
      found := p.Push(LabelName(DestStage), Dest(dest));
      PushAllSnoc(st0, done, PushOp(DestStage, Dest(dest)));
      assert platforms[..i + 1][..i] == platforms[..i];
      assert done + [PushOp(DestStage, Dest(dest))] == NormalDestPushes(platforms[..i + 1]);
      i := i + 1;
    }
    assert platforms[..i] == platforms;
  }

  /**
   * The normal bundle's listener: the vinyl conversion, buffering and
   * source-map init, then an output directory per platform.
   */
  method FireNormalInstrumentation(destName: string, platforms: seq<string>, p: StagedPipeline)
    requires p.Valid()
    modifies p
    ensures p.Valid()
    ensures p.stages == PushAll(old(p.stages), NormalPushes(destName, platforms))
  {
    ghost var st0 := p.stages;
    FireNormalHead(destName, p);
    FireNormalDestinations(platforms, p);
    PushAllThen(st0, NormalHeadPushes(destName), NormalDestPushes(platforms));
  }

  /** Runs one listener against the pipeline. */
  method Fire(l: Listener, p: StagedPipeline)
    requires p.Valid()
    modifies p
    ensures p.Valid()
    ensures p.stages == PushAll(old(p.stages), ListenerPushes(l))
  {
    match l
    case Defaults(devMode) => FireDefaults(devMode, p);
    case WatchifyErrorHook =>
    case FactorDestinations(platforms) => FireFactorDestinations(platforms, p);
    case NormalInstrumentation(destName, platforms) => FireNormalInstrumentation(destName, platforms, p);
  }

  /** `events.emit('pipeline', pipeline, bundleStream)`: every listener, in registration order. */
  method Emit(ls: seq<Listener>, p: StagedPipeline)
    requires p.Valid()
    modifies p
    ensures p.Valid()
    ensures p.stages == PushAll(old(p.stages), AllPushes(ls))
  {
    ghost var st0 := p.stages;
    var i := 0;
    while i < |ls|
      invariant 0 <= i <= |ls|
      invariant p.Valid()
      invariant p.stages == PushAll(st0, AllPushes(ls[..i]))
    {
      ghost var done := AllPushes(ls[..i]);
      ghost var mid := p.stages;
      Fire(ls[i], p);
      assert ls[..i + 1][..i] == ls[..i];
      assert AllPushes(ls[..i + 1]) == done + ListenerPushes(ls[i]);
      PushAllThen(st0, done, ListenerPushes(ls[i]));
      i := i + 1;
    }
    assert ls[..i] == ls;
  }
}
