/**
 * The labelled-stage pipeline a bundle stream is pushed through
 * (`performBundle`, development/build/scripts.js:287-304): a fixed sequence of
 * named stages, each an ordered list of processing units that
 * instrumentation code extends with `pipeline.get(name).push(unit)`.
 */
module Pipeline {
  import opened Wrappers

  /** The processing units the build pushes, reduced to tokens. */
  datatype Unit =
    | Buffer                       // vinyl-buffer
    | Terser                       // gulp-terser-js with the reserved inpage provider name
    | SmInit                       // sourcemaps.init({ loadMaps: true })
    | SmWriteInline                // sourcemaps.write()
    | SmWriteExternal(dir: string) // sourcemaps.write(dir)
    | Source(name: string)         // vinyl-source-stream(name)
    | Rename                       // gulp-rename that flattens the source directory
    | Dest(path: string)           // gulp.dest(path)

  /** The six stages the build declares. */
  datatype Label = BundlerStage | VinylStage | SourcemapsInit | Minify | SourcemapsWrite | DestStage

  /** The name a stage is declared and looked up under. */
  function LabelName(l: Label): (name: string) {
    match l
    case BundlerStage => "bundler"
    case VinylStage => "vinyl"
    case SourcemapsInit => "sourcemaps:init"
    case Minify => "minify"
    case SourcemapsWrite => "sourcemaps:write"
    case DestStage => "dest"
  }

  /** The stages of every build pipeline, in stream order. */
  const StageLabels: seq<Label> := [BundlerStage, VinylStage, SourcemapsInit, Minify, SourcemapsWrite, DestStage]

  /** `pipeline.get(name)`: the stage declared under `name`, if any. */
  function LabelOf(name: string): (r: Option<Label>)
    ensures r.Some? ==> LabelName(r.value) == name
    ensures r.None? ==> forall l :: LabelName(l) != name
  {
    if name == "bundler" then Some(BundlerStage)
    else if name == "vinyl" then Some(VinylStage)
    else if name == "sourcemaps:init" then Some(SourcemapsInit)
    else if name == "minify" then Some(Minify)
    else if name == "sourcemaps:write" then Some(SourcemapsWrite)
    else if name == "dest" then Some(DestStage)
    else None
  }

  /** Looking a stage up by its own name finds that stage, so no two stages share a name. */
  lemma LabelOfName(l: Label)
    ensures LabelOf(LabelName(l)) == Some(l)
  {
  }

  /** Every stage is declared. */
  lemma LabelDeclared(l: Label)
    ensures l in StageLabels
  {
    match l
    case BundlerStage => assert StageLabels[0] == l;
    case VinylStage => assert StageLabels[1] == l;
    case SourcemapsInit => assert StageLabels[2] == l;
    case Minify => assert StageLabels[3] == l;
    case SourcemapsWrite => assert StageLabels[4] == l;
    case DestStage => assert StageLabels[5] == l;
  }

  /** The declared names, in stream order. */
  lemma StageNames()
    ensures |StageLabels| == 6
    ensures [LabelName(StageLabels[0]), LabelName(StageLabels[1]), LabelName(StageLabels[2]),
             LabelName(StageLabels[3]), LabelName(StageLabels[4]), LabelName(StageLabels[5])]
         == ["bundler", "vinyl", "sourcemaps:init", "minify", "sourcemaps:write", "dest"]
  {
  }

  /** Stage to that stage's units, in push order. */
  type Stages = map<Label, seq<Unit>>

  /** One call `pipeline.get(LabelName(stage)).push(unit)`. */
  datatype PushOp = PushOp(stage: Label, unit: Unit)

  predicate Distinct(labels: seq<Label>) {
    forall i, j :: 0 <= i < j < |labels| ==> labels[i] != labels[j]
  }

  /** Every stage is present. */
  predicate Full(st: Stages) {
    forall l :: l in st
  }

  /** Every declared stage, each still empty. */
  function EmptyStages(): (st: Stages)
    ensures Full(st)
    ensures forall l :: st[l] == []
  {
    forall l: Label
      ensures l in StageLabels
    {
      LabelDeclared(l);
    }
    map l | l in StageLabels :: []
  }

  /** The stages after performing the pushes `ps` in order. */
  function PushAll(st: Stages, ps: seq<PushOp>): (r: Stages)
    requires Full(st)
    ensures Full(r)
    decreases |ps|
  {
    if ps == [] then st
    else
      var last := ps[|ps| - 1];
      var before := PushAll(st, ps[..|ps| - 1]);
      before[last.stage := before[last.stage] + [last.unit]]
  }

  /** The units that `ps` pushes onto stage `stage`, in order. */
  function PushedTo(ps: seq<PushOp>, stage: Label): (us: seq<Unit>)
    decreases |ps|
  {
    if ps == [] then []
    else
      var last := ps[|ps| - 1];
      PushedTo(ps[..|ps| - 1], stage) + (if last.stage == stage then [last.unit] else [])
  }

  lemma {:induction false} PushedToConcat(a: seq<PushOp>, b: seq<PushOp>, stage: Label)
    ensures PushedTo(a + b, stage) == PushedTo(a, stage) + PushedTo(b, stage)
    decreases |b|
  {
    if b == [] {
      assert a + b == a;
    } else {
      assert (a + b)[..|a + b| - 1] == a + b[..|b| - 1];
      PushedToConcat(a, b[..|b| - 1], stage);
    }
  }

  /** Pushes never reorder, replace or drop: each stage gains exactly its own pushes, at its end. */
  lemma {:induction false} PushAllAppends(st: Stages, ps: seq<PushOp>, stage: Label)
    requires Full(st)
    ensures PushAll(st, ps)[stage] == st[stage] + PushedTo(ps, stage)
    decreases |ps|
  {
    if ps != [] {
      PushAllAppends(st, ps[..|ps| - 1], stage);
    }
  }

  /** Performing `a` and then `b` is performing `a + b`. */
  lemma {:induction false} PushAllThen(st: Stages, a: seq<PushOp>, b: seq<PushOp>)
    requires Full(st)
    ensures PushAll(st, a + b) == PushAll(PushAll(st, a), b)
    decreases |b|
  {
    if b == [] {
      assert a + b == a;
    } else {
      assert (a + b)[..|a + b| - 1] == a + b[..|b| - 1];
      PushAllThen(st, a, b[..|b| - 1]);
    }
  }

  /** `b` extends `a`: the same stages, each holding the units it held and perhaps more after them. */
  predicate Extends(a: Stages, b: Stages) {
    a.Keys == b.Keys && forall l :: l in a ==> a[l] <= b[l]
  }

  lemma PushAllExtends(st: Stages, ps: seq<PushOp>)
    requires Full(st)
    ensures Extends(st, PushAll(st, ps))
  {
    forall l | l in st
      ensures st[l] <= PushAll(st, ps)[l]
    {
      PushAllAppends(st, ps, l);
    }
  }

  /** The single processing sequence the stream runs through: the stages' units in label order. */
  function Flatten(labels: seq<Label>, st: Stages): (us: seq<Unit>)
    requires Full(st)
  {
    if labels == [] then [] else st[labels[0]] + Flatten(labels[1..], st)
  }

  /**
   * The units of stage `labels[i]` appear in the processing sequence together,
   * in push order, after those of every earlier stage and before those of
   * every later one.
   */
  lemma {:induction false} FlattenAt(labels: seq<Label>, st: Stages, i: nat)
    requires Full(st)
    requires i < |labels|
    ensures Flatten(labels, st) == Flatten(labels[..i], st) + st[labels[i]] + Flatten(labels[i + 1..], st)
  {
    if i == 0 {
      assert labels[..0] == [];
    } else {
      FlattenAt(labels[1..], st, i - 1);
      assert labels[1..][..i - 1] == labels[1..i];
      assert labels[1..][i..] == labels[i + 1..];
      assert labels[..i][1..] == labels[1..i];
      assert labels[..i][0] == labels[0];
    }
  }

  /** A pipeline with no units passes its input through unchanged. */
  lemma {:induction false} FlattenEmpty(labels: seq<Label>)
    ensures Flatten(labels, EmptyStages()) == []
  {
    if labels != [] {
      FlattenEmpty(labels[1..]);
    }
  }

  lemma FlattenSix(st: Stages)
    requires Full(st)
    ensures Flatten(StageLabels, st) == st[BundlerStage] + st[VinylStage] + st[SourcemapsInit]
                                      + st[Minify] + st[SourcemapsWrite] + st[DestStage]
  {
    var l := StageLabels;
    assert l[5..] == [DestStage] && l[5..][1..] == [];
    assert Flatten(l[5..], st) == st[DestStage];
    assert l[4..][1..] == l[5..];
    assert l[3..][1..] == l[4..];
    assert l[2..][1..] == l[3..];
    assert l[1..][1..] == l[2..];
    assert Flatten(l[4..], st) == st[SourcemapsWrite] + st[DestStage];
    assert Flatten(l[3..], st) == st[Minify] + st[SourcemapsWrite] + st[DestStage];
    assert Flatten(l[2..], st) == st[SourcemapsInit] + (st[Minify] + st[SourcemapsWrite] + st[DestStage]);
    assert Flatten(l[1..], st) == st[VinylStage] + (st[SourcemapsInit] + st[Minify] + st[SourcemapsWrite] + st[DestStage]);
  }

  lemma PushAllSnoc(st: Stages, ps: seq<PushOp>, x: PushOp)
    requires Full(st)
    ensures PushAll(st, ps + [x]) == PushAll(st, ps)[x.stage := PushAll(st, ps)[x.stage] + [x.unit]]
  {
    assert (ps + [x])[..|ps|] == ps;
  }

  /**
   * A `labeled-stream-splicer` pipeline with the six stages; the source reaches
   * it only through `get(name).push(unit)`.
   */
  class StagedPipeline {
    const labels: seq<Label>
    var stages: Stages

    ghost predicate Valid()
      reads this
    {
      labels == StageLabels && Full(stages)
    }

    /** `labeledStreamSplicer(['bundler', [], 'vinyl', [], ...])` */
    constructor ()
      ensures Valid()
      ensures labels == StageLabels && Distinct(labels)
      ensures stages == EmptyStages()
    {
      labels := StageLabels;
      stages := EmptyStages();
    }

    /**
     * `get(name).push(unit)`. A name that was not declared has no stage; where
     * the source would throw on `.push` of that missing stage, the model
     * refuses the push, reports `found == false` and changes nothing.
     */
    method Push(name: string, unit: Unit) returns (found: bool)
      requires Valid()
      modifies this
      ensures Valid()
      ensures found <==> LabelOf(name).Some?
      ensures stages == if found then old(stages)[LabelOf(name).value := old(stages)[LabelOf(name).value] + [unit]]
                        else old(stages)
    {
      var stage := LabelOf(name);
      found := stage.Some?;
      if found {
        stages := stages[stage.value := stages[stage.value] + [unit]];
      }
    }

    /** The processing sequence the bundle stream will run through. */
    function Units(): (us: seq<Unit>)
      reads this
      requires Valid()
      ensures us == stages[BundlerStage] + stages[VinylStage] + stages[SourcemapsInit]
                  + stages[Minify] + stages[SourcemapsWrite] + stages[DestStage]
    {
      FlattenSix(stages);
      Flatten(labels, stages)
    }
  }
}
