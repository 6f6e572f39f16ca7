/** The offset callback returned by `clipperOffset(clipper)`: a pure
    statement of what it computes (`OffsetPaths`), the facts about it, and the
    callback itself (`ClipperOffset`), which builds its result paths object by
    object and is proved to compute exactly `OffsetPaths`. */
module Offset {
  import opened Wrappers
  import opened JsNumbers
  import opened Paper
  import opened Clipper
  import opened Styles
  import opened Scaling
  import opened Options

  /** The flatness the path copy is flattened to, in plane units. */
  const Flatness: real := 0.01

  /** One hundredth of a plane unit, in engine units: the distance under
      which the cleaning passes merge vertices, and the arc tolerance. */
  const CleanDistance: real := 0.01 * Scale as real
  const ArcTolerance: real := 0.01 * Scale as real

  /** The polygon handed to the engine: the copy's segments flattened to a
      hundredth of a plane unit, scaled, then cleaned once at ten engine
      units. */
  function EngineInput(engine: Engine, lib: Library, path: PathState): Polygon {
    engine.cleanPolygon(ScaleAll(lib.flatten(path, Flatness)), CleanDistance)
  }

  /** The single offset request. Read back in plane units it gives the
      offset, the path's miter limit and the path's join; its end type is a
      closed polygon exactly for a closed path and otherwise gives the cap. */
  function Request(offset: Number, path: PathState, data: Polygon): (req: OffsetParams)
    ensures |req.offsetInputs| == 1 && req.offsetInputs[0].data == data
    ensures Over(req.delta, Scale as real) == offset
    ensures req.miterLimit / Scale as real == path.miterLimit
    ensures req.arcTolerance == 10.0
    ensures StrokeJoinOf(req.offsetInputs[0].joinType) == path.strokeJoin
    ensures req.offsetInputs[0].endType == ClosedPolygon <==> path.closed
    ensures !path.closed ==> CapOf(req.offsetInputs[0].endType) == Some(path.strokeCap)
  {
    OffsetParams(
      Times(offset, Scale as real),
      path.miterLimit * Scale as real,
      ArcTolerance,
      [OffsetInput(JoinTypeOf(path.strokeJoin), EndTypeOf(path.closed, path.strokeCap), data)])
  }

  /** The path built from one engine ring: closed, with round cap and join,
      one handle-free segment per ring point, in ring order; scaling its
      segments again gives back exactly the ring. */
  function Rebuild(ring: Polygon): (p: PathState)
    ensures p.closed && p.strokeCap == RoundCap && p.strokeJoin == RoundJoin
    ensures p.miterLimit == DefaultMiterLimit
    ensures p.segments == UnscaleAll(ring)
    ensures |p.segments| == |ring| && ScaleAll(p.segments) == ring
  {
    NewPathState.(segments := UnscaleAll(ring), closed := true, strokeCap := RoundCap, strokeJoin := RoundJoin)
  }

  /** `.map(rebuild).map(simplifyFn)`: one candidate per ring, and the
      candidate at each position is the rebuilt, simplified ring at that
      position. */
  function Candidates(rings: seq<Polygon>, s: Simplifier, fitter: Fitter): (cs: seq<PathState>)
    ensures |cs| == |rings|
    ensures forall k :: 0 <= k < |rings| ==> cs[k] == Apply(s, fitter, Rebuild(rings[k]))
  {
    if rings == [] then []
    else [Apply(s, fitter, Rebuild(rings[0]))] + Candidates(rings[1..], s, fitter)
  }

  /** The final filter's test on a path's `length`: truthy and above 3. */
  predicate Long(l: Number) {
    Truthy(l) && Exceeds(l, 3.0)
  }

  /** `a` is `b` with some elements left out, the rest in their order. */
  ghost predicate Subsequence(a: seq<PathState>, b: seq<PathState>)
    decreases |b|
  {
    a == [] || (b != [] && ((a[0] == b[0] && Subsequence(a[1..], b[1..])) || Subsequence(a, b[1..])))
  }

  /** The final filter: the paths whose length passes, in their order; it
      never lengthens its input. */
  function Keep(length: PathState -> Number, ps: seq<PathState>): (r: seq<PathState>)
    ensures |r| <= |ps|
  {
    if ps == [] then []
    else if Long(length(ps[0])) then [ps[0]] + Keep(length, ps[1..])
    else Keep(length, ps[1..])
  }

  /** The filter keeps exactly the paths whose length passes. */
  lemma {:induction false} KeepMembers(length: PathState -> Number, ps: seq<PathState>)
    ensures forall p :: p in Keep(length, ps) <==> p in ps && Long(length(p))
  {
    if ps != [] {
      assert ps == [ps[0]] + ps[1..];
      KeepMembers(length, ps[1..]);
    }
  }

  /** The filter keeps the survivors in their original order. */
  lemma {:induction false} KeepIsSubsequence(length: PathState -> Number, ps: seq<PathState>)
    ensures Subsequence(Keep(length, ps), ps)
  {
    if ps != [] {
      var rest := Keep(length, ps[1..]);
      KeepIsSubsequence(length, ps[1..]);
      if Long(length(ps[0])) {
        assert ([ps[0]] + rest)[1..] == rest;
      }
    }
  }

  /** Filtering one more path at the end adds it at the end, if it passes. */
  lemma {:induction false} KeepAppend(length: PathState -> Number, ps: seq<PathState>, p: PathState)
    ensures Keep(length, ps + [p]) == Keep(length, ps) + (if Long(length(p)) then [p] else [])
  {
    if ps == [] {
      assert [p][1..] == [];
      assert Keep(length, [p][1..]) == [];
    } else {
      assert (ps + [p])[0] == ps[0];
      assert (ps + [p])[1..] == ps[1..] + [p];
      KeepAppend(length, ps[1..], p);
    }
  }

  /** The filter over one more element of a sequence. */
  lemma KeepStep(length: PathState -> Number, ps: seq<PathState>, i: nat)
    requires i < |ps|
    ensures Keep(length, ps[..i + 1]) == Keep(length, ps[..i]) + (if Long(length(ps[i])) then [ps[i]] else [])
  {
    assert ps[..i + 1] == ps[..i] + [ps[i]];
    KeepAppend(length, ps[..i], ps[i]);
  }

  /** What the callback resolves to, or the error it rejects with. */
  function OffsetPaths(
    engine: Engine, lib: Library, fitter: Fitter,
    path: PathState, argument: Argument, tolerance: Option<Number>): (r: Result<seq<PathState>, Error>)
    ensures r.Failure? <==> Normalise(argument).Failure?
    ensures r.Failure? ==> r.error == ArgumentError(UsageMessage)
    ensures r.Success? ==> forall p :: p in r.value ==> Long(lib.length(p))
  {
    match Normalise(argument)
    case Failure(e) => Failure(e)
    case Success(options) =>
      match engine.offsetToPaths(Request(options.offset, path, EngineInput(engine, lib, path)))
      case None => Success([])
      case Some(rings) =>
        var simplifier := Resolve(options.simplify, EffectiveTolerance(fitter, tolerance));
        var candidates := Candidates(engine.cleanPolygons(rings, CleanDistance), simplifier, fitter);
        KeepMembers(lib.length, candidates);
        Success(Keep(lib.length, candidates))
  }

  /** A refused argument is refused whatever the path, the tolerance and the
      collaborators: nothing is flattened, scaled or offset first. */
  lemma RejectionPrecedesAllWork(
    argument: Argument,
    engine1: Engine, lib1: Library, fitter1: Fitter, path1: PathState, tolerance1: Option<Number>,
    engine2: Engine, lib2: Library, fitter2: Fitter, path2: PathState, tolerance2: Option<Number>)
    requires !(Offered(argument).Some? && !IsNaN(Offered(argument).value))
    ensures OffsetPaths(engine1, lib1, fitter1, path1, argument, tolerance1)
         == OffsetPaths(engine2, lib2, fitter2, path2, argument, tolerance2)
         == Failure(ArgumentError(UsageMessage))
  {
  }

  /** A bare number and an options object carrying only that offset give
      the same result, whatever the object's `tolerance` field holds (for
      NaN, the same rejection). */
  lemma BareNumberIsOffsetOption(
    engine: Engine, lib: Library, fitter: Fitter, path: PathState,
    n: Number, field: Option<Number>, tolerance: Option<Number>)
    ensures OffsetPaths(engine, lib, fitter, path, Bare(n), tolerance)
         == OffsetPaths(engine, lib, fitter, path, Object(Some(n), field, Undefined), tolerance)
  {
  }

  /** The options object's `tolerance` field is never read: only the
      positional argument reaches the simplifier. */
  lemma ToleranceFieldIsIgnored(
    engine: Engine, lib: Library, fitter: Fitter, path: PathState,
    offset: Option<Number>, field1: Option<Number>, field2: Option<Number>,
    simplify: SimplifyOption, tolerance: Option<Number>)
    ensures OffsetPaths(engine, lib, fitter, path, Object(offset, field1, simplify), tolerance)
         == OffsetPaths(engine, lib, fitter, path, Object(offset, field2, simplify), tolerance)
  {
  }

  /** Leaving out the positional tolerance is the same as passing the
      simplifier's default. */
  lemma OmittedToleranceIsDefault(
    engine: Engine, lib: Library, fitter: Fitter, path: PathState, argument: Argument)
    ensures OffsetPaths(engine, lib, fitter, path, argument, None)
         == OffsetPaths(engine, lib, fitter, path, argument, Some(fitter.defaultTolerance))
  {
  }

  /** When the engine gives no result, the callback resolves to no paths. */
  lemma NoResultIsEmpty(
    engine: Engine, lib: Library, fitter: Fitter, path: PathState,
    argument: Argument, tolerance: Option<Number>)
    requires Normalise(argument).Success?
    requires engine.offsetToPaths(
      Request(Normalise(argument).value.offset, path, EngineInput(engine, lib, path))).None?
    ensures OffsetPaths(engine, lib, fitter, path, argument, tolerance) == Success([])
  {
  }

  /** The outputs are exactly the candidates whose length passes, each as
      often as it passes, in ring order: so each output is the rebuilt,
      simplified path of one cleaned engine ring, and every passing one
      appears. */
  lemma OutputsFollowRings(
    engine: Engine, lib: Library, fitter: Fitter, path: PathState,
    argument: Argument, tolerance: Option<Number>, rings: seq<Polygon>)
    requires Normalise(argument).Success?
    requires engine.offsetToPaths(
      Request(Normalise(argument).value.offset, path, EngineInput(engine, lib, path))) == Some(rings)
    ensures var cleaned := engine.cleanPolygons(rings, CleanDistance);
            var s := Resolve(Normalise(argument).value.simplify, EffectiveTolerance(fitter, tolerance));
            var r := OffsetPaths(engine, lib, fitter, path, argument, tolerance);
            && r.Success?
            && r.value == Keep(lib.length, Candidates(cleaned, s, fitter))
            && Subsequence(r.value, Candidates(cleaned, s, fitter))
            && (forall o :: o in r.value ==>
                  exists k :: 0 <= k < |cleaned| && o == Apply(s, fitter, Rebuild(cleaned[k])))
            && (forall k :: 0 <= k < |cleaned| && Long(lib.length(Apply(s, fitter, Rebuild(cleaned[k])))) ==>
                  Apply(s, fitter, Rebuild(cleaned[k])) in r.value)
  {
    var cleaned := engine.cleanPolygons(rings, CleanDistance);
    var s := Resolve(Normalise(argument).value.simplify, EffectiveTolerance(fitter, tolerance));
    var cs := Candidates(cleaned, s, fitter);
    KeepMembers(lib.length, cs);
    KeepIsSubsequence(lib.length, cs);
    forall k | 0 <= k < |cleaned| && Long(lib.length(Apply(s, fitter, Rebuild(cleaned[k]))))
      ensures Apply(s, fitter, Rebuild(cleaned[k])) in Keep(lib.length, cs)
    {
      assert cs[k] in cs;
    }
  }

  /** With `simplify` neither a function, `undefined` nor `true`, every
      output is a closed, round-styled path whose segments scale back to one
      cleaned engine ring, vertex for vertex. */
  lemma UnsimplifiedOutputsAreEngineRings(
    engine: Engine, lib: Library, fitter: Fitter, path: PathState,
    offset: Number, field: Option<Number>, tolerance: Option<Number>, rings: seq<Polygon>)
    requires !IsNaN(offset)
    requires engine.offsetToPaths(Request(offset, path, EngineInput(engine, lib, path))) == Some(rings)
    ensures var cleaned := engine.cleanPolygons(rings, CleanDistance);
            var r := OffsetPaths(engine, lib, fitter, path, Object(Some(offset), field, OtherValue), tolerance);
            && r.Success?
            && forall o :: o in r.value ==>
                 && o.closed && o.strokeCap == RoundCap && o.strokeJoin == RoundJoin
                 && exists k :: 0 <= k < |cleaned| && ScaleAll(o.segments) == cleaned[k]
  {
    var argument := Object(Some(offset), field, OtherValue);
    var cleaned := engine.cleanPolygons(rings, CleanDistance);
    OutputsFollowRings(engine, lib, fitter, path, argument, tolerance, rings);
  }

  /** The callback's outcome: rejected with an error, or resolved to paths. */
  datatype Outcome = Rejected(error: Error) | Resolved(paths: seq<Path>)

  /** The callback: checks and normalises its argument, flattens a copy of
      the path, scales and cleans its points, makes one engine request,
      cleans the rings, and builds one new path per ring, simplified and
      filtered. The caller's path is left as it was, every resolved path is
      new, and their states are exactly `OffsetPaths`. */
  method ClipperOffset(
    engine: Engine, lib: Library, fitter: Fitter,
    path: Path, argument: Argument, tolerance: Option<Number>) returns (outcome: Outcome)
    ensures unchanged(path)
    ensures var spec := OffsetPaths(engine, lib, fitter, path.State(), argument, tolerance);
            && (outcome.Rejected? <==> spec.Failure?)
            && (outcome.Rejected? ==> outcome.error == spec.error)
            && (outcome.Resolved? ==> States(outcome.paths) == spec.value)
    ensures outcome.Resolved? ==> forall p :: p in outcome.paths ==> fresh(p)
  {
    var normalised := Normalise(argument);
    if normalised.Failure? {
      return Rejected(normalised.error);
    }
    var offsetOptions := normalised.value;
    var style := path.State();
    var pathCopy := path.Clone();
    pathCopy.Flatten(lib, Flatness);

    var data := ScaleAll(pathCopy.segments);
    data := engine.cleanPolygon(data, CleanDistance);

    var offsetPaths := engine.offsetToPaths(Request(offsetOptions.offset, style, data));
    if offsetPaths.Some? {
      offsetPaths := Some(engine.cleanPolygons(offsetPaths.value, CleanDistance));
    }
    if offsetPaths.None? {
      return Resolved([]);
    }

    var simplifier := Resolve(offsetOptions.simplify, EffectiveTolerance(fitter, tolerance));
    assert data == EngineInput(engine, lib, style);
    var kept := BuildPaths(offsetPaths.value, simplifier, fitter, lib.length);
    return Resolved(kept);
  }

  /** One ring's output: a new path is given round cap and join, closed and
      assigned the unscaled ring as segments; the simplifier's result is then
      written back into it. */
  method NewRingPath(ring: Polygon, simplifier: Simplifier, fitter: Fitter) returns (p: Path)
    ensures fresh(p)
    ensures p.State() == Apply(simplifier, fitter, Rebuild(ring))
  {
    p := new Path();
    p.strokeCap := RoundCap;
    p.strokeJoin := RoundJoin;
    p.closed := true;
    p.segments := UnscaleAll(ring);
    assert p.State() == Rebuild(ring);
    p.Assign(Apply(simplifier, fitter, p.State()));
  }

  /** `.map(rebuild).map(simplifyFn).filter(...)`: for each ring, in order,
      a new simplified path is made, and kept when its length passes. */
  method BuildPaths(rings: seq<Polygon>, simplifier: Simplifier, fitter: Fitter, length: PathState -> Number)
    returns (kept: seq<Path>)
    ensures States(kept) == Keep(length, Candidates(rings, simplifier, fitter))
    ensures forall p :: p in kept ==> fresh(p)
  {
    ghost var candidates := Candidates(rings, simplifier, fitter);
    kept := [];
    var i := 0;
    while i < |rings|
      invariant 0 <= i <= |rings|
      invariant forall p :: p in kept ==> fresh(p)
      invariant States(kept) == Keep(length, candidates[..i])
    {
      var p := NewRingPath(rings[i], simplifier, fitter);
      KeepStep(length, candidates, i);
      if Long(length(p.State())) {
        StatesAppend(kept, p);
        kept := kept + [p];
      }
      i := i + 1;
    }
    assert candidates[..i] == candidates;
  }
}