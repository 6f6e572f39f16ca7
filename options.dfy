/** The callback's second argument: which shapes are accepted, how a bare
    number is normalised into options, and how the `simplify` option picks the
    per-path post-processing. */
module Options {
  import opened Wrappers
  import opened JsNumbers
  import opened Paper

  /** The `simplify` option: a function, `undefined`, `true`, or any other
      value (`false` among them). */
  datatype SimplifyOption =
    | Callback(f: PathState -> PathState)
    | Undefined
    | True
    | OtherValue

  /** The second argument of the callback. `Bare` is a number; `Object` is an
      options object, whose `offset` may be missing; `NonNumeric` is any other
      value that `isNaN` reads as NaN (`undefined`, non-numeric text, ...). */
  datatype Argument =
    | Bare(n: Number)
    | Object(offset: Option<Number>, tolerance: Option<Number>, simplify: SimplifyOption)
    | NonNumeric

  /** The normalised options the rest of the callback works from. */
  datatype OffsetOptions = OffsetOptions(
    offset: Number,
    tolerance: Option<Number>,
    simplify: SimplifyOption)

  datatype Error = ArgumentError(message: string)

  const UsageMessage: string :=
    "clipperOffset callback expects an options object or offset number as second argument.\n"
    + "      ex: await clipperOffset(clipper)(path, 10)\n"
    + "      or  await clipperOffset(clipper)(path, { offset: 10, simplify: false })"

  /** The number an argument offers as its offset, if any: a bare number
      itself, or an object's `offset` field. */
  function Offered(a: Argument): (n: Option<Number>)
    ensures n.None? <==> a.NonNumeric? || (a.Object? && a.offset.None?)
    ensures a.Bare? ==> n == Some(a.n)
    ensures a.Object? ==> n == a.offset
  {
    match a
    case Bare(n) => Some(n)
    case Object(offset, _, _) => offset
    case NonNumeric => None
  }

  /** The check and the normalisation at the head of the callback. It throws
      exactly when the argument offers no number or offers NaN; infinities are
      not refused. An accepted object is used as it is; a bare number `n`
      becomes `{offset: n}`, with no tolerance and `simplify` undefined. */
  function Normalise(a: Argument): (r: Result<OffsetOptions, Error>)
    ensures r.Success? <==> Offered(a).Some? && !IsNaN(Offered(a).value)
    ensures r.Failure? ==> r.error == ArgumentError(UsageMessage)
    ensures r.Success? ==> r.value.offset == Offered(a).value
    ensures r.Success? && a.Bare? ==> r.value.tolerance.None? && r.value.simplify.Undefined?
    ensures r.Success? && a.Object? ==>
      r.value.tolerance == a.tolerance && r.value.simplify == a.simplify
  {
    var suppliedOffset := a.Bare? && !IsNaN(a.n);
    var suppliedOptions := a.Object? && a.offset.Some? && !IsNaN(a.offset.value);
    if !suppliedOffset && !suppliedOptions then
      Failure(ArgumentError(UsageMessage))
    else if suppliedOptions then
      Success(OffsetOptions(a.offset.value, a.tolerance, a.simplify))
    else
      Success(OffsetOptions(a.n, None, Undefined))
  }

  /** Positive and negative infinity pass the check, bare or in an object. */
  lemma InfinityIsAccepted(tolerance: Option<Number>, simplify: SimplifyOption)
    ensures Normalise(Bare(PosInf)).Success? && Normalise(Bare(NegInf)).Success?
    ensures Normalise(Object(Some(PosInf), tolerance, simplify)).Success?
    ensures Normalise(Object(Some(NegInf), tolerance, simplify)).Success?
  {
  }

  /** The built-in curve-fitting simplifier for a given tolerance, and the
      tolerance the positional argument defaults to; both are opaque. */
  datatype Fitter = Fitter(
    fit: Number -> (PathState -> PathState),
    defaultTolerance: Number)

  /** The per-path post-processing once the option is resolved. */
  datatype Simplifier = Identity | BuiltIn(tolerance: Number) | Custom(f: PathState -> PathState)

  /** The positional `tolerance` argument: the caller's value when given,
      the simplifier's default when left out. */
  function EffectiveTolerance(fitter: Fitter, tolerance: Option<Number>): Number {
    tolerance.GetOr(fitter.defaultTolerance)
  }

  /** A function is used as given; `undefined` or `true` selects the built-in
      simplifier at the given tolerance; every other value means no
      simplification. */
  function Resolve(option: SimplifyOption, tolerance: Number): (s: Simplifier)
    ensures s.Custom? <==> option.Callback?
    ensures s.Custom? ==> s.f == option.f
    ensures s.BuiltIn? <==> option.Undefined? || option.True?
    ensures s.BuiltIn? ==> s.tolerance == tolerance
    ensures s.Identity? <==> option.OtherValue?
  {
    if option.Callback? then Custom(option.f)
    else if option.Undefined? || option.True? then BuiltIn(tolerance)
    else Identity
  }

  /** One path through the resolved simplifier: unchanged for no
      simplification, else the chosen function's result on it. */
  function Apply(s: Simplifier, fitter: Fitter, p: PathState): PathState {
    match s
    case Identity => p
    case BuiltIn(t) => fitter.fit(t)(p)
    case Custom(f) => f(p)
  }

  /** What each option does to a reconstructed path. */
  lemma ResolvedSimplifierEffect(option: SimplifyOption, fitter: Fitter, tolerance: Number, p: PathState)
    ensures option.Callback? ==> Apply(Resolve(option, tolerance), fitter, p) == option.f(p)
    ensures option.Undefined? || option.True? ==>
      Apply(Resolve(option, tolerance), fitter, p) == fitter.fit(tolerance)(p)
    ensures option.OtherValue? ==> Apply(Resolve(option, tolerance), fitter, p) == p
  {
  }
}
