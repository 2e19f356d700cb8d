/**
 * `resolve_svaluable`: a deferred value that is a constant, a producer taking
 * no argument, or a producer taking the owning stage.  Python decides between
 * the two producer forms by inspecting the callable's signature; the model
 * carries that arity as the variant tag instead.  A producer is arbitrary
 * code, so calling it either returns or raises.
 */
module Helpers {
  import opened Errors

  datatype SValuable<T, !S> =
    | Constant(value: T)
    | Nullary(produce: () -> Outcome<T>)
    | StageBound(apply: S -> Outcome<T>)

  const MissingStageMessage: string := "Cannot resolve SValuable because stage parameter is None."

  /** What using the value with a stage at hand gives: the constant, or the producer's own outcome. */
  function Call<T, S>(v: SValuable<T, S>, stage: S): Outcome<T> {
    match v
    case Constant(x) => Returned(x)
    case Nullary(f) => f()
    case StageBound(f) => f(stage)
  }

  /** A produced value, wrapped in `Some`; an exception passes through. */
  function Lift<T>(o: Outcome<T>): (r: Outcome<Option<T>>)
    ensures o.Returned? ==> r == Returned(Some(o.value))
    ensures o.Raised? ==> r == Raised(o.error)
  {
    match o
    case Returned(x) => Returned(Some(x))
    case Raised(e) => Raised(e)
  }

  /** `resolve_svaluable(value, stage)`: `None` stays `None`; a producer is called and its exception propagates. */
  function ResolveSValuable<T, S>(value: Option<SValuable<T, S>>, stage: Option<S>): (r: Outcome<Option<T>>)
    ensures value.None? ==> r == Returned(None)
    ensures value.Some? && value.value.Constant? ==> r == Returned(Some(value.value.value))
    ensures value.Some? && value.value.Nullary? ==> r == Lift(value.value.produce())
    ensures value.Some? && value.value.StageBound? && stage.None? ==> r == Raised(ValueError(MissingStageMessage))
    ensures value.Some? && value.value.StageBound? && stage.Some? ==> r == Lift(value.value.apply(stage.value))
    ensures r.Returned? && value.Some? ==> r.value.Some?
  {
    match value
    case None => Returned(None)
    case Some(Constant(v)) => Returned(Some(v))
    case Some(Nullary(f)) => Lift(f())
    case Some(StageBound(f)) =>
      if stage.None? then Raised(ValueError(MissingStageMessage)) else Lift(f(stage.value))
  }

  /**
   * Whether a stage is bound never changes what a constant or a zero-argument
   * producer resolves to, and such a value raises only what its producer raises.
   */
  lemma StageIrrelevantUnlessStageBound<T, S>(value: Option<SValuable<T, S>>, s1: Option<S>, s2: Option<S>)
    requires value.None? || !value.value.StageBound?
    ensures ResolveSValuable(value, s1) == ResolveSValuable(value, s2)
    ensures ResolveSValuable(value, s1).Raised? ==>
              value.Some? && value.value.Nullary? && value.value.produce() == Raised(ResolveSValuable(value, s1).error)
  {
  }

  /**
   * With a stage bound, resolving is exactly using the value with that stage:
   * the missing-stage error cannot arise, and any exception is the producer's own.
   */
  lemma ResolvesWithStage<T, S>(value: Option<SValuable<T, S>>, stage: S)
    ensures value.None? ==> ResolveSValuable(value, Some(stage)) == Returned(None)
    ensures value.Some? ==> ResolveSValuable(value, Some(stage)) == Lift(Call(value.value, stage))
  {
  }
}
