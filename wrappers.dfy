/**
 * The `exceptional` and `nullable` decorators, as maps from the outcome of the
 * wrapped call to the outcome of the wrapper.  `exit()` raises `SystemExit`,
 * a base exception that ends the process unless something above catches it.
 * `AppException` is tested before `CriticalException`, and the two are
 * treated as distinct kinds.
 */
module Decorators {
  import opened Errors

  /** Outcome of `exceptional(func)(...)` when `func(...)` had outcome `o`. */
  function Exceptional<V>(funcName: string, o: Outcome<V>): (r: Outcome<V>)
    ensures o.Returned? ==> r == o
    ensures o.Raised? && (o.error.KeyboardInterrupt? || o.error.AppException?) ==> r == o
    ensures o.Raised? && o.error.CriticalException? ==> r == Raised(SystemExit)
    ensures o.Raised? && o.error.SystemExit? ==> r == o
    ensures (o.Raised? && IsOrdinary(o.error) && !o.error.AppException? && !o.error.CriticalException?)
      ==> r == Raised(AppException(o.error, funcName))
    // nothing escapes the wrapper except an interrupt, the exit, or an AppException
    ensures r.Raised? ==> r.error.KeyboardInterrupt? || r.error.SystemExit? || r.error.AppException?
  {
    match o
    case Returned(_) => o
    case Raised(e) =>
      if e.KeyboardInterrupt? || e.AppException? then o
      else if e.CriticalException? then Raised(SystemExit)
      else if IsOrdinary(e) then Raised(AppException(e, funcName))
      else o
  }

  /** Outcome of `nullable(default=default)(f)(...)` when `f(...)` had outcome `o`. */
  function Nullable<V>(default: V, o: Outcome<V>): (r: Outcome<V>)
    ensures o.Returned? ==> r == o
    ensures o.Raised? && IsOrdinary(o.error) ==> r == Returned(default)
    ensures o.Raised? && !IsOrdinary(o.error) ==> r == o
    ensures r.Raised? ==> !IsOrdinary(r.error)
  {
    match o
    case Returned(_) => o
    case Raised(e) => if IsOrdinary(e) then Returned(default) else o
  }

  /** Bare `@nullable`: the default is `None`. */
  function NullableNone<U>(o: Outcome<Option<U>>): (r: Outcome<Option<U>>)
    ensures o.Raised? && IsOrdinary(o.error) ==> r == Returned(None)
    ensures o.Returned? ==> r == o
    ensures o.Raised? && o.error.KeyboardInterrupt? ==> r == o
  {
    Nullable(None, o)
  }

  /** Wrapping with `exceptional` twice behaves like wrapping once: the outer layer re-raises the inner AppException. */
  lemma ExceptionalIdempotent<V>(inner: string, outer: string, o: Outcome<V>)
    ensures Exceptional(outer, Exceptional(inner, o)) == Exceptional(inner, o)
  {
  }

  /** `nullable` twice behaves like the inner one alone. */
  lemma NullableIdempotent<V>(d1: V, d2: V, o: Outcome<V>)
    ensures Nullable(d2, Nullable(d1, o)) == Nullable(d1, o)
  {
  }

  /** `nullable` around `exceptional`: every ordinary failure gives the default except a critical one, which still exits. */
  lemma NullableOverExceptional<V>(d: V, name: string, o: Outcome<V>)
    ensures o.Raised? && o.error.CriticalException? ==> Nullable(d, Exceptional(name, o)) == Raised(SystemExit)
    ensures o.Raised? && IsOrdinary(o.error) && !o.error.CriticalException? ==> Nullable(d, Exceptional(name, o)) == Returned(d)
  {
  }
}
