/** The `Result<T, E>` value-or-error container and the `catchInResult`
    helper.

    A Result keeps three fields apart, exactly as the class does: the state
    tag, the value and the error. Either payload may be `undefined`
    (`None`), and the accessors do not all consult the same field: `State`
    reads the tag, `IsOk`, `UnwrapErr` and `ThrowIfErr` read the error field
    and `Unwrap` reads the value field. Throwing is modelled by the
    `Outcome` an accessor returns. */
module Results {
  import opened Options
  import opened AccessErrors

  /** The explicit discriminant of a Result. */
  datatype ResultState = Ok | Err

  /** What an accessor or a callback can throw: the misuse error
      `IllegalResultAccessError` that an accessor raises itself for a
      subject, or a stored or caught error of type `E` passed through
      unchanged (which may itself be a misuse error caught earlier). */
  datatype Thrown<E> = IllegalAccess(subject: Subject) | Wrapped(error: E)

  /** The completion of a call: a normal return with a value, or a throw. */
  datatype Outcome<T, E> = Returned(value: T) | Threw(thrown: Thrown<E>)

  /** An immutable Result: the state tag and the two payload fields, each of
      which may be `undefined`. */
  datatype Result<T, E> = Result(resultState: ResultState, value: Option<T>, error: Option<E>)

  /** A Result of the shape the two static constructors produce: the tag
      agrees with which field was set, and the other field is `undefined`. */
  predicate WellShaped<T, E>(r: Result<T, E>) {
    || (r.resultState == ResultState.Ok && r.error.None?)
    || (r.resultState == ResultState.Err && r.value.None?)
  }

  /** The payload that the tag announces is defined (not `undefined`). */
  predicate PayloadPresent<T, E>(r: Result<T, E>) {
    match r.resultState
    case Ok => r.value.Some?
    case Err => r.error.Some?
  }

  /** A returned value seen as a JavaScript value, which may be `undefined`. */
  function Lift<T, E>(o: Outcome<T, E>): (o': Outcome<Option<T>, E>)
    ensures o'.Returned? <==> o.Returned?
    ensures o.Returned? ==> o'.value == Some(o.value)
    ensures o.Threw? ==> o'.thrown == o.thrown
  {
    match o
    case Returned(v) => Returned(Some(v))
    case Threw(t) => Threw(t)
  }

  /** `Result.ok(value)`; `value` may itself be `undefined`. */
  function OkResult<T, E>(v: Option<T>): (r: Result<T, E>)
    ensures WellShaped(r)
    ensures State(r) == ResultState.Ok && Unwrap(r).Returned? == v.Some?
  {
    Result(ResultState.Ok, v, None)
  }

  /** `Result.err(error)`; `error` may itself be `undefined`. */
  function ErrResult<T, E>(e: Option<E>): (r: Result<T, E>)
    ensures WellShaped(r)
    ensures State(r) == ResultState.Err && UnwrapErr(r).Returned? == e.Some?
  {
    Result(ResultState.Err, None, e)
  }

  /** `isOk()`: true exactly when the error field is `undefined`, so exactly
      when neither `unwrapErr()` would return nor `throwIfErr()` would throw. */
  predicate IsOk<T, E>(r: Result<T, E>)
    ensures IsOk(r) <==> UnwrapErr(r).Threw?
    ensures IsOk(r) <==> ThrowIfErr(r).Returned?
  {
    r.error.None?
  }

  /** `isErr()`: the negation of `isOk()`. */
  predicate IsErr<T, E>(r: Result<T, E>)
    ensures IsErr(r) <==> UnwrapErr(r).Returned?
    ensures IsErr(r) <==> ThrowIfErr(r).Threw?
  {
    !IsOk(r)
  }

  /** `unwrap()`: returns the value when it is defined, and otherwise throws
      the misuse error for subject `value`; it never throws a domain error. */
  function Unwrap<T, E>(r: Result<T, E>): (o: Outcome<T, E>)
    ensures o.Returned? <==> r.value.Some?
    ensures o.Returned? ==> r.value == Some(o.value)
    ensures o.Threw? ==> o.thrown == IllegalAccess(Value)
  {
    match r.value
    case Some(v) => Returned(v)
    case None => Threw(IllegalAccess(Value))
  }

  /** `unwrapOr(defaultValue)`: the default when `isOk()` is false, and
      otherwise whatever `unwrap()` does, which throws when the value is
      `undefined`. */
  function UnwrapOr<T, E>(r: Result<T, E>, defaultValue: Option<T>): (o: Outcome<Option<T>, E>)
    ensures !IsOk(r) ==> o == Returned(defaultValue)
    ensures IsOk(r) && r.value.Some? ==> o == Returned(r.value)
    ensures IsOk(r) && r.value.None? ==> o == Threw(IllegalAccess(Value))
  {
    if IsOk(r) then Lift(Unwrap(r)) else Returned(defaultValue)
  }

  /** `unwrapOrElse(f)`: `f`'s completion when `isOk()` is false, and
      otherwise whatever `unwrap()` does, without calling `f`. */
  function UnwrapOrElse<T, E>(r: Result<T, E>, f: () -> Outcome<Option<T>, E>): (o: Outcome<Option<T>, E>)
    ensures !IsOk(r) ==> o == f()
    ensures IsOk(r) ==> o == UnwrapOr(r, None)
  {
    if IsOk(r) then Lift(Unwrap(r)) else f()
  }

  /** `unwrapErr()`: returns the error when it is defined, and otherwise
      throws the misuse error for subject `error`. */
  function UnwrapErr<T, E>(r: Result<T, E>): (o: Outcome<E, E>)
    ensures o.Returned? <==> r.error.Some?
    ensures o.Returned? ==> r.error == Some(o.value)
    ensures o.Threw? ==> o.thrown == IllegalAccess(Error)
  {
    match r.error
    case Some(e) => Returned(e)
    case None => Threw(IllegalAccess(Error))
  }

  /** `throwIfErr()`: throws exactly the stored error when one is defined,
      and otherwise returns normally; it never raises a misuse error of its
      own. */
  function ThrowIfErr<T, E>(r: Result<T, E>): (o: Outcome<(), E>)
    ensures o.Threw? <==> r.error.Some?
    ensures o.Threw? ==> o.thrown.Wrapped? && r.error == Some(o.thrown.error)
  {
    match r.error
    case Some(e) => Threw(Wrapped(e))
    case None => Returned(())
  }

  /** `state()`: the tag. On a Result built by `ok` or `err` whose payload
      is defined, it agrees with `isOk()`. */
  function State<T, E>(r: Result<T, E>): (s: ResultState)
    ensures WellShaped(r) && PayloadPresent(r) ==> (s == ResultState.Ok <==> IsOk(r))
  {
    r.resultState
  }

  /** `catchInResult(f)`: `ok` of what `f` returns, or `err` of whatever `f`
      throws (a misuse error included). It never throws itself, so its
      result is a Result and not an Outcome. */
  function CatchInResult<T, E>(f: () -> Outcome<Option<T>, E>): (r: Result<T, Thrown<E>>)
    ensures WellShaped(r)
    ensures State(r) == ResultState.Ok <==> f().Returned?
    ensures f().Returned? ==> r.value == f().value
    ensures f().Threw? ==> IsErr(r) && UnwrapErr(r) == Returned(f().thrown)
  {
    match f()
    case Returned(v) => OkResult(v)
    case Threw(x) => ErrResult(Some(x))
  }
}
