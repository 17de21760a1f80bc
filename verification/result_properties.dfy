/** Properties of the Result container that relate several calls: what each
    accessor does on a Result built by `ok` or `err`, the agreement and the
    divergence between `state()` and `isOk()`, and `catchInResult` as the way
    back from a throwing call to a Result. */
module ResultProperties {
  import opened Options
  import opened AccessErrors
  import opened Results

  /** The Results that the two static constructors can produce. */
  ghost predicate Constructed<T(!new), E(!new)>(r: Result<T, E>) {
    (exists v :: r == OkResult(v)) || (exists e :: r == ErrResult(e))
  }

  /** A Result can be built by `ok` or `err` exactly when it is well shaped:
      the class's constructor is private, so no other shape exists. */
  lemma ConstructedIffWellShaped<T(!new), E(!new)>(r: Result<T, E>)
    ensures Constructed(r) <==> WellShaped(r)
  {
    if WellShaped(r) {
      if r.resultState == ResultState.Ok {
        assert r == OkResult(r.value);
      } else {
        assert r == ErrResult(r.error);
      }
    }
  }

  /** `ok(v)` with a defined `v` is ok, not err, in state Ok, and unwraps to `v`. */
  lemma OkDefined<T, E>(v: T)
    ensures IsOk(OkResult<T, E>(Some(v)))
    ensures !IsErr(OkResult<T, E>(Some(v)))
    ensures State(OkResult<T, E>(Some(v))) == ResultState.Ok
    ensures Unwrap(OkResult<T, E>(Some(v))) == Returned(v)
  {
  }

  /** `err(e)` with a defined `e` is err, not ok, in state Err, and
      `unwrapErr()` returns `e`. */
  lemma ErrDefined<T, E>(e: E)
    ensures IsErr(ErrResult<T, E>(Some(e)))
    ensures !IsOk(ErrResult<T, E>(Some(e)))
    ensures State(ErrResult<T, E>(Some(e))) == ResultState.Err
    ensures UnwrapErr(ErrResult<T, E>(Some(e))) == Returned(e)
  {
  }

  /** `isErr()` is the negation of `isOk()` on every Result. */
  lemma IsErrNegatesIsOk<T, E>(r: Result<T, E>)
    ensures IsErr(r) <==> !IsOk(r)
  {
  }

  /** `unwrap()` on an err throws the misuse error for subject `value`, with
      the message the tests expect. */
  lemma UnwrapOnErrThrows<T, E>(e: Option<E>)
    ensures Unwrap(ErrResult<T, E>(e)) == Threw(IllegalAccess(Value))
    ensures ErrorMessage(Unwrap(ErrResult<T, E>(e)).thrown.subject)
         == "Attempted to access result value but it does not exist"
  {
  }

  /** `unwrapErr()` on an ok throws the misuse error for subject `error`,
      with the message the tests expect. */
  lemma UnwrapErrOnOkThrows<T, E>(v: Option<T>)
    ensures UnwrapErr(OkResult<T, E>(v)) == Threw(IllegalAccess(Error))
    ensures ErrorMessage(UnwrapErr(OkResult<T, E>(v)).thrown.subject)
         == "Attempted to access result error but it does not exist"
  {
  }

  /** On an ok with a defined value, `unwrapOr` and `unwrapOrElse` return the
      value, whatever the default or the supplier. */
  lemma DefaultsIgnoredOnOk<T, E>(v: T, d: Option<T>, f: () -> Outcome<Option<T>, E>)
    ensures UnwrapOr(OkResult<T, E>(Some(v)), d) == Returned(Some(v))
    ensures UnwrapOrElse(OkResult<T, E>(Some(v)), f) == Returned(Some(v))
  {
  }

  /** On an err with a defined error, `unwrapOr` returns the default and
      `unwrapOrElse` completes as the supplier does. */
  lemma DefaultsUsedOnErr<T, E>(e: E, d: Option<T>, f: () -> Outcome<Option<T>, E>)
    ensures UnwrapOr(ErrResult<T, E>(Some(e)), d) == Returned(d)
    ensures UnwrapOrElse(ErrResult<T, E>(Some(e)), f) == f()
  {
  }

  /** When `isOk()` holds, the supplier of `unwrapOrElse` is never consulted:
      two suppliers give the same completion. */
  lemma SupplierIgnoredWhenOk<T, E>(r: Result<T, E>, f: () -> Outcome<Option<T>, E>, g: () -> Outcome<Option<T>, E>)
    requires IsOk(r)
    ensures UnwrapOrElse(r, f) == UnwrapOrElse(r, g)
  {
  }

  /** `unwrapOrElse` with a supplier that returns `d` is `unwrapOr(d)`. */
  lemma UnwrapOrElseGeneralizesUnwrapOr<T, E>(r: Result<T, E>, d: Option<T>)
    ensures UnwrapOrElse(r, () => Returned(d)) == UnwrapOr(r, d)
  {
  }

  /** `throwIfErr()` on an err throws exactly the wrapped error; on an ok it
      returns normally. */
  lemma ThrowIfErrOnConstructed<T, E>(v: Option<T>, e: E)
    ensures ThrowIfErr(ErrResult<T, E>(Some(e))) == Threw(Wrapped(e))
    ensures ThrowIfErr(OkResult<T, E>(v)) == Returned(())
  {
  }

  /** On a Result built by `ok` or `err` whose payload is defined, the tag
      and the field tests agree. */
  lemma StateAgreesWithIsOk<T(!new), E(!new)>(r: Result<T, E>)
    requires Constructed(r) && PayloadPresent(r)
    ensures State(r) == ResultState.Ok <==> IsOk(r)
    ensures State(r) == ResultState.Err <==> IsErr(r)
  {
  }

  /** Among the Results `ok` and `err` build, the tag and the field tests
      disagree on `err(undefined)` and on nothing else. */
  lemma StateAgreesExactly<T(!new), E(!new)>(r: Result<T, E>)
    requires Constructed(r)
    ensures ((State(r) == ResultState.Ok <==> IsOk(r)) && (State(r) == ResultState.Err <==> IsErr(r)))
        <==> r != ErrResult(None)
  {
  }

  /** `ok(undefined)` is in state Ok and `isOk()` holds, so the tag and the
      field test agree; only `unwrap()` and `unwrapOr` throw the misuse error
      for subject `value`. */
  lemma OkUndefined<T, E>(d: Option<T>)
    ensures State(OkResult<T, E>(None)) == ResultState.Ok && IsOk(OkResult<T, E>(None))
    ensures Unwrap(OkResult<T, E>(None)) == Threw(IllegalAccess(Value))
    ensures UnwrapOr(OkResult<T, E>(None), d) == Threw(IllegalAccess(Value))
  {
  }

  /** `err(undefined)` is in state Err, yet `isOk()` holds, `isErr()` does
      not, `throwIfErr()` returns normally and `unwrapOr` throws instead of
      returning the default. */
  lemma ErrUndefined<T, E>(d: Option<T>)
    ensures State(ErrResult<T, E>(None)) == ResultState.Err
    ensures IsOk(ErrResult<T, E>(None)) && !IsErr(ErrResult<T, E>(None))
    ensures ThrowIfErr(ErrResult<T, E>(None)) == Returned(())
    ensures UnwrapOr(ErrResult<T, E>(None), d) == Threw(IllegalAccess(Value))
  {
  }

  /** A callback that returns a defined `v` becomes an ok that unwraps to `v`. */
  lemma CatchReturned<T, E>(v: T)
    ensures IsOk(CatchInResult<T, E>(() => Returned(Some(v))))
    ensures Unwrap(CatchInResult<T, E>(() => Returned(Some(v)))) == Returned(v)
  {
  }

  /** A callback that throws `x` becomes an err whose `unwrapErr()` is `x`. */
  lemma CatchRaised<T, E>(x: Thrown<E>)
    ensures IsErr(CatchInResult<T, E>(() => Threw(x)))
    ensures UnwrapErr(CatchInResult<T, E>(() => Threw(x))) == Returned(x)
  {
  }

  /** Catching `unwrap()` gives back an ok of the value when it is defined,
      and otherwise an err holding the misuse error for subject `value`. */
  lemma CatchUnwrap<T, E>(r: Result<T, E>)
    ensures r.value.Some? ==> CatchInResult(() => Lift(Unwrap(r))) == OkResult(r.value)
    ensures r.value.None? ==> CatchInResult(() => Lift(Unwrap(r))) == ErrResult(Some(IllegalAccess(Value)))
  {
  }
}
