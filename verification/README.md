# result-ts in Dafny

A model of the `Result<T, E>` value-or-error container of result-ts
(`mod.ts`), of its `catchInResult` helper, and of the
`IllegalResultAccessError` message, with proofs of what the accessors do.

- `options.dfy`, module `Options`: `Option<T>`. `None` stands for
  JavaScript's `undefined`.
- `access_errors.dfy`, module `AccessErrors`: the access subject (`value` or
  `error`) and the message `"Attempted to access result " + subject + " but
  it does not exist"`. It also has a parser that reads the subject back out
  of a message, which shows that the message tells the two misuses apart.
- `results.dfy`, module `Results`: the state tag `ResultState`, the Result
  itself, the two static constructors (`OkResult` for `Result.ok`,
  `ErrResult` for `Result.err`), every accessor, and `CatchInResult`.
- `result_properties.dfy`, module `ResultProperties`: lemmas that relate
  several calls.

A Result keeps three separate fields, as the class does: the tag, the value
and the error. Either payload may be `undefined`. The accessors do not all
read the same field:
- `state()` reads the tag.
- `isOk()`, `unwrapErr()` and `throwIfErr()` test the error field.
- `unwrap()` tests the value field.
- `unwrapOr` and `unwrapOrElse` go through `isOk()` and then `unwrap()`.

Throwing is modelled as a returned `Outcome`, either `Returned(v)` or
`Threw(t)`. The thrown thing `t` is either `IllegalAccess(subject)` (the
misuse error) or `Wrapped(e)` (a stored or caught error passed through unchanged).
Callbacks (the supplier of `unwrapOrElse`, the function given to
`catchInResult`) are pure functions that produce such an `Outcome`.
Caller-supplied values may be `undefined`: the argument of `ok`, the default
of `unwrapOr`, and what a callback returns.

Although a Result stores an explicit state tag, `isOk()` does not read it:
it tests whether the error field is `undefined` (mod.ts:51-53), and the
model does the same.
- `StateAgreesWithIsOk` proves the two agree on every Result built by `ok`
  or `err` whose payload is defined.
- `StateAgreesExactly` gives the exact boundary. Among Results built by `ok`
  or `err`, the tag and `isOk()` disagree on `err(undefined)` and on nothing
  else.
- `ErrUndefined` shows that case: `err(undefined)` is in state Err, yet
  `isOk()` holds and `unwrapOr(d)` throws instead of returning `d`.
- `OkUndefined` shows that on `ok(undefined)` the tag and `isOk()` still
  agree (state Ok, `isOk()` holds). Only `unwrap()` and `unwrapOr(d)` throw,
  because the value field is `undefined`.

## Model

| member | source | states |
|---|---|---|
| AccessErrors.SubjectText | mod.ts:1-4 | Each access subject stands for its five-letter string; the subject is `Value` exactly when the string is "value" |
| AccessErrors.ErrorMessage | mod.ts:24-29 | The misuse message starts with "Attempted to access result ", ends with " but it does not exist", and has exactly the subject's text between them |
| AccessErrors.ParsesIffMessage | mod.ts:24-29 | A text parses to subject `s` exactly when it is the message built for `s` |
| AccessErrors.MessageRoundTrip | mod.ts:24-29 | Parsing the message built for a subject gives back that subject |
| AccessErrors.MessageDeterminesSubject | mod.ts:19-29 | Two misuse errors carry the same message exactly when they are for the same subject |
| AccessErrors.ValueMessageText | mod.test.ts:34-41 | The message for subject `value` is exactly "Attempted to access result value but it does not exist" |
| AccessErrors.ErrorMessageText | mod.test.ts:63-70 | The message for subject `error` is exactly "Attempted to access result error but it does not exist" |
| Results.OkResult | mod.ts:43-45 | `ok(v)` is well shaped and in state Ok; `unwrap()` returns on it exactly when `v` is defined |
| Results.ErrResult | mod.ts:47-49 | `err(e)` is well shaped and in state Err; `unwrapErr()` returns on it exactly when `e` is defined |
| Results.IsOk | mod.ts:51-53 | `isOk()` holds exactly when `unwrapErr()` would throw, and exactly when `throwIfErr()` would return normally |
| Results.IsErr | mod.ts:55-57 | `isErr()` holds exactly when `unwrapErr()` would return, and exactly when `throwIfErr()` would throw |
| Results.Unwrap | mod.ts:59-65 | `unwrap()` returns exactly when the value is defined, and then returns that value; otherwise it throws the misuse error for subject `value` and never a domain error |
| Results.UnwrapOr | mod.ts:67-69 | `unwrapOr(d)` returns `d` when `isOk()` is false; when it holds, it returns the value if defined and otherwise throws the misuse error for `value` |
| Results.UnwrapOrElse | mod.ts:71-73 | `unwrapOrElse(f)` completes as `f` does when `isOk()` is false; when it holds, it behaves as `unwrapOr`, whatever `f` is |
| Results.UnwrapErr | mod.ts:75-81 | `unwrapErr()` returns exactly when the error is defined, and then returns that error; otherwise it throws the misuse error for subject `error` |
| Results.ThrowIfErr | mod.ts:83-87 | `throwIfErr()` throws exactly when the error is defined; what it throws is that stored error, and it never raises a misuse error of its own |
| Results.State | mod.ts:89-91 | On a well-shaped Result whose payload is defined, `state()` is Ok exactly when `isOk()` holds |
| Results.CatchInResult | mod.ts:11-17 | `catchInResult(f)` gives a well-shaped Result. Its state is Ok exactly when `f` returns, and then it holds what `f` returned. When `f` throws, the Result is err and `unwrapErr()` gives back exactly what `f` threw |
| ResultProperties.ConstructedIffWellShaped | mod.ts:37-49 | Because the constructor is private, a Result can be built by `ok` or `err` exactly when its tag agrees with its fields and the other field is `undefined` |
| ResultProperties.OkDefined | mod.ts:43-61 | For a defined `v`, `ok(v)` is ok, is not err, is in state Ok, and `unwrap()` returns `v` |
| ResultProperties.ErrDefined | mod.ts:47-57 | For a defined `e`, `err(e)` is err, is not ok, is in state Err, and `unwrapErr()` returns `e` |
| ResultProperties.IsErrNegatesIsOk | mod.ts:55-57 | On every Result, `isErr()` is the negation of `isOk()` |
| ResultProperties.UnwrapOnErrThrows | mod.test.ts:34-41 | `unwrap()` on any err throws the misuse error for `value`, whose message is "Attempted to access result value but it does not exist" |
| ResultProperties.UnwrapErrOnOkThrows | mod.test.ts:63-70 | `unwrapErr()` on any ok throws the misuse error for `error`, whose message is "Attempted to access result error but it does not exist" |
| ResultProperties.DefaultsIgnoredOnOk | mod.test.ts:43-53 | On `ok(v)` with `v` defined, `unwrapOr(d)` and `unwrapOrElse(f)` return `v`, whatever `d` and `f` are |
| ResultProperties.DefaultsUsedOnErr | mod.ts:67-73 | On `err(e)` with `e` defined, `unwrapOr(d)` returns `d` and `unwrapOrElse(f)` completes as `f` does |
| ResultProperties.SupplierIgnoredWhenOk | mod.ts:71-73 | When `isOk()` holds, any two suppliers give `unwrapOrElse` the same completion, so the supplier is never consulted |
| ResultProperties.UnwrapOrElseGeneralizesUnwrapOr | mod.ts:67-73 | `unwrapOrElse` with a supplier that returns `d` behaves as `unwrapOr(d)` on every Result |
| ResultProperties.ThrowIfErrOnConstructed | mod.test.ts:72-78 | `throwIfErr()` on `err(e)` throws exactly `e`; on any `ok` it returns normally |
| ResultProperties.StateAgreesWithIsOk | mod.ts:89-91 | On a Result built by `ok` or `err` whose payload is defined, `state()` is Ok exactly when `isOk()` holds, and Err exactly when `isErr()` holds |
| ResultProperties.StateAgreesExactly | mod.ts:43-53 | On a Result built by `ok` or `err`, the tag agrees with `isOk()` and `isErr()` exactly when the Result is not `err(undefined)` |
| ResultProperties.OkUndefined | mod.ts:59-69 | `ok(undefined)` is in state Ok and `isOk()` holds, yet `unwrap()` and `unwrapOr(d)` throw the misuse error for `value` |
| ResultProperties.ErrUndefined | mod.ts:51-69 | `err(undefined)` is in state Err, yet `isOk()` holds and `isErr()` does not. `throwIfErr()` returns normally, and `unwrapOr(d)` throws the misuse error for `value` instead of returning `d` |
| ResultProperties.CatchReturned | mod.ts:11-13 | A callback that returns a defined `v` becomes an ok that unwraps to `v` |
| ResultProperties.CatchRaised | mod.ts:14-16 | A callback that throws `x` becomes an err whose `unwrapErr()` is `x` |
| ResultProperties.CatchUnwrap | mod.ts:11-17 | Catching `unwrap()` of a Result gives `ok` of its value when the value is defined; otherwise it gives an err that holds the misuse error for `value` |

## Left out

- The Deno test harness and its remote assertion import (mod.test.ts:1-5): these bind a test framework and contain no logic. The tests' expectations are stated as lemmas instead.
- JavaScript exception propagation and stack unwinding: a throw is a returned `Outcome` value.
- User callbacks (the supplier of `unwrapOrElse`, the function given to `catchInResult`) are pure total functions. Their side effects, non-termination and repeated calls are not modelled.
- Throwing `undefined` itself (`throw undefined`) is not modelled: a thrown value is always a misuse error or a defined domain error.
- The `Error` base class (message property, stack, `instanceof`): a domain error is an opaque `E`. The misuse error is the tag `IllegalAccess` together with its subject, and its message is `ErrorMessage(subject)`.
- The TypeScript generic bound `E extends Error`, and `unwrapErr()`'s declared return type `Error`: the model returns the opaque `E`. `catchInResult` types its error as "whatever was thrown" (misuse error or domain error), because a `catch` clause catches both.
- An error that `catchInResult` caught and `throwIfErr()` throws again is `Wrapped(x)` of what was caught: a caught domain error `Wrapped(e)` comes out as `Wrapped(Wrapped(e))`, and a caught misuse error as `Wrapped(IllegalAccess(...))`. In JavaScript the same object is thrown again, so neither nesting is visible there. The model's "misuse error" therefore means one that an accessor raises itself.
