# gsl::unique_error in Dafny

`gsl::unique_error<Error>` holds an error value and tracks whether anyone has
looked at it. Its `disposition` field takes one of five states: Initiated,
Defaulted, Released, Checked, Unchecked. Overwriting the value with
`reset(raw)` fails fast while the value is Unchecked. `reset()` and the
destructor go through the same guard. The test file builds a small
`either<Error, T>` combinator on top of it. `ifok` short-circuits on a held
error and otherwise hands the payload to a continuation. It is used to chain
allocations that may fail.

The project has five modules:

- `ErrorTraits` (error_traits.dfy) covers `error_traits<E>` as a value
  `Traits(initiate, ok)`. It includes the `std::error_condition` and
  `std::error_code` specializations. `std::error_condition` is modelled as an
  integer code in a category, where code 0 means "no error".
- `Lifecycle` (lifecycle.dfy) is the state machine on values. `ErrorState` is
  the pair of fields. There is one function per operation. `Step` and `Run`
  give the effect of one call and of a sequence of calls, where `Aborted`
  stands for fail_fast. Lemmas cover sequences of calls.
- `UniqueErrors` (unique_error.dfy) holds the class `UniqueError<E>`, with the
  fields `value` and `disposition`. The traits are a constant, standing for
  the template argument. Every method updates the fields as the header does.
  Each method is proved to leave exactly the state that the matching
  `Lifecycle` function gives. fail_fast is the precondition
  `disposition != Unchecked` on `Reset`, `ResetWith` and `Destroy`. So a
  client that verifies never aborts.
- `Eithers` (either.dfy) covers the either tags, the either itself, `ifok`,
  `check_unique_ptr`, `make_unique_or_error_condition` and `Create2`. They
  are modelled as values and functions. The either stores its
  unique_error_condition by value, as an `ErrorState`.
- `UniqueErrorTests` (tests.dfy) covers `Create1` and the unit tests as
  methods on `UniqueError` objects. The error_ge test methods return their
  CHECK observations in order, and their contracts say they all hold.
  Create1Test's CHECKs depend on the allocations, so its contract says
  `try_ok()` holds exactly when both pointers are set. A
  `CHECK_THROW(ge.reset(...), fail_fast)` becomes the observation
  `ge.disposition == Unchecked`. That is exactly when the guard of
  `reset(raw)` fires. In the throwing test build the reset then changes
  nothing.

Note that `release()` marks the value Released and then calls `reset()`, so it ends
**Defaulted** holding `initiate()`. A moved-from object ends the same way,
because the move goes through `release()`. It is never left Released.

## Model

| member | source | states |
|---|---|---|
| ErrorTraits.ConditionTraits | include/unique_error.h:333-347 | the error_condition traits are lawful (`ok(initiate())`); `ok(e)` holds exactly when the code is 0 |
| ErrorTraits.CodeTraits | include/unique_error.h:349-363 | the error_code traits are lawful; `ok(e)` holds exactly when the code is 0 |
| ErrorTraits.GenericTraits | include/unique_error.h:108-114 | the primary template: `initiate()` is T{}, `ok(e)` holds exactly when e converts to true, so the traits are lawful exactly when T{} converts to true |
| ErrorTraits.GenericTraitsRejectTheirInitialValue | include/unique_error.h:108-114 | with the primary template at `bool`, `ok(initiate())` is false |
| ErrorTraits.CorrectedGenericTraits | include/unique_error.h:108-114 | with `ok(e) == !e`, the traits are lawful for every T whose T{} converts to false |
| Lifecycle.Reset | include/unique_error.h:215-220 | `reset()` is permitted only on a value that is not Unchecked; it always ends Defaulted holding `initiate()`, which is ok for lawful traits |
| Lifecycle.ResetWith | include/unique_error.h:222-230 | past the guard, `reset(raw)` stores raw and leaves a value that is not safe to discard |
| Lifecycle.Check | include/unique_error.h:250-254 | `ok()` answers `ok(value)`, keeps the value and marks it Checked, which makes it safe to discard |
| Lifecycle.CopyOf | include/unique_error.h:184-188 | a copy holds the source's value and is Unchecked, so not safe to discard |
| Lifecycle.Initial | include/unique_error.h:160-164 | a default object holds `initiate()`, is safe to discard, and is ok for lawful traits |
| Lifecycle.FromValue | include/unique_error.h:166-176 | a converted raw error is held unchanged and is safe to discard |
| Lifecycle.Swap | include/unique_error.h:190-195 | the two objects exchange value and disposition, so an obligation to check goes with the value |
| Lifecycle.Release | include/unique_error.h:232-238 | `release()` has no precondition; it returns the previous value and leaves `initiate()`, Defaulted, safe to discard |
| Lifecycle.Test | include/unique_error.h:210-213 | `operator bool` is true exactly when the value is not ok; it leaves the value unchanged and the disposition Checked |
| Lifecycle.MoveConstruct | include/unique_error.h:178-182 | the destination holds the source's value and is Unchecked (unsafe to discard); the source ends Defaulted holding `initiate()` |
| Lifecycle.Step | include/unique_error.h:190-254 | a call aborts exactly when it is `reset()` or `reset(raw)` on an Unchecked value; reads leave the state as it was; `swap()` never aborts |
| Lifecycle.RunAppend | include/unique_error.h:145-270 | running two sequences of calls one after the other is the same as running their concatenation |
| Lifecycle.UncheckedSurvivesUnguardedCalls | include/unique_error.h:197-208 | from an Unchecked value, any number of reads and assignments never abort, and they leave it Unchecked |
| Lifecycle.UncheckedUntilDischarged | include/unique_error.h:190-254 | from an Unchecked value, calls that include no `ok()`, `operator bool`, `release()` (being moved from is one) or `swap()` with an object that is not Unchecked either fail fast or leave the value Unchecked |
| Lifecycle.SecondOverwriteFailsFast | include/unique_error.h:222-230 | a first `reset(raw)` is allowed on a value that is not Unchecked; a second `reset(raw)` then aborts whenever no `ok()`, `operator bool`, `release()` (being moved from is one) or `swap()` with an object that is not Unchecked comes between the two |
| Lifecycle.SwapPassesObligationOn | include/unique_error.h:190-230 | `swap()` hands the obligation to the other object: after `reset(raw)`, a swap with an object that is not Unchecked lets the next `reset(raw)` through |
| Lifecycle.InspectionPermitsOverwrite | include/unique_error.h:210-238 | after `ok()`, `operator bool` or `release()`, the next `reset(raw)` goes through and stores raw, Unchecked |
| UniqueErrors.UniqueError.constructor | include/unique_error.h:160-164 | a default object holds `initiate()` and is Defaulted |
| UniqueErrors.UniqueError.FromRaw | include/unique_error.h:166-176 | a raw error is stored unchanged and the object is Initiated |
| UniqueErrors.UniqueError.Move | include/unique_error.h:178-182 | the new object gets the source's value, Unchecked; the source is left with `initiate()`, Defaulted |
| UniqueErrors.UniqueError.Copy | include/unique_error.h:184-188 | the new object gets an equal value, Unchecked; the source is not modified |
| UniqueErrors.UniqueError.Swap | include/unique_error.h:190-195 | both value and disposition are exchanged, as `Lifecycle.Swap` gives, and nothing else changes |
| UniqueErrors.UniqueError.MoveAssign | include/unique_error.h:197-202 | the target's disposition is not checked; the target holds the source's value, Unchecked; a distinct source is left Defaulted with `initiate()` |
| UniqueErrors.UniqueError.CopyAssign | include/unique_error.h:203-208 | the target's disposition is not checked; the target holds an equal value, Unchecked; a distinct source is unchanged |
| UniqueErrors.UniqueError.HoldsError | include/unique_error.h:210-213 | `operator bool` returns `!ok(value)` and marks the object Checked |
| UniqueErrors.UniqueError.Reset | include/unique_error.h:215-220 | requires a disposition other than Unchecked; ends with `initiate()`, Defaulted |
| UniqueErrors.UniqueError.ResetWith | include/unique_error.h:222-230 | requires a disposition other than Unchecked; stores raw, Unchecked |
| UniqueErrors.UniqueError.Release | include/unique_error.h:232-238 | no precondition; returns the old value and leaves `initiate()`, Defaulted |
| UniqueErrors.UniqueError.Ok | include/unique_error.h:250-254 | returns `ok(value)` and marks the object Checked; the value is unchanged |
| UniqueErrors.UniqueError.Destroy | include/unique_error.h:155-158 | the destructor requires a disposition other than Unchecked, because it calls `reset()` |
| UniqueErrors.Swap | include/unique_error.h:272-276 | the free swap exchanges the full state of both objects |
| UniqueErrors.UniqueError.Get | include/unique_error.h:240-243 | `get()` returns the held value, the one `try_ok()` judges, and marks nothing |
| UniqueErrors.UniqueError.TryOk | include/unique_error.h:245-248 | `try_ok()` answers what `ok()` would, without marking; a default object with lawful traits is ok |
| UniqueErrors.Equal | include/unique_error.h:284-288 | `==` holds exactly when the held values are equal; every object equals itself |
| UniqueErrors.NotEqual | include/unique_error.h:290-294 | `!=` holds exactly when the held values differ |
| UniqueErrors.Less | include/unique_error.h:278-282 | `<` is the `Error` type's `<` on the held values; with an irreflexive `<`, equal objects are never ordered |
| UniqueErrors.ReadsIgnoreDisposition | include/unique_error.h:240-294 | `get`, `try_ok`, `==`, `!=` and `<` depend only on the held values; objects with equal values answer alike whatever their dispositions, and `!=` is the negation of `==` |
| Eithers.Fail | tests/unique_error_tests.cpp:91-94 | `fail(e)` gives a failure tag holding e's value, Unchecked |
| Eithers.DefaultEither | tests/unique_error_tests.cpp:103 | a default either holds no error, its slot is safe to discard, and its payload is T{} |
| Eithers.FromTag | tests/unique_error_tests.cpp:106-107 | from `either_ok`: that payload and a default ok slot. From `either_fail`: that error, Unchecked, and payload T{} |
| Eithers.AssignEither | tests/unique_error_tests.cpp:108-112 | assignment ignores the target's slot; the target takes the source's payload and the source's error, Unchecked |
| Eithers.IfOk | tests/unique_error_tests.cpp:114-127 | the source slot is Checked on both branches. On an error, the result is a copy of that error (Unchecked) with payload U{}, and f is not used. Otherwise the result is exactly `f(t)` |
| Eithers.IfOkVoid | tests/unique_error_tests.cpp:145-158 | as IfOk, for a continuation that takes no payload |
| Eithers.CheckUniquePtr | tests/unique_error_tests.cpp:57-61 | holds not_enough_memory (Initiated) exactly when the pointer is null, and the default ok value otherwise |
| Eithers.MakeUniqueOrErrorCondition | tests/unique_error_tests.cpp:161-168 | fails with not_enough_memory exactly when the allocation failed; otherwise ok, carrying the allocated pointer |
| Eithers.Create2 | tests/unique_error_tests.cpp:192-200 | the first failed allocation's error is carried, Unchecked; with both allocations the payload is exactly both pointers; it fails exactly when one of them failed |
| Eithers.Create2SkipsSecondStep | tests/unique_error_tests.cpp:192-200 | when the first allocation fails, the second allocation's outcome has no influence on the result |
| Eithers.UseBoth | tests/unique_error_tests.cpp:232-239 | the create2_test continuation returns `ok()`: no error, safe to discard |
| Eithers.Create2TestPasses | tests/unique_error_tests.cpp:228-244 | when both allocations succeed, both pointers are set, the continuation's result is returned, and the error released from it is ok |
| Eithers.Chain | tests/unique_error_tests.cpp:114-120 | no steps leave the either as it is; from a failed either, any steps end failed with payload T{} |
| Eithers.ChainAppend | tests/unique_error_tests.cpp:114-120 | chained `ifok` steps compose: chaining `first + second` equals chaining `second` after `first` |
| Eithers.ChainPropagatesFailure | tests/unique_error_tests.cpp:114-120 | after a failure, any number of further steps return that same error value (Unchecked) and do not run |
| Eithers.ChainStopsAtFailure | tests/unique_error_tests.cpp:114-120 | if the chain has failed after k steps, the whole chain ends with that failure |
| Eithers.ChainThreadsPayload | tests/unique_error_tests.cpp:114-120 | if the chain is still ok after k steps, step k is applied to that payload and its result is the chain's result |
| UniqueErrorTests.Heap.MakeUniqueNothrow | tests/unique_error_tests.cpp:49-52 | an attempt either fails (null) or returns a new handle; every attempt is counted |
| UniqueErrorTests.NewCheckUniquePtr | tests/unique_error_tests.cpp:57-61 | the returned object is in the state given by `CheckUniquePtr` |
| UniqueErrorTests.OkCall | tests/unique_error_tests.cpp:202-204 | returns a default object: `initiate()`, Defaulted |
| UniqueErrorTests.FailCall | tests/unique_error_tests.cpp:205-207 | returns invalid_argument, Initiated |
| UniqueErrorTests.OkApiCall | tests/unique_error_tests.cpp:209-211 | `okApiCall()` returns the ok error_condition, code 0 in the generic category |
| UniqueErrorTests.FailApiCall | tests/unique_error_tests.cpp:212-214 | `failApiCall()` returns an error_condition that is not ok |
| UniqueErrorTests.AssignTemporary | tests/unique_error_tests.cpp:182 | `ge = <temporary>` (also at 186, 301, 312 and 327) leaves `ge` holding the temporary's value, Unchecked, whatever `ge` held before; destroying the temporary does not abort |
| UniqueErrorTests.HandOff | tests/unique_error_tests.cpp:179 | moving `ge` into the result tuple gives an Unchecked element with the same value; destroying the local does not abort |
| UniqueErrorTests.Create1 | tests/unique_error_tests.cpp:175-190 | never aborts. Returns not_enough_memory, Unchecked, unless both allocations succeed. After a failed Foo allocation, Bar is never attempted |
| UniqueErrorTests.Create1Test | tests/unique_error_tests.cpp:216-226 | `try_ok()` holds exactly when both returned pointers are set; destroying the tested result does not abort |
| UniqueErrorTests.ErrorGeBasicTest | tests/unique_error_tests.cpp:246-251 | a default object is ok and safe to destroy |
| UniqueErrorTests.ErrorGeMissingOkTest | tests/unique_error_tests.cpp:253-266 | after `reset(okApiCall())`, a second reset would fail fast; after `release()` the object is safe to destroy |
| UniqueErrorTests.ErrorGeMissingFailTest | tests/unique_error_tests.cpp:268-283 | an Initiated object may be reset once; a second reset would fail fast |
| UniqueErrorTests.ErrorGeLongTest | tests/unique_error_tests.cpp:285-336 | the eight CHECKs hold and the four CHECK_THROWs see an Unchecked value (twelve observations in order). `if (ge)`, `release()`, `reset()` and `ok()` make the object safe again; each assignment makes it unsafe |

## Left out

- fail_fast (`fail_fast.h`) is not part of this model. Aborting is a precondition, or `Aborted` in `Lifecycle.Run`. The throwing test build appears only as the CHECK_THROW observations.
- The MSVC and `GSL_THROWS_FOR_TESTING` macro plumbing is left out. It changes no behaviour.
- The deleted `error_traits` specializations for the integral types are a compile-time restriction. `Traits` can be built for any type.
- The mixed comparisons between a unique_error and a raw `Error` (include/unique_error.h:296-330) are left out. They read `.value` of the raw `Error` and would not compile if instantiated.
- The commented-out HRESULT and winerror examples are left out.
- The internals of `std::error_condition`/`std::error_code` are not modelled beyond a code and a category. Categories, messages and `make_error_condition` are left out. `not_enough_memory` and `invalid_argument` use their POSIX values, 12 and 22.
- UniqueErrors.Equal, UniqueErrors.NotEqual and UniqueErrors.Less follow the template bodies at include/unique_error.h:278-294. The friend declarations at 257-259 name non-template functions that are never defined. Overload resolution would prefer those, so a program comparing two unique_errors would not link as written. No test compares two unique_errors.
- UniqueErrors.Less: takes the `Error` type's `<` as a parameter. The ordering of `std::error_condition` is not modelled.
- UniqueErrors.UniqueError.Destroy: Dafny has no destructors. The model calls `Destroy` wherever C++ destroys a unique_error: locals at scope end and temporaries after an assignment.
- `make_unique_nothrow` and `unique_ptr` ownership are left out. A pointer is `Null` or an opaque handle. In `Eithers` the allocation outcomes are parameters. In `Create1` they come from `Heap`, which chooses nondeterministically.
- Eithers.IfOk: models the non-const overload. The const overloads (tests/unique_error_tests.cpp:122-127, 153-158) copy the payload instead of moving it. On values, the two agree. The moved-from payload left in the source either is not modelled. Only the source's error slot is returned.
- Eithers.IfOk: returns `f(t)` as the result directly. This assumes the copy elision C++14 permits. Without it, the defaulted move constructor of `either` would leave the result's slot Unchecked instead of Defaulted. Eithers.CheckUniquePtr, UniqueErrorTests.NewCheckUniquePtr, UniqueErrorTests.OkCall and UniqueErrorTests.FailCall (tests/unique_error_tests.cpp:59-60, 203, 206) assume the same elision: without it their result would be Unchecked rather than Initiated or Defaulted. So do the ok branch of Eithers.MakeUniqueOrErrorCondition (`return ok(std::move(t))`, line 167), the inner continuation of Eithers.Create2 and Eithers.UseBoth (`return ok()`, line 238), whose `either_ok` is converted through ifok's `return f(std::move(t))` at line 119: without elision their slot would be Unchecked rather than Defaulted. Every caller checks, tests with the next `if (e)`, move-assigns or releases that result at once, so no abort depends on it.
- The defaulted copy and move constructors of `either` are not separate functions. They copy or move the slot as `UniqueError.Copy` and `UniqueError.Move` do. The `error()` accessor is the `e` field.
- The `Error` parameter of `either` is fixed to unique_error_condition, the only one the tests use.
- Eithers.Chain: all steps share one payload type. The source changes the payload type at each `ifok`.
- The `indexer`/`_idx` literal sugar, the UnitTest++ macros and `main` are left out.

## Findings

| source | as written | input that shows it | evidently intended | confidence | as-written member | corrected member |
|---|---|---|---|---|---|---|
| include/unique_error.h:108-114 | the primary `error_traits<T>` uses `ok(e) = !!e`, true when e converts to true, with `initiate() = T{}` | T = `bool`, which the primary template does not delete: `initiate()` is `false` and `ok(false)` is false, so a default `unique_error<bool>` already reports failure from `try_ok()` | `ok(e) = !e`, as both specializations (333-363) have it, so that `ok(initiate())` holds | medium, not executed | ErrorTraits.GenericTraitsRejectTheirInitialValue | ErrorTraits.CorrectedGenericTraits |

The rest of the model instantiates only the `std::error_condition` and
`std::error_code` specializations. Both follow the corrected rule.
