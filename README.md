# coreutils core, modelled in Dafny

A model of the core of `github.com/gotomgo/coreutils`:

- **errors**: the context-rich `*Error` value.
  - Its `Error()` text, which joins the inner-error chain.
  - The builders that change it in place: `WithMessage`, `WithInner`, `WithContext` and the rest.
  - The type and status queries.
  - The free functions that look inside any Go `error`.
  - Error templates and the package's catalogue of API errors.
- **concurrency**:
  - the retry evaluators, including the stateful `RetryCountEval` countdown and the `All`/`Any` combinators;
  - retry configuration and its normalisation;
  - the retry loop of `(*RetryHandler).Execute`;
  - the infinity, semaphore and fail-fast limiters;
  - the balance checker that wraps a limiter;
  - the batch executor.
- **convert**:
  - the integer, bool and string conversions of `typeConversions.go`;
  - the struct-to-map conversion of `structToMap.go`: tag parsing, field selection and `IntoMap`;
  - the key conversion of `mapToStruct.go`, which turns `map[interface{}]interface{}` into `map[string]interface{}`.
- **data**: `isNilFixed`, the reflective method call helpers, and the validators of both builds: the default debug build and the `RELEASE` build.

How the model is built:

- Go values become datatypes: `ErrorRecord`, `GoError`, `Value`, `Input`, `Item`, `Attempt` and others.
- Objects whose fields the source updates in place become classes with `modifies` frames:
  - `Error`;
  - `RetryCounter`, the closure returned by `RetryCountEval`;
  - `RetryHandler`;
  - `SemaphoreLimiter`, `FailFastLimiter` and `BalanceChecker`;
  - `BatchRequest`;
  - `MapRef`, a Go map filled in place.
- Each state-changing loop of the source is a method with its invariants, proved against a specification function. Two loops that only compute a value are not methods. The option search in `tagOptions.Has` is the recursive function `StructToMap.Has`. The loop that copies a flattened sub-map into the output is a single map update in `StructToMap.FieldInto`. Results that concern several calls are lemmas about those functions.
- Fixed-width integers are written out explicitly:
  - `int32`, `int64` and `uint64` are subset types;
  - Go's truncating conversions are `ToInt32Bits` and `ToInt64Bits`;
  - `ErrorType` is a `bv64`.
- What the environment does is a parameter of each operation or lemma:
  - the state of the context;
  - how a wait ends;
  - what a target returns;
  - `time.Until(deadline)`.
- `strconv` parsing and the backoff's `ForAttempt` are function parameters.

Modules and files:

- `wrappers.dfy`: `Option`.
- `goints.dfy`: Go's integer widths.
- `values.dfy`: the `interface{}` values the model handles.
- `fmt.dfy`: the part of `fmt.Sprintf` used here.
- `contexts.dfy`: a context's abstract state.
- `errors.dfy`, `errortemplates.dfy` and `apierrors.dfy`.
- `retryevaluators.dfy`, `retryconfig.dfy` and `retry.dfy`.
- `limiters.dfy`, for the limiters together, and one file per limiter: `inflimiter.dfy`, `semaphorelimiter.dfy` and `failfastlimiter.dfy`.
- `balancechecker.dfy` and `batch.dfy`.
- `typeconversions.dfy`, `structtomap.dfy` and `maptostruct.dfy`.
- `validation.dfy`, `validatedebug.dfy` and `validaterelease.dfy`.

Where documentation comments and code disagree, the model follows the code:

- `IsErrorID`'s comment says a non-`*Error` gives false. The code compares `GetErrorID(err)`, which is `""` for such an error, with the requested ID. So it gives true when that ID is `""`.
- `IsAPIError`'s comment says a non-`*Error` gives true. The code gives false, because such an error's ID is `""`, not `api/error`.

## Model

| member | source | states |
|---|---|---|
| Fmt.Sprintf | errors/error.go:113-120 | `fmt.Sprintf` on string arguments, as `NewErrorFormatted`, `WithMessageF` and `Instancef` use it. With no arguments, a format without `%` is copied verbatim. |
| Fmt.SprintfPrefix | errors/errorTemplate.go:65 | Text before the first `%` is copied ahead of whatever the rest of the format gives. |
| Fmt.SprintfOne | errors/errorTemplate.go:65 | One `%s` between plain text is replaced by the one argument. |
| Errors.TypeTagsInsideMask | errors/error.go:11-24 | The error, warning and reserved tags are bits 31, 30, 29 and 28. The status tag is 0. Each tag lies inside `ErrorTypeMask`. |
| Errors.TextIsJoinedChain | errors/error.go:123-135 | `Error()` is the `[ID]: Message` lines of the whole inner-error chain, outermost first, joined by `"\n\t-> "`. It is empty exactly for nil. |
| Errors.ErrorPtr.Text | errors/error.go:123-135 | `Error()` is empty only for a nil `*Error`. Otherwise it starts with the `[ID]: Message` line. `TextIsJoinedChain` gives the whole text. |
| Errors.GoError.Text | errors/error.go:123-135 | The `Error()` text of any `error` value the modelled code handles. An `*Error` gives its own text, led by the `[ID]: Message` line. The context errors give `context canceled` and `context deadline exceeded`, and the text of a wrap from `github.com/pkg/errors` starts with `msg: `, followed by the cause's text. These non-`*Error` cases stand for library behaviour. The text is empty only for a plain error with an empty message. |
| Errors.NewErrorFromError | errors/error.go:87-97 | Nil stays nil. An `*Error` is returned as it is. Any other error becomes an error-typed `api/error` whose message is the error's text. The status code agrees with the free `GetHTTPStatusCode`. |
| Errors.NewErrorWithID | errors/error.go:100-110 | As `NewErrorFromError`, under the given ID. A converted error has status 500 and no inner error. |
| Errors.NewErrorFromErrorIdempotent | errors/error.go:87-97 | Converting the result of a conversion again changes nothing. |
| Errors.NewErrorFormatted | errors/error.go:113-120 | An error-typed `*Error` with status 500, whose text is `[ID]: ` followed by the formatted message. |
| Errors.OKIsStatus | errors/error.go:50-54 | `OK` is a status, not an error, with code 200 and text `[api/ok]: The operation was successful`. |
| Errors.MergeContext | errors/error.go:182-188 | The merged context has the keys of both maps. A given pair overwrites an old pair under the same key. Every other old pair is kept. |
| Errors.Error.constructor | errors/error.go:71-80 | A fresh `Error` holds exactly the given fields. |
| Errors.Error.WithMessage | errors/error.go:138-145 | A nil receiver returns nil. Otherwise only the message changes, and the same pointer is returned. |
| Errors.Error.WithMessageF | errors/error.go:148-155 | As `WithMessage`, with the formatted message. |
| Errors.Error.WithInner | errors/error.go:164-174 | A nil inner error leaves the receiver unchanged. Otherwise the inner error is set to `NewErrorFromError(inner)`. Nothing else changes. |
| Errors.Error.WithContext | errors/error.go:177-191 | The loop over the given pairs creates the context if it is absent. It leaves the old context merged with the given pairs, which win on shared keys. No other field changes. |
| Errors.Error.WithContextValue | errors/error.go:194-204 | The context, created if absent, gains or overwrites one key. No other field changes. |
| Errors.Error.WithTransient | errors/error.go:207-214 | Only the transient flag changes. |
| Errors.Error.WithHTTPStatus | errors/error.go:217-224 | Only the status code changes. |
| Errors.ErrorRecord.WithMessage | errors/error.go:138-145 | The record after `WithMessage`: the message is the new one and every other field is kept. |
| Errors.ErrorRecord.WithInner | errors/error.go:164-174 | A nil inner error keeps the record. Any other becomes a non-nil `NewErrorFromError` in the inner field, and every other field is kept. |
| Errors.ErrorRecord.WithContext | errors/error.go:177-191 | The context exists afterwards. Its keys are the old ones plus the given ones, the given pairs win, and the others keep their values. No other field changes. |
| Errors.ErrorRecord.WithContextValue | errors/error.go:194-204 | The context exists afterwards and maps the key to the value. The other pairs and fields are kept. |
| Errors.ErrorRecord.WithTransient | errors/error.go:207-214 | `IsTransient` then answers the given flag, and every other field is kept. |
| Errors.ErrorRecord.WithHTTPStatus | errors/error.go:217-224 | Only the status changes. A non-zero status is what `GetHTTPStatusCode` then reports; zero falls back to 500 for errors and 200 otherwise. |
| Errors.TypeTestsExclusive | errors/error.go:227-269 | At most one of error, warning and status holds. On nil, none of the type, transient or ID tests holds. |
| Errors.ErrorPtr.IsError | errors/error.go:227-233 | False on nil, otherwise the type is `EtError`. `TypeTestsExclusive` proves it excludes the warning and status tests. |
| Errors.ErrorPtr.IsWarning | errors/error.go:236-242 | False on nil, otherwise the type is `EtWarning`. Exclusive with the other type tests by `TypeTestsExclusive`. |
| Errors.ErrorPtr.IsStatus | errors/error.go:245-251 | False on nil, otherwise the type is `EtStatus`. Exclusive with the other type tests by `TypeTestsExclusive`. |
| Errors.ErrorPtr.IsTransient | errors/error.go:254-260 | False on nil, otherwise the transient flag. `TypeTestsExclusive` states the nil case. |
| Errors.ErrorPtr.IsEqual | errors/error.go:263-269 | False on nil, otherwise whether the ID is the one asked for. `TypeTestsExclusive` states the nil case. |
| Errors.StatusCodeDefaults | errors/error.go:277-293 | The code is never 0. Nil gives 200. A set code is returned as it is. An unset code gives 500 for an error, and 200 for a warning or status. |
| Errors.ErrorPtr.GetHTTPStatusCode | errors/error.go:277-293 | The method. `StatusCodeDefaults` proves it is never 0: 200 for nil, a set code as it is, else 500 for errors and 200 for warnings and statuses. |
| Errors.NilTestsAgree | errors/error.go:27-39 | `IsNotError` and `NoError` agree, and both are the negation of `IsError`. |
| Errors.IsNotError | errors/error.go:27-29 | `err == nil`; `NilTestsAgree` relates it to the other two tests. |
| Errors.NoError | errors/error.go:32-34 | `err == nil`; `NilTestsAgree` proves it agrees with `IsNotError`. |
| Errors.IsError | errors/error.go:37-39 | `err != nil`; `NilTestsAgree` proves it is the negation of both. |
| Errors.GetHTTPStatusCode | errors/error.go:301-323 | Nil gives 200. An error that is not an `*Error` gives 500. |
| Errors.StatusCodeFunctionMatchesMethod | errors/error.go:277-323 | For nil and for `*Error` values, the free function equals the method on `GetError(err)`. |
| Errors.GetError | errors/error.go:381-387 | Returns the `*Error` exactly when `err` is one, and nil otherwise. |
| Errors.GetErrorID | errors/error.go:326-335 | The ID of the `*Error` inside `err`. It is `""` for nil and for any other error. |
| Errors.IsErrorIDMeaning | errors/error.go:343-349 | True of an `*Error` with that ID. Also true of any other non-nil error when the ID asked for is `""`. False otherwise. |
| Errors.IsErrorID | errors/error.go:343-349 | False for nil, else `GetErrorID(err) == errID`. `IsErrorIDMeaning` states when that holds. |
| Errors.IsAPIErrorMeaning | errors/error.go:358-364 | True exactly of an `*Error` with the ID `api/error`, so false for any other error. Such an error does become an `api/error` under `NewErrorFromError`. |
| Errors.IsAPIError | errors/error.go:358-364 | False for nil, else `IsErrorID` with `api/error`. `IsAPIErrorMeaning` states when that holds. |
| Errors.IsStatusErrorMeaning | errors/error.go:367-378 | True exactly when the `*Error` inside `err` is a status. |
| Errors.IsStatusError | errors/error.go:367-378 | False for nil and for errors that are not `*Error`, else the status test. `IsStatusErrorMeaning` states it. |
| ErrorTemplates.NewErrorTemplate | errors/errorTemplate.go:24-32 | An error-typed template with the given ID, format, status and transient flag. |
| ErrorTemplates.NewWarningTemplate | errors/errorTemplate.go:35-42 | A warning-typed, non-transient template with the given fields. |
| ErrorTemplates.NewStatusTemplate | errors/errorTemplate.go:45-52 | A status-typed, non-transient template with the given fields. |
| ErrorTemplates.Instancef | errors/errorTemplate.go:56-71 | An `Error` carrying the template's ID, type, transient flag and status, with no inner error and no context. The message is the format string itself when there are no arguments; otherwise it is the formatted string. |
| ErrorTemplates.Instance | errors/errorTemplate.go:75-77 | `Instancef` with the template's own format. |
| ErrorTemplates.InstanceOneArg | errors/errorTemplate.go:75-77 | A `%s` format with one argument gives the text with the argument put in place of the verb. |
| ErrorTemplates.InstanceKinds | errors/errorTemplate.go:24-77 | Instances of error, warning and status templates satisfy `IsError`, `IsWarning` and `IsStatus` respectively. They carry the template's transient flag. |
| ErrorTemplates.InstanceStatusCode | errors/errorTemplate.go:56-62 | An instance's status code is the template's, or the type's default when that is 0. Its text is `[ID]: Message`. |
| ErrorTemplates.InstancefPlainFormat | errors/errorTemplate.go:64-68 | Without arguments and without `%`, skipping `Sprintf` gives the same message as calling it. |
| ErrorTemplates.InstancefKeepsPercent | errors/errorTemplate.go:64-68 | Without arguments, a `%` in the format is kept literally; `Sprintf` would have added `%!(NOVERB)`. |
| ApiErrors.IDsDistinct | errors/apiErrors.go:5-40 | The catalogue's IDs are pairwise distinct, and distinct from `api/error` and `api/ok`. |
| ApiErrors.TemplatesAreErrors | errors/apiErrors.go:42-198 | Each template has its catalogue ID, in order. Every template is error-typed and not transient. |
| ApiErrors.TemplateStatusCodes | errors/apiErrors.go:54-197 | The argument errors have status 400; access denied 403; not found 404; not implemented 501; internal and data-integrity errors 500. No template's status is 0. |
| ApiErrors.ArgumentNullInstance | errors/apiErrors.go:78-82 | An instance for argument `name` has the ID `api/arg/null`, the message `the argument, name, cannot be null`, and status 400. |
| ApiErrors.ConversionFailedInstance | errors/apiErrors.go:180-184 | An instance has the ID `api/data/failed/conversion`, is an error, and has status 400. |
| RetryEvaluators.RetryCounter.constructor | concurrency/retryEvaluator.go:24-29 | `RetryCountEval(n)` starts a countdown at `n`, or at 0 when `n` is negative. |
| RetryEvaluators.RetryCounter.Call | concurrency/retryEvaluator.go:30-37 | Each call answers true while calls remain, then false. The count goes down by one and stops at 0. |
| RetryEvaluators.Eval | concurrency/retryEvaluator.go:8-77 | Evaluating keeps the set of countdowns. It changes only the countdowns inside the evaluator, and never raises one. |
| RetryEvaluators.Evaluate | concurrency/retryEvaluator.go:8-77 | The method answers as `Eval` and leaves every countdown where `Eval` says. |
| RetryEvaluators.EvaluateCount | concurrency/retryEvaluator.go:30-37 | One countdown call, as `Eval` of a `Count`. |
| RetryEvaluators.EvaluateAll | concurrency/retryEvaluator.go:47-57 | The loop of `AllRetryEval` answers as `EvalAll` from child 0, countdowns included. |
| RetryEvaluators.EvalAll | concurrency/retryEvaluator.go:47-57 | All children from `i` on. No countdown outside those children changes, no countdown goes up, and the set of countdowns is kept. |
| RetryEvaluators.EvaluateAny | concurrency/retryEvaluator.go:67-77 | The loop of `AnyRetryEval` answers as `EvalAny` from child 0, countdowns included. |
| RetryEvaluators.EvalAny | concurrency/retryEvaluator.go:67-77 | Any child from `i` on, with the same countdown guarantees as `EvalAll`. |
| RetryEvaluators.ConstantEvaluators | concurrency/retryEvaluator.go:8-15 | `NoRetryEval` always says false and `AlwaysRetryEval` always says true. Neither touches a countdown. |
| RetryEvaluators.EmptyCombinators | concurrency/retryEvaluator.go:47-77 | With no children, `AllRetryEval` says true and `AnyRetryEval` says false. |
| RetryEvaluators.StatelessCombinators | concurrency/retryEvaluator.go:47-77 | Over children without countdowns, `All` is true iff every child says true. `Any` is true iff some child does. |
| RetryEvaluators.ShortCircuit | concurrency/retryEvaluator.go:47-77 | Once the children so far veto (for `All`) or accept (for `Any`), appending children changes neither the answer nor any countdown. |
| RetryEvaluators.CountdownAnswers | concurrency/retryEvaluator.go:24-38 | A countdown at `n`, asked once per error, says true exactly on the first `n` asks. It ends at `n` minus the asks, and at no less than 0. |
| RetryConfigs.NewDefaultRetryConfig | concurrency/retryConfig.go:43-50 | The default configuration: 50 ms, 5000 ms, factor 2, jitter on. |
| RetryConfigs.DefaultsWithinLimits | concurrency/retryConfig.go:7-24 | The minimum wait is 5 ms, and the defaults satisfy minimum ≤ min ≤ max and factor ≥ 1. |
| Retry.ClampMinMax | concurrency/retry.go:66-85 | Both bounds are raised to at least 5 ms and put in order. The result is the pair of raised bounds, as a multiset. |
| Retry.ClampFactor | concurrency/retry.go:93-101 | A factor below 1 becomes 1; any other factor is kept. |
| Retry.FromMilliseconds | concurrency/retry.go:54-55 | Milliseconds become nanoseconds wherever the product fits in 64 bits. |
| Retry.RetryHandler.constructor | concurrency/retry.go:41-43 | A handler before normalisation: zero bounds and factor, with the given jitter. |
| Retry.RetryHandler.WithMinMax | concurrency/retry.go:66-85 | The bounds become `ClampMinMax(min, max)`. Nothing else changes, and the same handler is returned. |
| Retry.RetryHandler.WithFactor | concurrency/retry.go:93-101 | The factor becomes `ClampFactor(factor)`. Nothing else changes. |
| Retry.NewRetryHandler | concurrency/retry.go:40-45 | A fresh handler with the bounds and factor normalised. |
| Retry.NewRetryHandlerFromConfig | concurrency/retry.go:49-57 | A fresh handler: the configuration's milliseconds are turned into durations, then normalised. |
| Retry.ClampMinMaxKeepsValid | concurrency/retry.go:66-85 | Bounds that are already ordered, and at least the minimum, are kept. |
| Retry.ClampMinMaxSymmetric | concurrency/retry.go:66-85 | Swapping the two bounds gives the same result. |
| Retry.ClampMinMaxExamples | concurrency/retry.go:67-79 | (50 ms, 3 ms) gives (5 ms, 50 ms), and (50 ms, 25 ms) gives (25 ms, 50 ms). |
| Retry.ConfigExample | concurrency/retry.go:49-57 | The configuration (25, 3, 0.8) gives bounds of 5 ms and 25 ms, with factor 1. |
| Retry.DefaultConfigNormalised | concurrency/retry.go:49-57 | The default configuration passes through normalisation unchanged. |
| Retry.Decide | concurrency/retry.go:149-154 | A nil evaluator means retry, with no countdown touched. Otherwise the evaluator's answer decides. The set of countdowns is kept. |
| Retry.WaitTime | concurrency/retry.go:157-179 | The wait is never longer than the backoff delay, nor, with a deadline, than the time left. It is one of the two, or infinite. |
| Retry.Execute | concurrency/retry.go:125-194 | The loop's outcome, its call count, its waits and the countdowns it leaves are those of `ExecuteSpec` over the environment. |
| Retry.ExecuteSpec | concurrency/retry.go:125-194 | The specification of the retry loop over the attempt environment. A run makes at least the attempts already made and no more calls than the environment holds. A run that has not finished has used every attempt. |
| Retry.ExecuteWaitsPrefix | concurrency/retry.go:130-191 | A run keeps the waits already made, makes at most one wait per call, and never shortens the record. |
| Retry.ExecuteWaits | concurrency/retry.go:168-191 | The k-th wait is `WaitTime` of the backoff delay for attempt k, cut to the deadline. |
| Retry.ExecuteRetried | concurrency/retry.go:132-192 | Every call but the last found a live context and an error, and its wait ended with the timer. |
| Retry.ExecuteSuccess | concurrency/retry.go:141-143 | A nil error is returned only with the last call's result, and only if that call succeeded. |
| Retry.ExecuteFailure | concurrency/retry.go:133-184 | With an error the result is nil. The error is either the context's error, at the top of the loop, or comes from the last call: the target's error, that error wrapped as a passed deadline, or the context's error wrapped with the target's text. |
| Retry.DoneBeforeFirstCall | concurrency/retry.go:133-138 | A context done at the start returns its error, with no call and no wait. |
| Retry.NoRetryReturnsTargetError | concurrency/retry.go:149-154 | An evaluator that says no returns the target's error after one call. |
| Retry.PassedDeadlineWraps | concurrency/retry.go:157-166 | A deadline already passed wraps the error as `context deadline exceeded: …`, without waiting. |
| Retry.CancelDuringWait | concurrency/retry.go:182-184 | A cancellation during the wait returns `<target error>: context canceled`. |
| Retry.EventuallyWorks | concurrency/retry.go:132-193 | Two waited-out failures and then a success give the success after three calls, with exactly two waits. |
| InfLimiters.GetInfinityLimiter | concurrency/infLimiter.go:27-32 | Always the one shared limiter. This holds by construction: the stateless limiter type has a single value, so the model cannot tell two instances apart. |
| InfLimiters.Acquire | concurrency/infLimiter.go:11-20 | Nil unless the context is done; if it is, the context's error. |
| InfLimiters.AcquireNeverRunsOut | concurrency/infLimiter.go:11-20 | Every acquire on a live context succeeds, however many there are. |
| SemaphoreLimiters.WaitError | concurrency/semaphoreLimiter.go:40-58 | A blocked acquire ends without error exactly when another holder's release frees a slot. Otherwise it ends with the context's error, or with the timeout error when the wait bound passes on a live context. |
| SemaphoreLimiters.AcquireStep | concurrency/semaphoreLimiter.go:26-61 | An acquire succeeds iff the context is live and either a slot is free or a release frees one during the wait. Taking a free slot adds one holder. A slot freed during the wait passes to this caller, so the count is unchanged. A done context gives its error. Any other end of the wait gives the wait's error. |
| SemaphoreLimiters.ReleaseStep | concurrency/semaphoreLimiter.go:64-67 | A release frees exactly one slot. |
| SemaphoreLimiters.SemaphoreLimiter.constructor | concurrency/semaphoreLimiter.go:18-22 | The capacity is `maxConcurrency`, with no slot taken. |
| SemaphoreLimiters.SemaphoreLimiter.Acquire | concurrency/semaphoreLimiter.go:26-61 | The new state and the error are those of `AcquireStep`, including success when a release unblocks the wait. Occupancy stays within capacity. |
| SemaphoreLimiters.SemaphoreLimiter.Release | concurrency/semaphoreLimiter.go:64-67 | The new state is that of `ReleaseStep`. |
| SemaphoreLimiters.AcquireManyFills | concurrency/semaphoreLimiter.go:40-42 | `n` acquires that fit all succeed, and take `n` slots. |
| SemaphoreLimiters.AcquireMany | concurrency/semaphoreLimiter.go:26-61 | One error per acquire in a run of acquires on a live context. |
| SemaphoreLimiters.FillThenTimeout | concurrency/semaphoreLimiter.go:26-61 | `capacity` acquires fill the semaphore. The next one fails: with the deadline error when the context's deadline passes, with the timeout error otherwise. |
| SemaphoreLimiters.ZeroCapacityNeverAdmits | concurrency/semaphoreLimiter.go:26-61 | With capacity 0 every acquire fails, since no slot can be taken or freed. A cancellation gives `context.Canceled`. |
| SemaphoreLimiters.ReleaseUnblocksAcquire | concurrency/semaphoreLimiter.go:40-67 | On a full semaphore, an acquire that a release unblocks ends as that release followed by an acquire that finds the freed slot. |
| SemaphoreLimiters.AcquireReleaseRestores | concurrency/semaphoreLimiter.go:40-67 | A successful acquire followed by a release restores the state. The exception is an acquire a release unblocked: the holder that left stays gone. |
| FailFastLimiters.NewFailFastParams | concurrency/failFastLimiter.go:32-44 | The burst is the rate, or 0 when the rate is negative. The refill rate is the smaller of 1 and the burst. |
| FailFastLimiters.ParamsExamples | concurrency/failFastLimiter.go:32-44 | A rate of 20 gives (1.0, 20); a rate of -20 gives (0.0, 0). |
| FailFastLimiters.AcquireStep | concurrency/failFastLimiter.go:52-64 | Succeeds iff the context is live and a token remains, and then spends one token. A done context gives its error; an empty bucket gives the rate-limit error. |
| FailFastLimiters.FailFastLimiter.constructor | concurrency/failFastLimiter.go:32-44 | The parameters are those of `NewFailFastParams`, and the bucket starts full. |
| FailFastLimiters.FailFastLimiter.Acquire | concurrency/failFastLimiter.go:52-64 | The new state and the error are those of `AcquireStep`. |
| FailFastLimiters.AcquireRunSucceedsExactly | concurrency/failFastLimiter.go:52-64 | On a live context, with no refill, exactly the first `tokens` acquires succeed. |
| FailFastLimiters.FreshLimiterAdmitsBurst | concurrency/failFastLimiter.go:32-64 | A fresh limiter admits exactly `burst` of any run of acquires on a live context. |
| Limiters.AcquireSpec | concurrency/limiter.go:7-13 | An acquire through the interface keeps each limiter's invariant. A done context changes nothing and returns its error. A failed acquire changes nothing. |
| Limiters.ReleaseSpec | concurrency/limiter.go:7-13 | A release changes only a semaphore's state, by one slot. |
| Limiters.AcquireThenRelease | concurrency/limiter.go:7-13 | A successful acquire can be released. The pair restores the infinity limiter. It restores a semaphore that had a free slot. A fail-fast limiter loses one token, and a full semaphore loses the holder whose release unblocked the acquire. |
| Limiters.Acquire | concurrency/limiter.go:7-13 | Dispatch to the limiter's own `Acquire`, as `AcquireSpec`. |
| Limiters.Release | concurrency/limiter.go:7-13 | Dispatch to the limiter's own `Release`, as `ReleaseSpec`. |
| BalanceCheckers.CheckedAcquire | concurrency/balanceChecker.go:21-28 | The delegate's answer is passed through unchanged. The balance goes up by one, wrapped to 32 bits, exactly when that answer is nil. |
| BalanceCheckers.CheckedRelease | concurrency/balanceChecker.go:35-42 | The delegate releases, and the balance goes down by one. The release panics exactly when the new balance is negative. |
| BalanceCheckers.OverReleaseFaults | concurrency/balanceChecker.go:35-42 | A release at balance 0 leaves -1 and panics. |
| BalanceCheckers.BalanceChecker.constructor | concurrency/balanceChecker.go:16-18 | Balance 0, around exactly the given limiter. |
| BalanceCheckers.BalanceChecker.Acquire | concurrency/balanceChecker.go:21-28 | The new state and the error are those of `CheckedAcquire`. The ghost acquire count grows only on success. |
| BalanceCheckers.BalanceChecker.Release | concurrency/balanceChecker.go:35-42 | The new state and the panic flag are those of `CheckedRelease`. |
| BalanceCheckers.BalanceChecker.Balance | concurrency/balanceChecker.go:45-47 | The balance is a 32-bit value. It equals successful acquires minus releases while that fits. |
| BalanceCheckers.AcquireSpec | concurrency/balanceChecker.go:21-28 | Through the interface, a checker's answer is its delegate's. |
| BalanceCheckers.ReleaseSpec | concurrency/balanceChecker.go:35-42 | Through the interface, only a balance checker can panic on release. |
| BalanceCheckers.AcquireReleaseBalance | concurrency/balanceChecker.go:21-42 | From a non-negative balance, a successful acquire and its release leave the balance as it was, and do not panic. |
| BalanceCheckers.Acquire | concurrency/balanceChecker.go:21-28 | Dispatch, as `AcquireSpec`. |
| BalanceCheckers.Release | concurrency/balanceChecker.go:35-42 | Dispatch, as `ReleaseSpec`. |
| BalanceCheckers.InfCheckerBalance | concurrency/balanceChecker.go:21-47 | Around the infinity limiter, with releases never ahead of acquires, the balance is acquires minus releases and no release panics. |
| BalanceCheckers.InfCheckerRun | concurrency/balanceChecker.go:21-47 | A run of calls on a checker around the infinity limiter. The delegate stays the infinity limiter, and at most one panic is counted per release. |
| Batch.PanicError | concurrency/batch.go:105-117 | A panic with an `error` keeps it. Any other panic becomes `target panic: <value>`. |
| Batch.ItemResult | concurrency/batch.go:89-121 | The result has the request's correlation ID. A failed acquire gives that error and a nil result. Otherwise the result is the target's result and error, or the error from its panic. |
| Batch.ItemStep | concurrency/batch.go:89-121 | One request, from a non-negative balance. A failed acquire gives its error with no release. After a successful acquire the release happens exactly once and does not panic, whatever the target did. The balance is kept. |
| Batch.BatchSpec | concurrency/batch.go:83-123 | One result per request, in request order. From a non-negative balance, the batch leaves the balance unchanged. |
| Batch.BatchResultsInOrder | concurrency/batch.go:89 | The i-th result carries the i-th request's correlation ID. |
| Batch.InfiniteBatchRunsEveryTarget | concurrency/batch.go:73-120 | With no limiter, which means the infinity limiter, and live contexts, every target is called and its outcome kept. |
| Batch.ResultsMap | concurrency/batch.go:128-130 | The results filed into `response.Results`. Every key holds a result that carries that key as its correlation ID and is one of the results. |
| Batch.LastIndexOf | concurrency/batch.go:128-130 | The last position holding the ID. |
| Batch.ResultsMapKeys | concurrency/batch.go:128-130 | The response's keys are exactly the correlation IDs that occur. |
| Batch.ResultsMapLastWins | concurrency/batch.go:128-130 | An ID is bound to the last result that carries it. |
| Batch.ResultsMapDistinct | concurrency/batch.go:128-130 | With distinct IDs, every result is kept under its own ID. |
| Batch.BatchRequest.constructor | concurrency/batch.go:48-52 | A batch with the given ID and limiter, and no requests. |
| Batch.BatchRequest.WithWorkRequest | concurrency/batch.go:55-58 | Appends the request and returns the same batch. |
| Batch.BatchRequest.Effective | concurrency/batch.go:75-79 | The limiter `Execute` uses: the batch's own when it has one, otherwise the infinity limiter. |
| Batch.BatchRequest.Execute | concurrency/batch.go:64-133 | Always a nil error. The response has the batch's ID and the results of `BatchSpec`, filed by correlation ID. The limiter, or the infinity limiter when absent, ends in `BatchSpec`'s state. |
| Batch.RunAll | concurrency/batch.go:83-125 | The request loop's buffer and the limiter's final state are those of `BatchSpec`. |
| Batch.RunItem | concurrency/batch.go:85-122 | One goroutine's effect, as `ItemStep`. |
| GoInts.ToInt32Bits | convert/typeConversions.go:20-38 | Go's `int32(x)`: the result is an `int32` congruent to `x` modulo 2^32. |
| GoInts.ToInt64Bits | convert/typeConversions.go:124-143 | Go's `int64(x)`: the result is an `int64` congruent to `x` modulo 2^64. |
| TypeConversions.TypeName | convert/typeConversions.go:109 | The `%T` text of another type is that type's name. |
| TypeConversions.ConversionError | convert/typeConversions.go:113 | A `conversion failed` API error whose inner error is the conversion of the cause. |
| TypeConversions.ToInt32 | convert/typeConversions.go:12-60 | Integer types keep their low 32 bits. A string uses `ParseInt(s, 0, 32)`. Any other type gives 0 and `wrong type`. No error is wrapped. |
| TypeConversions.Wrap | convert/typeConversions.go:112-114 | The value and the panic are kept. Every error is wrapped as a conversion error. |
| TypeConversions.ToInt | convert/typeConversions.go:63-117 | Integer types are truncated to 64 bits. A nil `*int` panics; a non-nil one is read. A string is parsed at 64 bits. Every error is a wrapped conversion error, with value 0. |
| TypeConversions.ToInt64 | convert/typeConversions.go:120-171 | As `ToInt`, with `*int64` as the pointer type it reads. |
| TypeConversions.ToBool | convert/typeConversions.go:215-234 | A bool is itself and a `*bool` is read; a nil `*bool` panics. An `int` is compared with 0. A string is parsed. Other types give a wrapped error. |
| TypeConversions.ToString | convert/typeConversions.go:236-257 | A string is itself. A `*string` is read, and nil gives `""`. A Stringer gives `String()`. Anything else gives `""` and a wrapped error. |
| TypeConversions.ToInt64KeepsValue | convert/typeConversions.go:124-143 | Signed values, and unsigned values narrower than 64 bits, come out unchanged. |
| TypeConversions.ToInt64Unsigned | convert/typeConversions.go:130-133 | A 64-bit unsigned value is reread as two's complement, so the largest gives -1. |
| TypeConversions.ToInt32IsLowBitsOfToInt64 | convert/typeConversions.go:19-38 | `ToInt32` of an integer is the low 32 bits of `ToInt64`'s result. |
| TypeConversions.ToIntMatchesToInt64 | convert/typeConversions.go:63-171 | `ToInt` and `ToInt64` agree on integers and on strings that parse. Each accepts only its own pointer type. |
| StructToMap.Split | convert/structToMap.go:83 | `strings.Split(s, ",")` always yields at least one piece. |
| StructToMap.SplitJoin | convert/structToMap.go:83 | Joining the pieces with `,` gives the text back, and no piece holds a comma. |
| StructToMap.JoinSplit | convert/structToMap.go:83 | Splitting comma-free pieces joined with `,` gives the pieces back. |
| StructToMap.ParseTag | convert/structToMap.go:75-85 | The name and the options, joined with `,`, are the tag, and none holds a comma. |
| StructToMap.ParseTagRoundTrip | convert/structToMap.go:75-85 | A tag written from a name and options parses back to them. |
| StructToMap.ParseTagUnnamedExamples | convert/structToMap.go:75-85 | `""` gives no name and no options. `,opt` gives no name and `[opt]`. |
| StructToMap.ParseTagNamedExamples | convert/structToMap.go:75-85 | `name` gives `name` with no options. `name,opt,opt2` gives `name` with `[opt, opt2]`. |
| StructToMap.Has | convert/structToMap.go:62-70 | True iff the option is among the options. |
| StructToMap.KeptFields | convert/structToMap.go:234-255 | Filtering never adds fields. |
| StructToMap.KeptFieldsMembers | convert/structToMap.go:242-249 | A field is kept iff it is exported and its tag is not `-`. |
| StructToMap.KeptFieldsAppend | convert/structToMap.go:239-252 | Filtering a concatenation concatenates the filtered parts, so kept fields keep their order. |
| StructToMap.StructFields | convert/structToMap.go:234-255 | The loop returns exactly `KeptFields`: the kept fields in declaration order. |
| StructToMap.KeyName | convert/structToMap.go:169-178 | The key is the tag's name if it has one, and the field's own name otherwise. |
| StructToMap.OmitEmptySkips | convert/structToMap.go:182-189 | An `omitempty` field holding its zero value adds no key. |
| StructToMap.PlainFieldStored | convert/structToMap.go:191-227 | A field that is not flattened and not a `string` field is stored under its key name. The value is the nested conversion, or the raw value with `omitnested`. Every other key is kept. |
| StructToMap.StringOptionStored | convert/structToMap.go:213-219 | A `string` field stores `String()` when the value has one, and nothing otherwise. It never flattens. |
| StructToMap.MapRef.constructor | convert/structToMap.go:154 | A fresh, empty map. |
| StructToMap.FieldInto | convert/structToMap.go:168-228 | One loop pass changes the map as `FieldStep` says, and reports whether it panics. |
| StructToMap.FieldStep | convert/structToMap.go:169-227 | One field never removes a key. A panic leaves the map as it was and happens only when a sub-struct to flatten is not a string-keyed map. Unless a map is flattened in, at most the field's own key is added. |
| StructToMap.FieldsInto | convert/structToMap.go:168-228 | The fields in order, stopping at the first panic. No key is ever removed, and a panic needs at least one field. |
| StructToMap.IntoMap | convert/structToMap.go:161-229 | A nil map is left alone. Otherwise the map is filled by the kept fields in order, stopping at the first panic. |
| StructToMap.PanicSticks | convert/structToMap.go:221-224 | Once a field panics while flattening, the fields after it change nothing. |
| MapToStruct.Converted | convert/mapToStruct.go:59-71 | Converting turns a `map[interface{}]interface{}` into a `map[string]interface{}`. Every other value is kept. |
| MapToStruct.ToMapWithStringKey | convert/mapToStruct.go:59-71 | Faults exactly when some key, at any depth through such maps, is not a string. Otherwise it returns the conversion of the whole map. |
| MapToStruct.ChildMapsToStringKey | convert/mapToStruct.go:42-54 | Faults exactly when a child cannot be converted. Otherwise the result has the same keys, each holding the conversion of its child. |
| MapToStruct.ConvertedKeys | convert/mapToStruct.go:59-71 | The result's keys are the input's keys, as strings. Each holds the conversion of its value, which is never a `map[interface{}]interface{}`. |
| MapToStruct.ChildrenPassThrough | convert/mapToStruct.go:47-50 | Children that are not `map[interface{}]interface{}` are kept unchanged; those that are become `map[string]interface{}`. |
| MapToStruct.PathsPreserved | convert/mapToStruct.go:62-68 | Every key path of the input is a path of the result, ending at the conversion of what it ends at in the input. |
| MapToStruct.NonStringKeyFaults | convert/mapToStruct.go:67 | A key that is not a string, at any reachable depth, makes the conversion fault. |
| MapToStruct.StringMapUntouched | convert/mapToStruct.go:47-50 | A `map[string]interface{}` is never looked into. |
| Validation.IsNilFixedAsWritten | data/validation.go:27-37 | As written, the function panics exactly on array values. |
| Validation.ArrayMakesIsNilPanic | data/validation.go:32-34 | An array value, which cannot be nil, makes the function as written panic. |
| Validation.IsNilFixed | data/validation.go:27-37 | The corrected `isNilFixed`: true for the nil interface, and only for it or a value that reports nil. Arrays, structs and the other kinds are never nil. |
| Validation.IsNilFixedMeaning | data/validation.go:27-37 | The corrected function is true of the nil interface, and of nil pointers, maps, channels and slices, and of nothing else. It agrees with the function as written wherever that one returns. |
| Validation.ErrorOf | data/validate.go:24-28 | A result that is an `error` is kept. Anything else gives nil. |
| Validation.CallMethodWithItem | data/validation.go:71-79 | A valid method gives its call's result. An invalid one gives nil. |
| Validation.CallMethod | data/validation.go:81-88 | The lookup panics on the nil interface or a nil pointer. Otherwise it gives nil when no method of that name exists, and the call's result when one does. |
| Validation.ItemNullIsArgumentNull | data/validate.go:52 | The nil-item error is an `api/arg/null` error with status 400 and the message `the argument, item, cannot be null`. |
| Validation.PanicOnError | data/validation.go:91-102 | Panics exactly on a non-nil error, with that error. |
| ValidateDebug.ReflectiveMethod | data/validate.go:19-22 | `ValidateDeep` if found, else `Validate`, else none. |
| ValidateDebug.Validate | data/validate.go:12-36 | Nil for a nil item. Nil for an item with neither interface and no reflective method. |
| ValidateDebug.ValidateLight | data/validate.go:39-47 | `Validate()` of a non-nil `IValidation`, and nil otherwise. |
| ValidateDebug.ValidateNotNil | data/validate.go:50-58 | The argument-null error for a nil item, and `Validate` otherwise. |
| ValidateDebug.ValidateNotNilLight | data/validate.go:61-71 | The argument-null error for a nil item, and `ValidateLight` otherwise. |
| ValidateDebug.MustValidate | data/validation.go:91-95 | Panics exactly when `Validate` reports an error, with that error. |
| ValidateDebug.MustValidateNotNil | data/validation.go:98-102 | Panics exactly when `ValidateNotNil` reports an error, with that error. |
| ValidateDebug.DeepItemUsesOnlyValidateDeep | data/validate.go:14-15 | An `IValidationDeep` item is decided by `ValidateDeep` alone. |
| ValidateDebug.PlainItemUsesOnlyValidate | data/validate.go:16-17 | Otherwise an `IValidation` item is decided by `Validate`, and reflection is not consulted. |
| ValidateDebug.ReflectivePrefersDeep | data/validate.go:18-32 | For an item with neither interface, a found `ValidateDeep` decides before `Validate`. An error can come only from a found method that returned one. |
| ValidateDebug.NilItemNeverValidated | data/validate.go:13-35 | A nil item gives nil, whatever methods it has. |
| ValidateDebug.LightIgnoresDeep | data/validate.go:39-47 | The light validators never look at `ValidateDeep`, nor at reflection. |
| ValidateDebug.NilInterfaceRejected | data/validate.go:50-71 | Both not-nil validators reject the nil interface, so `MustValidateNotNil` panics and `MustValidate` completes. |
| ValidateRelease.Validate | data/validate_release.go:11-19 | `Validate()` of a non-nil `IValidation`, and nil otherwise. |
| ValidateRelease.ValidateLight | data/validate_release.go:22-24 | Always nil. |
| ValidateRelease.ValidateNotNil | data/validate_release.go:27-35 | The argument-null error for a nil item, and `Validate` otherwise. |
| ValidateRelease.ValidateRequiredOpt | data/validate_release.go:38-44 | The argument-null error exactly for a nil item. |
| ValidateRelease.MustValidate | data/validation.go:91-95 | Panics exactly when this build's `Validate` reports an error. |
| ValidateRelease.MustValidateNotNil | data/validation.go:98-102 | Panics exactly when this build's `ValidateNotNil` reports an error. |
| ValidateRelease.ValidateIgnoresDeep | data/validate_release.go:11-19 | `Validate` never looks at `ValidateDeep` or at reflection. |
| ValidateRelease.RequiredOptNeverValidates | data/validate_release.go:38-44 | `ValidateRequiredOpt` depends only on whether the item is nil. |
| ValidateRelease.BuildsAgree | data/validate_release.go:11-19 | The release `Validate` is the debug `ValidateLight`. Both builds agree for nil items and for items validated through `IValidation` alone. |

## Left out

- `timeLimiter` and `rateLimiter` are not part of this model. One is a background goroutine driven by a ticker; the other is a thin wrapper over `golang.org/x/time/rate`.
- FailFastLimiters.FailFastLimiter.Acquire: token refill over time is not modelled. The bucket starts full and only spends tokens, so results about later acquires hold only with no refill.
- The backoff's `ForAttempt`, with its exponential growth and jitter, belongs to an external library. It is a function parameter of `Execute`.
- Real time, timers and cancellation are abstract. A context is a state (`Live`, `Cancelled`, `DeadlinePassed`); `time.Until(deadline)` and how each wait ends are given by the environment.
- Goroutines, the `sync.WaitGroup`, channels and atomic counters are not modelled concurrently. The batch runs its requests one after another in request order. The semaphore is a counter, and a release by another holder that ends a blocked acquire is one of the ways a wait can end (`SlotFreed`).
- Batch.BatchRequest.Execute: requires a non-negative starting balance on a balance-checking limiter. From a negative balance, the release deferred at concurrency/batch.go:102 panics after the recovering function has already run. Nothing recovers that panic, so the process ends. The model has no outcome for this.
- Batch.ItemStep and Batch.BatchSpec: require a non-negative balance for the same reason.
- SemaphoreLimiters.AcquireStep: assumes a wait ends with a freed slot only on a semaphore of capacity at least 1 (`WaitPossible`). On an unbuffered channel the send could complete only by handing off to a `Release` blocked on the empty channel. The model never issues such a release. The requirement is carried by `Limiters.EnvPossible` and `Batch.EnvsPossible`.
- Batch.ResultsMapLastWins: with duplicate correlation IDs the result kept is the last in request order. In Go it is whichever goroutine finished last.
- Retry.ClampFactor: the factor is a `real`; float64 NaN and infinities are not modelled. Go keeps a NaN factor unchanged, because `factor < MinFactor` is false for NaN, so `r >= MinFactor` does not hold for it in Go.
- Retry.Execute and Retry.ExecuteSpec: every call of the target returns. `concurrency/retry.go` has no `recover`, so in Go a panicking target propagates out of `Execute`; the model has no outcome for this.
- MapToStruct.ToMapWithStringKey: only acyclic maps are modelled, because `Value` is an inductive datatype. On a map that contains itself, `toMapWithStringKey` recurses without end.
- Validation.Item: an item whose `validate` or `validateDeep` is present while `methods` has no `Validate` or `ValidateDeep` entry can be written, although Go cannot build one. The dispatch lemmas hold for every item, these included.
- `panic(nil)` in a target is not modelled; a target either returns or panics with an error or another value.
- `BatchRequest` has no constructor in the source. The Dafny constructor stands in for the struct literal.
- SemaphoreLimiters.SemaphoreLimiter.constructor: takes a `nat`, because Go's `make` panics on a negative channel size.
- SemaphoreLimiters.SemaphoreLimiter.Release: requires a taken slot, because a receive on an empty channel blocks forever.
- `infLimiter.Release` and `failFastLimiter.Release` do nothing and have no member of their own. `Limiters.ReleaseSpec` keeps their state.
- No balance checker is nested inside another. The model's `Limiter` is a plain limiter or one checker around one.
- The float branches of the integer conversions, and `ToFloat64`, are not modelled, because floating-point arithmetic is out of scope.
- TypeConversions.ToInt32, TypeConversions.ToInt and TypeConversions.ToInt64 require a non-float input.
- `strconv.ParseInt` and `strconv.ParseBool` are function parameters.
- `fmt.Sprintf` is modelled only for string arguments and the verbs `%s`, `%v` and `%%`. Extra and missing arguments follow Go's `%!(EXTRA …)` and `%!s(MISSING)` forms.
- Reflection in `structToMap.go` is replaced by field records: each field brings its nested conversion, Stringer text and zero test. These parts are not modelled:
  - `nested`, `makeSlice`, `isArray`, `isArrayOfStruct`, `isStruct` and `getStructVal`;
  - `ToArray` and `ToArrayWithTag`;
  - the `MapConverter` dispatch;
  - `ToMap` and `ToMapWithTag`.
- `MapToStruct`, `MapToStructEx` and `GenericMapToStruct` go through JSON encoding into a struct, which is not modelled. Only the key conversion they rely on is. `base64Encode.go` is not part of this model.
- `FindMethod` is replaced by each item's map of the methods a lookup finds; a method's result is given, not computed.
- Validation.CallMethodWithItem: a method that needs arguments or returns nothing would panic in `Call(...)[0]`. The model does not capture this; a found method always yields a result.
- Errors.Error.WithInner: the inner error is held as a value snapshot, so aliasing between `Error` objects is not modelled.
- Typed-nil `*Error` values stored in an `error` interface are not modelled.
- ApiErrors.ConversionFailedInstance: states the ID, kind and status but not the message text.
- The rest of the model uses the corrected `isNilFixed` (Validation.IsNilFixed): the validators are modelled as they would behave on arrays once the finding below is fixed.

## Findings

| source | as written | input that shows it | evidently intended | confidence | as-written member | corrected member |
|---|---|---|---|---|---|---|
| data/validation.go:32 | `isNilFixed` sends `reflect.Array` to `reflect.Value.IsNil`, which panics for arrays | `Validate([2]int{})`, or any other array value | an array value is never nil, so the answer should be false | not executed | Validation.IsNilFixedAsWritten | Validation.IsNilFixed |
