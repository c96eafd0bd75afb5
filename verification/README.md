# errs: temporary/permanent classification of Go errors

A Dafny model of the `errs` Go package: the classifier `errs.Temporary(err)` and the two
annotators `errs.MakeTemporary(err)` and `errs.MakePermanent(err)`. The model follows the
behaviour the package's test file asserts, and it states that behaviour for every input.
The package's production file, `errs.go`, is not part of this model.

An error is an immutable chain of nodes (`GoErrors.Error`). The node kinds are:

- `Nil`, the nil error.
- `Plain`, from `errors.New` or an `fmt.Errorf` without `%w`.
- `PkgWrapped`, from `errors.Wrap` in pkg/errors. It exposes both `Cause()` and `Unwrap()`. pkg/errors builds two nodes here; the model uses one (see "## Left out").
- `FmtWrapped`, from `fmt.Errorf("... %w")`. It exposes `Unwrap()` only.
- `Override`, from the annotators. It holds a fixed verdict and exposes the wrapped error both ways.
- `SelfReporting`, a type with a native `Temporary() bool`, such as the test's `temperr`.
- `ContextErr`, the canceled and deadline-exceeded sentinels of `context` and of `golang.org/x/net/context`.
- `Errno`, a `syscall.Errno`.
- `ApiError`, a `googleapi.Error` with an integer status code.

Messages are opaque identifiers (`MsgId`). They matter only for root-cause identity.

`Errs.Temporary` walks the chain from the outside in. At each node, `Errs.Marker` applies five checks in a fixed order:

1. an override's verdict;
2. the native signal;
3. any context sentinel, which is temporary;
4. EIO (5) or EAGAIN (11), which are temporary;
5. a status code, which is temporary for 429 and for codes of 500 and above, and permanent for every other code.

When no check applies, `Errs.Next` moves inward. It takes `Unwrap()` when that yields a node, else `Cause()`, else nil. A walk that reaches nil answers `false`.

`ChainSpec` gives an independent declarative account of the same procedure: the verdict is the marker of the first marked node in the chain, or `false` when no node is marked. It proves that `Temporary` agrees with this account in both directions. `Layers` states the wrapping properties for stacks of annotations and wrappers of any depth.

`GoErrors.Cause` models pkg/errors `Cause`: it follows `Cause()` accessors only. It therefore passes through `errors.Wrap` and the annotators, but it stops at a `%w` wrapper (`GoErrors.FmtWrapHidesCause`). The tests never apply `checkCause` to a `%w`-wrapped error. `errors.Wrap(nil, msg)` is nil. `fmt.Errorf` with a nil `%w` operand still yields a `%w` wrapper, whose `Unwrap()` returns nil; this is the behaviour since Go 1.20.

## Model

| member | source | states |
|---|---|---|
| GoErrors.Unwrap | errs_test.go:92-103 | exactly `errors.Wrap`, `%w` and override nodes have an `Unwrap()` target, and it is a strictly smaller error; a `temperr`-style node has none |
| GoErrors.CauseOf | errs_test.go:31-60 | a node with a `Cause()` accessor also has `Unwrap()` and both give the same error, which is strictly smaller |
| GoErrors.Cause | errs_test.go:31-36 | an error without `Cause()` is its own cause; otherwise the result is reached from the input by following `Cause()` accessors and has no `Cause()` of its own |
| GoErrors.CauseIsUniqueRoot | errs_test.go:31-36 | the error reachable through `Cause()` accessors that has no `Cause()` itself is exactly what `Cause` returns |
| GoErrors.CauseIdempotent | errs_test.go:31-36 | the root cause is its own root cause |
| GoErrors.Wrap | errs_test.go:44-48 | `errors.Wrap` keeps nil as nil and exposes the wrapped error through both `Unwrap()` and `Cause()` |
| GoErrors.CauseThroughWrap | errs_test.go:44-48 | wrapping with `errors.Wrap` does not change the root cause |
| GoErrors.WrapFmt | errs_test.go:101-103 | the test's `wrap` helper yields a non-nil error whose `Unwrap()` is the wrapped error (nil included) and which has no `Cause()` |
| GoErrors.FmtWrapHidesCause | errs_test.go:101-103 | the root cause of a `%w` wrapper is the wrapper itself, not the wrapped error |
| Errs.Marker | errs_test.go:37-196 | plain errors and message-only wrappers carry no verdict; an errno carries one exactly when it is in the transient table; a permanent verdict comes only from a permanent override, a false native signal or a non-retryable status code |
| Errs.Temporary | errs_test.go:37-196 | nil is never temporary and a node's own marker decides before anything it wraps; its full specification is `ChainSpec.TemporaryIffFirstMarkerTemporary` together with the `Classification` lemmas |
| Errs.Next | errs_test.go:56-60 | the walk moves to the `Unwrap()` target when there is one, ends at nodes with neither relation, and always moves to a strictly smaller error |
| Errs.MakeTemporary | errs_test.go:50-60 | the annotated error is temporary, wraps the given error through both relations, and keeps its root cause |
| Errs.MakePermanent | errs_test.go:62-84 | the annotated error is not temporary whatever it wraps, wraps the given error through both relations, and keeps its root cause |
| ChainSpec.FirstMarkerDecides | errs_test.go:62-84 | the verdict is the marker of the first marked node in the walked chain |
| ChainSpec.UnmarkedIsPermanent | errs_test.go:37-48 | a chain in which no node carries a marker is not temporary |
| ChainSpec.TemporaryIffFirstMarkerTemporary | errs_test.go:37-196 | `Temporary` holds if and only if the first marked node in the chain is marked temporary |
| ChainSpec.InnerNodesIrrelevant | errs_test.go:68-84 | two errors whose chains carry the same markers up to and including the deciding node get the same verdict, however their nodes and everything further in differ |
| Layers.MessageOnlyPreservesVerdict | errs_test.go:44-60 | one `errors.Wrap` or `%w` wrapper leaves the verdict unchanged |
| Layers.WrapsPreserveVerdict | errs_test.go:44-60 | any number of message-only wrappers leave the verdict unchanged |
| Layers.OutermostAnnotationWins | errs_test.go:62-84 | in any stack of layers, the outermost annotation decides the verdict whatever lies beneath it, as long as only message-only wrappers lie above it |
| Layers.AnnotationsPreserveCause | errs_test.go:31-84 | any stack of `MakeTemporary`, `MakePermanent` and `errors.Wrap` layers keeps the root cause of the initial error |
| Layers.InitialErrorIsCause | errs_test.go:31-84 | for every stack of `MakeTemporary`, `MakePermanent` and `errors.Wrap` layers over a plain initial error, `Cause` returns that initial error |
| Layers.OverrideWinsAtAnyDepth | errs_test.go:50-84 | for every wrap depth n, an annotation under n message-only wrappers keeps its verdict |
| Classification.NilNotTemporary | errs_test.go:86-88 | nil is not temporary, and neither is any message-only wrapping of nil |
| Classification.PlainNotTemporary | errs_test.go:37-48 | a plain error is not temporary, bare or under any message-only wrappers |
| Classification.NativeSignalIsVerdict | errs_test.go:92-125 | a native `Temporary()` signal is the verdict, true or false, bare or under any message-only wrappers |
| Classification.ContextSentinelsTemporary | errs_test.go:126-160 | canceled and deadline-exceeded from either context package are temporary, bare or wrapped |
| Classification.ErrnoVerdict | errs_test.go:166-181 | an errno is temporary, bare or wrapped, exactly when it is EIO or EAGAIN |
| Classification.ApiErrorVerdict | errs_test.go:183-196 | a status-bearing error is temporary, bare or wrapped, exactly when its code is 429 or at least 500 |
| Classification.MakeTemporaryDominates | errs_test.go:50-60 | a temporary-annotated error is temporary under any message-only wrappers, whatever it wraps |
| Classification.OverrideHidesInner | errs_test.go:68-84 | two overrides with the same verdict classify alike under any message-only wrappers, whatever errors they wrap |
| Classification.NativeSignalHidesEmbedded | errs_test.go:92-125 | two self-reporting nodes with the same signal classify alike under any message-only wrappers, whatever errors they embed |
| Classification.MakePermanentDominates | errs_test.go:62-84 | a permanent-annotated error is permanent under any message-only wrappers, even over a temporary inner error |
| ErrsTests.TestTempErr | errs_test.go:37-90 | each verdict and root cause that TestTempErr asserts, for every choice of messages |
| ErrsTests.TestTemporary | errs_test.go:115-142 | a self-reporting flag is the verdict, bare and `%w`-wrapped, for both values; both standard context sentinels are temporary |
| ErrsTests.TestOldContext | errs_test.go:143-160 | both x/net/context sentinels are temporary, bare and `%w`-wrapped |
| ErrsTests.TestErrno | errs_test.go:166-181 | EIO and EAGAIN are temporary, bare and `%w`-wrapped |
| ErrsTests.TestGoogleApiError | errs_test.go:183-196 | status 400 is not temporary; statuses 429 and 500 are temporary |

## Left out

- `GoErrors.Wrap` models the two nodes pkg/errors builds (`withStack` over `withMessage`) as one `PkgWrapped` node. Both nodes are message-only and both expose `Cause()`, so no verdict or root cause changes. A single `Unwrap()` step from the result reaches the wrapped error here, whereas in pkg/errors it reaches the inner `withMessage` node.

- Goroutines, timers and waiting on `ctx.Done()` in `cancelTest` and `oldCancelTest` are left out. They are concurrency and timing, so only the resulting sentinel values are modelled.
- `TestDialTimeout` is left out. It does real network I/O and the test skips itself.
- Message formatting and string contents are left out. A message is an opaque identifier, and `checkCause`'s string comparison becomes equality with the initial error node.
- The native `Temporary()` method of `syscall.Errno` is left out, and so are networking-library `Temporary()` semantics. An `Errno` node carries no native signal.
- Errno codes other than EIO and EAGAIN are left out, because no other code is evidenced. `Classification.ErrnoVerdict` calls every other code non-temporary only with respect to this two-entry table. The numeric values are the Linux ones.
- The `Unwrap()` of newer `googleapi.Error` versions is left out. A status-bearing error decides the verdict in every case, so nothing inside it is ever consulted.
- The `x/net/context` sentinels are kept distinct from the standard ones. In recent Go versions they are aliases, but classification is the same either way.
- Sentinels are recognised by node kind, not by Go interface identity or `errors.Is` equivalence.
- `temperr.t` is not modelled as mutable state. `err.t = false` changes the local variable in place, but each conversion of `err` to an `error` (passing it to `wrap` or to `errs.Temporary`) copies the struct. So every error value the classifier sees holds its own immutable node.
- No modelled node exposes `Cause()` without `Unwrap()`. The `Cause()` fallback in `Errs.Next` is therefore stated but never changes a verdict.
