/**
 Go error values as the classifier sees them: immutable nodes linked into a
 finite chain, with the two wrapping conventions that coexist in Go code —
 the standard `Unwrap() error` relation (used by `fmt.Errorf("%w")`) and the
 `Cause() error` accessor of github.com/pkg/errors.
 */
module GoErrors {

  datatype Option<+T> = None | Some(value: T)

  /** A message is opaque: only its identity matters, for root-cause checks. */
  type MsgId = nat

  /** The two cancellation-context packages: `context` and `golang.org/x/net/context`. */
  datatype ContextPkg = StdContext | XNetContext

  /** The two conditions a context reports through `ctx.Err()`. */
  datatype Sentinel = Canceled | DeadlineExceeded

  datatype Error =
    | Nil                                        // the nil error interface value
    | Plain(msg: MsgId)                          // errors.New, fmt.Errorf without %w
    | PkgWrapped(msg: MsgId, inner: Error)       // errors.Wrap: exposes Cause() and Unwrap()
    | FmtWrapped(msg: MsgId, inner: Error)       // fmt.Errorf("...%w", inner): exposes Unwrap() only
    | Override(temporary: bool, inner: Error)    // errs.MakeTemporary / errs.MakePermanent
    | SelfReporting(embedded: Error, signal: bool) // a type with a native `Temporary() bool`
    | ContextErr(pkg: ContextPkg, sentinel: Sentinel)
    | Errno(errno: nat)                          // syscall.Errno
    | ApiError(code: int)                        // googleapi.Error with its HTTP status code

  /** Number of nodes reachable by construction; the measure for every chain walk. */
  function Size(e: Error): nat
  {
    match e
    case Nil => 0
    case PkgWrapped(_, inner) => 1 + Size(inner)
    case FmtWrapped(_, inner) => 1 + Size(inner)
    case Override(_, inner) => 1 + Size(inner)
    case SelfReporting(embedded, _) => 1 + Size(embedded)
    case _ => 1
  }

  /** The `Unwrap() error` relation: None when the node has no such method. */
  function Unwrap(e: Error): (r: Option<Error>)
    ensures r.Some? ==> Size(r.value) < Size(e)
    ensures r.Some? <==> e.PkgWrapped? || e.FmtWrapped? || e.Override?
  {
    match e
    case PkgWrapped(_, inner) => Some(inner)
    case FmtWrapped(_, inner) => Some(inner)
    case Override(_, inner) => Some(inner)
    case _ => None
  }

  /** The `Cause() error` accessor of pkg/errors: None when the node has no such method. */
  function CauseOf(e: Error): (r: Option<Error>)
    ensures r.Some? ==> Size(r.value) < Size(e)
    ensures r.Some? ==> Unwrap(e) == r
  {
    match e
    case PkgWrapped(_, inner) => Some(inner)
    case Override(_, inner) => Some(inner)
    case _ => None
  }

  /** `r` is reached from `e` by following zero or more `Cause()` accessors. */
  ghost predicate CauseReaches(e: Error, r: Error)
    decreases Size(e)
  {
    e == r || (CauseOf(e).Some? && CauseReaches(CauseOf(e).value, r))
  }

  /** pkg/errors `Cause`: follows `Cause()` accessors until a node without one (or nil). */
  function Cause(e: Error): (r: Error)
    ensures CauseOf(e).None? ==> r == e
    ensures CauseReaches(e, r) && CauseOf(r).None?
    decreases Size(e)
  {
    match CauseOf(e)
    case None => e
    case Some(c) => Cause(c)
  }

  /**
   pkg/errors `Wrap(err, msg)`: nil stays nil. Otherwise pkg/errors builds two
   message-only nodes (a `withStack` over a `withMessage`), each with `Cause()`
   and `Unwrap()`; they are collapsed into one `PkgWrapped` node that exposes
   `err` through both relations.
   */
  function Wrap(e: Error, msg: MsgId): (r: Error)
    ensures e.Nil? ==> r.Nil?
    ensures !e.Nil? ==> Unwrap(r) == Some(e) && CauseOf(r) == Some(e)
  {
    if e.Nil? then Nil else PkgWrapped(msg, e)
  }

  /**
   `fmt.Errorf("... %w", e)`: a `*fmt.wrapError` whose `Unwrap()` returns `e`.
   A nil operand is recorded too, so the wrapper's `Unwrap()` then returns nil.
   */
  function WrapFmt(e: Error, msg: MsgId): (r: Error)
    ensures !r.Nil?
    ensures CauseOf(r).None?
    ensures Unwrap(r) == Some(e)
  {
    FmtWrapped(msg, e)
  }

  /**
   The contract of `Cause` pins it down: the only error reachable through
   `Cause()` accessors that has no `Cause()` of its own is the one `Cause` returns.
   */
  lemma {:induction false} CauseIsUniqueRoot(e: Error, r: Error)
    requires CauseReaches(e, r) && CauseOf(r).None?
    ensures Cause(e) == r
    decreases Size(e)
  {
    if e != r {
      CauseIsUniqueRoot(CauseOf(e).value, r);
    }
  }

  /** The root `Cause` reaches is a fixed point of `Cause`. */
  lemma CauseIdempotent(e: Error)
    ensures Cause(Cause(e)) == Cause(e)
  {
  }

  /** `Cause` skips a pkg/errors wrapper. */
  lemma CauseThroughWrap(e: Error, msg: MsgId)
    ensures Cause(Wrap(e, msg)) == Cause(e)
  {
  }

  /** `Cause` does not see through a `%w` wrapper: the wrapper itself is the cause. */
  lemma FmtWrapHidesCause(e: Error, msg: MsgId)
    ensures Cause(WrapFmt(e, msg)) == WrapFmt(e, msg) != e
  {
  }
}
