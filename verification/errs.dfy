/**
 The `errs` package: the annotators `MakeTemporary` / `MakePermanent` and the
 classifier `Temporary`, which walks an error chain from the outside in and
 stops at the first node that carries a verdict.
 */
module Errs {
  import opened GoErrors

  /** syscall.EIO and syscall.EAGAIN (Linux numbering). */
  const EIO: nat := 5
  const EAGAIN: nat := 11

  /** The errno codes this package treats as transient. */
  predicate TransientErrno(code: nat)
  {
    code == EIO || code == EAGAIN
  }

  /** The remote-API policy: too-many-requests and every server-side status are retryable. */
  predicate TemporaryStatus(code: int)
  {
    code == 429 || code >= 500
  }

  // The five per-node checks, in the order the classifier applies them.

  /** Step 1: an explicit override carries its own verdict. */
  function OverrideVerdict(e: Error): (v: Option<bool>)
    ensures v.Some? <==> e.Override?
  {
    if e.Override? then Some(e.temporary) else None
  }

  /** Step 2: a node with a native `Temporary() bool` reports that signal. */
  function NativeSignal(e: Error): (v: Option<bool>)
    ensures v.Some? <==> e.SelfReporting?
  {
    if e.SelfReporting? then Some(e.signal) else None
  }

  /** Step 3: the four cancellation sentinels of the two context packages. */
  predicate IsContextSentinel(e: Error)
  {
    e.ContextErr?
  }

  /** Step 4: an errno in the transient table; any other errno does not match. */
  predicate IsTransientErrno(e: Error)
  {
    e.Errno? && TransientErrno(e.errno)
  }

  /** Step 5: a status-bearing error always decides, one way or the other. */
  function StatusVerdict(e: Error): (v: Option<bool>)
    ensures v.Some? <==> e.ApiError?
  {
    if e.ApiError? then Some(TemporaryStatus(e.code)) else None
  }

  /** The verdict a single node carries, or None when the walk must go on. */
  function Marker(e: Error): (m: Option<bool>)
    ensures e.Nil? || e.Plain? || e.PkgWrapped? || e.FmtWrapped? ==> m.None?
    ensures e.Errno? ==> (m.Some? <==> TransientErrno(e.errno))
    ensures m == Some(false) ==>
              (e.Override? && !e.temporary) || (e.SelfReporting? && !e.signal)
              || (e.ApiError? && !TemporaryStatus(e.code))
  {
    if OverrideVerdict(e).Some? then OverrideVerdict(e)
    else if NativeSignal(e).Some? then NativeSignal(e)
    else if IsContextSentinel(e) then Some(true)
    else if IsTransientErrno(e) then Some(true)
    else StatusVerdict(e)
  }

  /** Step 6: the next node inward — `Unwrap()` when it yields one, else `Cause()`, else nil. */
  function Next(e: Error): (n: Error)
    ensures !e.Nil? ==> Size(n) < Size(e)
    ensures Unwrap(e).Some? && !Unwrap(e).value.Nil? ==> n == Unwrap(e).value
    ensures Unwrap(e).None? && CauseOf(e).None? ==> n.Nil?
  {
    if Unwrap(e).Some? && !Unwrap(e).value.Nil? then Unwrap(e).value
    else if CauseOf(e).Some? then CauseOf(e).value
    else Nil
  }

  /**
   `errs.Temporary(err)`: whether the failure is worth retrying. A node's own
   marker decides before anything it wraps; nil is never temporary. The full
   account is `ChainSpec.TemporaryIffFirstMarkerTemporary`.
   */
  function Temporary(e: Error): (r: bool)
    ensures Marker(e).Some? ==> r == Marker(e).value
    ensures r ==> !e.Nil?
    decreases Size(e)
  {
    if e.Nil? then false
    else
      match Marker(e)
      case Some(v) => v
      case None => Temporary(Next(e))
  }

  /** `errs.MakeTemporary(err)`: pins a temporary verdict, keeping `err` as cause and unwrap target. */
  function MakeTemporary(e: Error): (r: Error)
    ensures Temporary(r)
    ensures Unwrap(r) == Some(e) && CauseOf(r) == Some(e)
    ensures Cause(r) == Cause(e)
  {
    Override(true, e)
  }

  /** `errs.MakePermanent(err)`: pins a permanent verdict, whatever `err` would say. */
  function MakePermanent(e: Error): (r: Error)
    ensures !Temporary(r)
    ensures Unwrap(r) == Some(e) && CauseOf(r) == Some(e)
    ensures Cause(r) == Cause(e)
  {
    Override(false, e)
  }
}
