/**
 The verdict for each kind of leaf failure, bare and under any number of
 message-only wrappers.
 */
module Classification {
  import opened GoErrors
  import opened Errs
  import opened Layers

  /** nil is never temporary. */
  lemma {:induction false} NilNotTemporary(ls: seq<Layer>)
    requires AllMessageOnly(ls)
    ensures !Temporary(Apply(Nil, ls))
  {
    WrapsPreserveVerdict(Nil, ls);
  }

  /** A plain error carries no marker, so it is not temporary however it is wrapped. */
  lemma {:induction false} PlainNotTemporary(m: MsgId, ls: seq<Layer>)
    requires AllMessageOnly(ls)
    ensures !Temporary(Apply(Plain(m), ls))
  {
    WrapsPreserveVerdict(Plain(m), ls);
  }

  /** A native `Temporary()` signal is the verdict, whether true or false. */
  lemma {:induction false} NativeSignalIsVerdict(
    embedded: Error, signal: bool, ls: seq<Layer>)
    requires AllMessageOnly(ls)
    ensures Temporary(Apply(SelfReporting(embedded, signal), ls)) == signal
  {
    WrapsPreserveVerdict(SelfReporting(embedded, signal), ls);
  }

  /** Canceled and deadline-exceeded, from either context package, are temporary. */
  lemma {:induction false} ContextSentinelsTemporary(
    pkg: ContextPkg, sentinel: Sentinel, ls: seq<Layer>)
    requires AllMessageOnly(ls)
    ensures Temporary(Apply(ContextErr(pkg, sentinel), ls))
  {
    WrapsPreserveVerdict(ContextErr(pkg, sentinel), ls);
  }

  /** An errno is temporary exactly when it is in the transient table (EIO, EAGAIN). */
  lemma {:induction false} ErrnoVerdict(code: nat, ls: seq<Layer>)
    requires AllMessageOnly(ls)
    ensures Temporary(Apply(Errno(code), ls)) <==> code == EIO || code == EAGAIN
  {
    WrapsPreserveVerdict(Errno(code), ls);
  }

  /** A remote-API error is temporary exactly for status 429 and every status from 500 up. */
  lemma {:induction false} ApiErrorVerdict(code: int, ls: seq<Layer>)
    requires AllMessageOnly(ls)
    ensures Temporary(Apply(ApiError(code), ls)) <==> code == 429 || code >= 500
  {
    WrapsPreserveVerdict(ApiError(code), ls);
  }

  /** `MakeTemporary` makes any error temporary, even one that is permanently marked. */
  lemma {:induction false} MakeTemporaryDominates(e: Error, ls: seq<Layer>)
    requires AllMessageOnly(ls)
    ensures Temporary(Apply(MakeTemporary(e), ls))
  {
    WrapsPreserveVerdict(MakeTemporary(e), ls);
  }

  /** What an override wraps never reaches the verdict, however the override is wrapped. */
  lemma {:induction false} OverrideHidesInner(
    temporary: bool, x: Error, y: Error, ls: seq<Layer>)
    requires AllMessageOnly(ls)
    ensures Temporary(Apply(Override(temporary, x), ls))
         == Temporary(Apply(Override(temporary, y), ls))
  {
    WrapsPreserveVerdict(Override(temporary, x), ls);
    WrapsPreserveVerdict(Override(temporary, y), ls);
  }

  /** The error a self-reporting node embeds never reaches the verdict. */
  lemma {:induction false} NativeSignalHidesEmbedded(
    x: Error, y: Error, signal: bool, ls: seq<Layer>)
    requires AllMessageOnly(ls)
    ensures Temporary(Apply(SelfReporting(x, signal), ls))
         == Temporary(Apply(SelfReporting(y, signal), ls))
  {
    WrapsPreserveVerdict(SelfReporting(x, signal), ls);
    WrapsPreserveVerdict(SelfReporting(y, signal), ls);
  }

  /** `MakePermanent` makes any error permanent, even one that would classify as temporary. */
  lemma {:induction false} MakePermanentDominates(e: Error, ls: seq<Layer>)
    requires AllMessageOnly(ls)
    ensures !Temporary(Apply(MakePermanent(e), ls))
  {
    WrapsPreserveVerdict(MakePermanent(e), ls);
  }
}
