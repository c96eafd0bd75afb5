/**
 The scenarios of the package's test file, each stated for every choice of
 messages rather than for the fixed strings the tests use. `checkCause` is
 the claim that `Cause` returns the initial error.
 */
module ErrsTests {
  import opened GoErrors
  import opened Errs

  /** TestTempErr: plain, pkg-wrapped and annotated errors, their verdicts and their causes. */
  lemma TestTempErr(initial: MsgId, w1: MsgId, w2: MsgId, w3: MsgId)
    ensures var err := Plain(initial);
            !Temporary(err) && Cause(err) == err
    ensures var err := Plain(initial);
            var pkgWrapped := Wrap(err, w1);
            !Temporary(pkgWrapped) && Cause(pkgWrapped) == err
    ensures var err := Plain(initial);
            var temp := MakeTemporary(err);
            Temporary(temp) && Cause(temp) == err
    ensures var err := Plain(initial);
            var pkgWrappedTemp := Wrap(MakeTemporary(err), w2);
            Temporary(pkgWrappedTemp) && Cause(pkgWrappedTemp) == err
    ensures var err := Plain(initial);
            var perm := MakePermanent(err);
            !Temporary(perm) && Cause(perm) == err
    ensures var err := Plain(initial);
            var permTemp := MakePermanent(MakeTemporary(err));
            !Temporary(permTemp) && Cause(permTemp) == err
    ensures var err := Plain(initial);
            var permWrappedTemp := MakePermanent(Wrap(MakeTemporary(err), w2));
            !Temporary(permWrappedTemp) && Cause(permWrappedTemp) == err
    ensures var err := Plain(initial);
            var wrappedPermTemp := Wrap(MakePermanent(MakeTemporary(err)), w3);
            !Temporary(wrappedPermTemp) && Cause(wrappedPermTemp) == err
    ensures !Temporary(Nil)
  {
  }

  /**
   TestTemporary: a self-reporting error's flag is the verdict, bare and under a
   `%w` wrap, for both flag values; the standard context's sentinels are temporary.
   Converting the struct to an `error` copies it, so each conversion is its
   own immutable node and a later change to the flag is not seen by it.
   */
  lemma TestTemporary(msg: MsgId, w: MsgId)
    ensures var err := SelfReporting(Plain(msg), true);
            Temporary(err) && Temporary(WrapFmt(err, w))
    ensures var err := SelfReporting(Plain(msg), false);
            !Temporary(err) && !Temporary(WrapFmt(err, w))
    ensures Temporary(ContextErr(StdContext, DeadlineExceeded))
    ensures Temporary(ContextErr(StdContext, Canceled))
  {
  }

  /** TestOldContext: the x/net/context sentinels are temporary, bare and `%w`-wrapped. */
  lemma TestOldContext(w: MsgId)
    ensures var cerr := ContextErr(XNetContext, DeadlineExceeded);
            Temporary(cerr) && Temporary(WrapFmt(cerr, w))
    ensures var cerr := ContextErr(XNetContext, Canceled);
            Temporary(cerr) && Temporary(WrapFmt(cerr, w))
  {
  }

  /** TestErrno: EIO and EAGAIN are temporary, bare and `%w`-wrapped. */
  lemma TestErrno(w: MsgId)
    ensures Temporary(Errno(EIO)) && Temporary(WrapFmt(Errno(EIO), w))
    ensures Temporary(Errno(EAGAIN)) && Temporary(WrapFmt(Errno(EAGAIN), w))
  {
  }

  /** TestGoogleApiError: status 400 is permanent, 429 and 500 are temporary. */
  lemma TestGoogleApiError()
    ensures !Temporary(ApiError(400))
    ensures Temporary(ApiError(429))
    ensures Temporary(ApiError(500))
  {
  }
}
