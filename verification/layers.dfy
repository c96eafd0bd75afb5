/**
 Stacks of layers put on an error after it is raised: the two annotators and
 the two message-only wrappers. These state, for every depth of wrapping, what
 the tests check at depth one or two.
 */
module Layers {
  import opened GoErrors
  import opened Errs

  datatype Layer =
    | MarkTemporary         // errs.MakeTemporary
    | MarkPermanent         // errs.MakePermanent
    | PkgWrap(msg: MsgId)   // errors.Wrap
    | FmtWrap(msg: MsgId)   // fmt.Errorf("... %w")

  /** A wrapper that adds a message and nothing else. */
  predicate MessageOnly(l: Layer)
  {
    l.PkgWrap? || l.FmtWrap?
  }

  /** A layer that keeps the error reachable through `Cause()`. */
  predicate ExposesCause(l: Layer)
  {
    !l.FmtWrap?
  }

  /** Every layer is a message-only wrapper. */
  predicate AllMessageOnly(ls: seq<Layer>)
  {
    forall i :: 0 <= i < |ls| ==> MessageOnly(ls[i])
  }

  /** Every layer keeps the error reachable through `Cause()`. */
  predicate AllExposeCause(ls: seq<Layer>)
  {
    forall i :: 0 <= i < |ls| ==> ExposesCause(ls[i])
  }

  function ApplyLayer(e: Error, l: Layer): Error
  {
    match l
    case MarkTemporary => MakeTemporary(e)
    case MarkPermanent => MakePermanent(e)
    case PkgWrap(m) => Wrap(e, m)
    case FmtWrap(m) => WrapFmt(e, m)
  }

  /** Puts the layers on `e` in order: `ls[0]` innermost, the last layer outermost. */
  function Apply(e: Error, ls: seq<Layer>): Error
  {
    if ls == [] then e else ApplyLayer(Apply(e, ls[..|ls| - 1]), ls[|ls| - 1])
  }

  /** One message-only wrapper never changes the verdict. */
  lemma MessageOnlyPreservesVerdict(e: Error, l: Layer)
    requires MessageOnly(l)
    ensures Temporary(ApplyLayer(e, l)) == Temporary(e)
  {
  }

  /** Any number of message-only wrappers leave the verdict as it was. */
  lemma {:induction false} WrapsPreserveVerdict(e: Error, ls: seq<Layer>)
    requires AllMessageOnly(ls)
    ensures Temporary(Apply(e, ls)) == Temporary(e)
    decreases |ls|
  {
    if ls != [] {
      var init := ls[..|ls| - 1];
      WrapsPreserveVerdict(e, init);
      MessageOnlyPreservesVerdict(Apply(e, init), ls[|ls| - 1]);
    }
  }

  /**
   The outermost annotation decides: whatever lies beneath it, and however many
   message-only wrappers are put on top of it.
   */
  lemma {:induction false} OutermostAnnotationWins(e: Error, ls: seq<Layer>, i: int)
    requires 0 <= i < |ls| && !MessageOnly(ls[i])
    requires forall j :: i < j < |ls| ==> MessageOnly(ls[j])
    ensures Temporary(Apply(e, ls)) == ls[i].MarkTemporary?
    decreases |ls|
  {
    var init := ls[..|ls| - 1];
    if i == |ls| - 1 {
      assert Apply(e, ls) == ApplyLayer(Apply(e, init), ls[i]);
    } else {
      OutermostAnnotationWins(e, init, i);
      MessageOnlyPreservesVerdict(Apply(e, init), ls[|ls| - 1]);
    }
  }

  /** Annotating and pkg/errors-wrapping in any order keep the root cause. */
  lemma {:induction false} AnnotationsPreserveCause(e: Error, ls: seq<Layer>)
    requires AllExposeCause(ls)
    ensures Cause(Apply(e, ls)) == Cause(e)
    decreases |ls|
  {
    if ls != [] {
      var init := ls[..|ls| - 1];
      AnnotationsPreserveCause(e, init);
      if ls[|ls| - 1].PkgWrap? {
        CauseThroughWrap(Apply(e, init), ls[|ls| - 1].msg);
      }
    }
  }

  /**
   What `checkCause` checks, for every stack: an initial plain error stays the
   root cause through any mix of annotations and pkg/errors wrappers.
   */
  lemma {:induction false} InitialErrorIsCause(m: MsgId, ls: seq<Layer>)
    requires AllExposeCause(ls)
    ensures Cause(Apply(Plain(m), ls)) == Plain(m)
  {
    AnnotationsPreserveCause(Plain(m), ls);
  }

  /** `n` copies of one layer. */
  function Repeat(l: Layer, n: nat): (ls: seq<Layer>)
    ensures |ls| == n && forall i :: 0 <= i < n ==> ls[i] == l
  {
    seq(n, _ => l)
  }

  /** For any wrap depth `n`, an override beneath `n` message-only wrappers keeps its verdict. */
  lemma OverrideWinsAtAnyDepth(e: Error, mark: Layer, wrapper: Layer, n: nat)
    requires !MessageOnly(mark) && MessageOnly(wrapper)
    ensures Temporary(Apply(e, [mark] + Repeat(wrapper, n))) == mark.MarkTemporary?
  {
    OutermostAnnotationWins(e, [mark] + Repeat(wrapper, n), 0);
  }
}
