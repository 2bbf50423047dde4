/**
  The failure dispatcher. In the source a package variable `fail` receives
  the context and a message; here it is an injected log that records each
  call, as the hit-counting dispatchers of the tests do.
 */
module Failures {
  import opened Values
  import opened Context

  /** Which default message an assertion sent to `fail`, with the numbers `Len` prints. */
  datatype Reason =
    | ExpectedEqual
    | ExpectedNotEqual
    | ExpectedOneOf
    | ExpectedNotOneOf
    | ExpectedError
    | ExpectedNoError
    | ExpectedNil
    | ExpectedNotNil
    | ExpectedTrue
    | ExpectedFalse
    | ExpectedZero
    | ExpectedNotZero
    | NotCountable(want: int)
    | WrongLength(want: int, got: nat)
    | ExpectedSameType

  /** One call of `fail`: the context it was given and the reason. */
  datatype Failure = Failure(ctx: Is, reason: Reason)

  /** What an assertion hands to `fail`: nothing, or one failure. */
  function Report(ctx: Is, verdict: Option<Reason>): (fs: seq<Failure>)
    ensures |fs| <= 1
    ensures verdict.None? <==> fs == []
    ensures verdict.Some? ==> fs[0].ctx == ctx && fs[0].reason == verdict.value
  {
    match verdict
    case None => []
    case Some(reason) => [Failure(ctx, reason)]
  }

  class FailureLog {
    /** Every failure reported so far, oldest first. */
    var failures: seq<Failure>

    constructor ()
      ensures failures == []
    {
      failures := [];
    }

    /** The number of calls of `fail`, the tests' `hit` counter. */
    function Hits(): nat
      reads this
    {
      |failures|
    }

    /** True if some failure was reported through a strict context, which aborts the test. */
    predicate Aborts()
      reads this
    {
      exists i :: 0 <= i < |failures| && failures[i].ctx.strict
    }

    /** `fail(ctx, ...)`: record one failure. */
    method Fail(ctx: Is, reason: Reason)
      modifies this
      ensures failures == old(failures) + [Failure(ctx, reason)]
      ensures Hits() == old(Hits()) + 1
      ensures Aborts() <==> old(Aborts()) || ctx.strict
    {
      ghost var before := failures;
      failures := failures + [Failure(ctx, reason)];
      assert forall i :: 0 <= i < |before| ==> failures[i] == before[i];
      assert failures[|before|].ctx == ctx;
    }
  }
}
