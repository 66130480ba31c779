/**
 * Error values as the modelled Go code builds them, and the two library
 * operations on errors it relies on: wrapping with a message (ctxerr.Wrap,
 * fmt.Errorf with %w) and joining several failures into one aggregate.
 * `Is` is errors.Is: it follows every wrapped cause.
 */
module Errors {
  import opened Wrappers

  datatype Error =
    | Opaque(id: nat)                                        // an error value produced by a collaborator
    | Wrapped(msg: string, cause: Error)                     // ctxerr.Wrap(ctx, cause, msg) / fmt.Errorf("msg: %w", cause)
    | QueryStatus(code: int, message: string)                // "non-zero query status" from the precondition check
    | Delivery(failedUUIDs: seq<string>, err: Option<Error>) // APNSDeliveryError
    | Joined(errs: seq<Error>)                               // aggregate of independent failures

  /** errors.Is: `target` is `e` or is found by unwrapping `e`. */
  predicate Is(e: Error, target: Error)
    decreases e
  {
    e == target ||
    match e
    case Wrapped(_, cause) => Is(cause, target)
    case Delivery(_, Some(cause)) => Is(cause, target)
    case Joined(errs) => exists i :: 0 <= i < |errs| && Is(errs[i], target)
    case _ => false
  }

  /** ctxerr.Wrap: annotates a non-nil error with a message; a nil error stays nil. */
  function Wrap(e: Option<Error>, msg: string): (r: Option<Error>)
    ensures r.None? <==> e.None?
    ensures e.Some? ==> r.value.Wrapped? && r.value.msg == msg && r.value.cause == e.value && Is(r.value, e.value)
  {
    match e
    case None => None
    case Some(cause) => Some(Wrapped(msg, cause))
  }

  /** Wraps with every message of `msgs`, the first one outermost. */
  function WrapAll(e: Option<Error>, msgs: seq<string>): (r: Option<Error>)
    ensures r.None? <==> e.None?
    ensures e.Some? ==> Is(r.value, e.value)
    decreases |msgs|
  {
    if msgs == [] then e else Wrap(WrapAll(e, msgs[1..]), msgs[0])
  }

  /** The failures of a sequence of outcomes, in order. */
  function Failures(outcomes: seq<Option<Error>>): seq<Error>
  {
    if outcomes == [] then []
    else (if outcomes[0].Some? then [outcomes[0].value] else []) + Failures(outcomes[1..])
  }

  /** The aggregate of a sequence of outcomes: nil when none failed, otherwise one error holding every failure. */
  function Join(outcomes: seq<Option<Error>>): Option<Error>
  {
    var failures := Failures(outcomes);
    if failures == [] then None else Some(Joined(failures))
  }

  lemma {:induction false} FailuresAppend(a: seq<Option<Error>>, b: seq<Option<Error>>)
    ensures Failures(a + b) == Failures(a) + Failures(b)
  {
    if a == [] {
      assert a + b == b;
    } else {
      assert (a + b)[1..] == a[1..] + b;
      FailuresAppend(a[1..], b);
    }
  }

  /** The aggregate is nil exactly when every outcome is nil. */
  lemma {:induction false} JoinNilIffNoFailure(outcomes: seq<Option<Error>>)
    ensures Join(outcomes).None? <==> forall i :: 0 <= i < |outcomes| ==> outcomes[i].None?
  {
    if outcomes != [] {
      JoinNilIffNoFailure(outcomes[1..]);
      assert forall i :: 1 <= i < |outcomes| ==> outcomes[i] == outcomes[1..][i - 1];
    }
  }

  lemma {:induction false} FailureListed(outcomes: seq<Option<Error>>, i: nat)
    requires i < |outcomes| && outcomes[i].Some?
    ensures outcomes[i].value in Failures(outcomes)
  {
    if i > 0 {
      FailureListed(outcomes[1..], i - 1);
    }
  }

  /** Every individual failure can be found in the aggregate with errors.Is. */
  lemma JoinKeepsEveryFailure(outcomes: seq<Option<Error>>, i: nat)
    requires i < |outcomes| && outcomes[i].Some?
    ensures Join(outcomes).Some? && Is(Join(outcomes).value, outcomes[i].value)
  {
    FailureListed(outcomes, i);
    var failures := Failures(outcomes);
    var k :| 0 <= k < |failures| && failures[k] == outcomes[i].value;
    assert Is(failures[k], outcomes[i].value);
  }
}
