/**
 * The shape both route handlers share: an ordered list of guards, each
 * returning its own early response, where the first guard that fails
 * decides the response and the later guards are never consulted.
 */
module Cascade {
  import opened Wrappers

  /** A guard: whether it passes, and the response it returns when it does not. */
  datatype Check<R> = Check(passes: bool, rejection: R)

  /** Check `i` is the first one in `checks` that fails. */
  predicate FailsFirstAt<R>(checks: seq<Check<R>>, i: int) {
    && 0 <= i < |checks|
    && !checks[i].passes
    && forall j :: 0 <= j < i ==> checks[j].passes
  }

  /** Runs the guards in order; `None` when every guard passes. */
  function FirstFailure<R>(checks: seq<Check<R>>): (r: Option<R>)
    ensures r.None? <==> forall i :: 0 <= i < |checks| ==> checks[i].passes
    ensures r.Some? ==> exists i :: FailsFirstAt(checks, i) && r.value == checks[i].rejection
  {
    if checks == [] then None
    else if !checks[0].passes then Some(checks[0].rejection)
    else FirstFailure(checks[1..])
  }

  /** The response of a cascade is the rejection of its first failing guard. */
  lemma FirstFailureAt<R>(checks: seq<Check<R>>, i: int)
    requires FailsFirstAt(checks, i)
    ensures FirstFailure(checks) == Some(checks[i].rejection)
  {
  }
}
