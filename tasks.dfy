/**
 * The aggregation of per-batch submission results into one completion.
 *
 * The combinator belongs to the platform's task library, which is not part of
 * this model; `WhenAllCompletion` states what the coordinator relies on it for,
 * as an assumption about that library: the aggregate succeeds exactly when
 * every submission succeeds, and otherwise fails with the error of a submission
 * that failed (the first one, in list order, standing for the first observed).
 * The library itself waits for every task and reports a failure wrapped in an
 * exception of its own; passing the submission's error on unwrapped, and choosing
 * it by list order, are simplifications.
 */
module Tasks {

  /** An error reported by the store for one submitted batch, opaque here. */
  datatype SubmissionError = SubmissionError(code: nat)

  /** How one submission, or the aggregate of several, completed. */
  datatype Completion = Succeeded | Failed(error: SubmissionError)

  function WhenAllCompletion(results: seq<Completion>): (r: Completion)
    ensures r == Succeeded <==> forall i | 0 <= i < |results| :: results[i] == Succeeded
    ensures r.Failed? ==> exists i | 0 <= i < |results| ::
              results[i] == r && forall j | 0 <= j < i :: results[j] == Succeeded
  {
    if results == [] then Succeeded
    else if results[0].Failed? then results[0]
    else
      var rest := WhenAllCompletion(results[1..]);
      assert forall i | 1 <= i < |results| :: results[i] == results[1..][i - 1];
      rest
  }
}
