/** What one reconcile operation tells the handler loop that called it. */
module Operations {

  /** The errors the reconcilers tell apart; every other failure is `Failed`. */
  datatype Error = NoError | NotFound | AlreadyExists | ComputeNotReady | InactiveProject | UnsupportedRegion | Failed

  datatype OperationResult = OperationResult(delay: nat, requeue: bool, cancel: bool) {
    predicate RequeueOrCancel() {
      requeue || cancel
    }
  }

  function ContinueProcessing(): OperationResult {
    OperationResult(0, false, false)
  }

  function StopProcessing(): OperationResult {
    OperationResult(0, false, true)
  }

  function Requeue(): OperationResult {
    OperationResult(0, true, false)
  }

  function RequeueAfter(delay: nat): OperationResult {
    OperationResult(delay, true, false)
  }

  /** The handler loop goes on to its next operation exactly when this holds. */
  predicate GoesOn(result: OperationResult, err: Error) {
    err == NoError && !result.requeue && !result.cancel
  }
}
