/** Option and the outcome of a runtime operation. */
module Wrappers {

  datatype Option<+T> = None | Some(value: T)

  /** Why an operation ended without a result: the process died between two durable
      effects, or the code raised one of its stable public errors. */
  datatype Error = Crashed | Refused(code: Code)

  /** The public error codes a caller can tell apart, shortened from the source's strings. */
  datatype Code =
    | InvalidRequest
    | NotFound
    | StateInvalid
    | Stale
    | NotAuthorized
    | ActorNotBound
    | ActorMismatch
    | BindingMismatch
    | AdapterUnavailable
    | IdempotencyConflict
    | JobStateChanged
    | InProgress
    | AlreadyStarted
    | RetryRequired
    | RetryNotAllowed
    | RetryNotSafe
    | TrustedTimeInvalid
    | ProviderFailure
    | ProviderTimeout
    | ResultRejected
    | ProviderError
    | CancelNotAllowed
    | CancelAlreadyRequested
    | CancelInProgress
    | CancelRetryNotSafe
    | NotVerifiable
    | AlreadySelected
    | StepUpRequired
    | DeviceNotFound
    | AlreadyManaged
    | NotManaged
    | GenerationExhausted
    | PreviousAttemptFailed
    | VerificationNotApplied
    | VerificationNotRejected
    | ConfirmationRequired
    | ReconciliationRequired
    | ReconciliationNotRequired
    | ProviderRejected
    | OutcomeAmbiguous
    | VerificationRejected
    | AuthorizationExpired
    | TransientStateMismatch
    | ReferenceStillPresent

  /** A failure-compatible outcome, so that `:-` plays the part of an exception. */
  datatype Result<+T> = Success(value: T) | Failure(error: Error) {

    predicate IsFailure() {
      Failure?
    }

    function PropagateFailure<U>(): Result<U>
      requires Failure?
    {
      Failure(error)
    }

    function Extract(): T
      requires Success?
    {
      value
    }
  }

  /** The outcome of a step that yields no value. */
  datatype Outcome = Done | Ended(error: Error) {

    predicate IsFailure() {
      Ended?
    }

    function PropagateFailure<U>(): Result<U>
      requires Ended?
    {
      Failure(error)
    }
  }
}
