/** Failure-compatible wrappers shared by the whole model, and the one error
    type that stands for every exception the adapter throws. */
module Results {

  /** The exceptions thrown by the adapter. All but the last are the generic
      configuration exceptions raised while the job is initialised; the last
      is the recoverable per-event skip. */
  datatype Error =
    | UnknownRecoScheme        // "Unknown FastJet recombination scheme!"
    | NoClusterMode            // "Cluster mode not specified"
    | WrongModeParameters      // "Wrong Parameter(s) for Clustering Mode. ..."
    | UnknownClusterMode       // "Unknown cluster mode."
    | NoAlgorithm              // "No Jet algorithm provided!"
    | WrongParameterCount      // "You have insufficient number of parameters ..."
    | ModeNotSupported         // "This algorithm is not capable of running in this mode"
    | UnknownAlgorithm         // "Unknown FastJet algorithm."
    | SkippedFixedNrJet        // SkippedFixedNrJetException
  {
    /** True for the errors that abort the job rather than skip one event. */
    predicate IsConfigError() {
      !SkippedFixedNrJet?
    }
  }

  datatype Option<+T> = None | Some(value: T)

  datatype Result<+T> = Success(value: T) | Failure(error: Error) {

    predicate IsFailure() {
      Failure?
    }

    function PropagateFailure<U>(): Result<U>
      requires Failure?
    {
      Failure(error)
    }

    function Extract(): T
      requires Success?
    {
      value
    }
  }
}
