/** A value that may be absent (Go's nil pointer, or the second result of a map lookup). */
module Options {
  datatype Option<+T> = None | Some(value: T)
}

/**
  The provider-neutral steering contract (driver/steering.go): what a steering result may say,
  which results are well formed and which of them permit an automatic retry.
 */
module DriverContract {
  /** The closed outcome set; `Absent` is the empty string and `Unrecognized` any other text. */
  datatype Outcome =
    | Absent
    | Unrecognized
    | Injected
    | FallbackRequired
    | Unsupported
    | AdmissionUnknown
    | DeliveryUnknown
    | DeliveredUntrackable
  {
    predicate Valid() {
      !Absent? && !Unrecognized?
    }

    predicate RetrySafe() {
      Unsupported? || FallbackRequired?
    }
  }

  datatype SteerResult = SteerResult(
    outcome: Outcome, writeAdmitted: bool, receiveSequence: nat, responseSequence: nat, orderSequence: nat)
  {
    /** SteerResult.Validate() == nil. */
    predicate Valid() {
      && outcome.Valid()
      && receiveSequence == responseSequence
      && (responseSequence != 0 ==> writeAdmitted)
      && match outcome {
           case Unsupported => !writeAdmitted && receiveSequence == 0
           case Injected => writeAdmitted && responseSequence != 0
           case DeliveredUntrackable => writeAdmitted && responseSequence != 0
           case FallbackRequired => writeAdmitted ==> responseSequence != 0
           case AdmissionUnknown => !writeAdmitted
           case DeliveryUnknown => writeAdmitted
           case _ => true
         }
    }
  }

  /** A result that carries an outcome and nothing else. */
  function Local(outcome: Outcome): SteerResult {
    SteerResult(outcome, false, 0, 0, 0)
  }

  /** The error returned beside a result. */
  datatype CallError = NoError | DeadlineExceeded | OtherError
}
