/**
  How the ACP driver turns what the dispatcher reports into the provider-neutral result
  (driver/acp/steering.go, driver/acp/turn.go), and what the backend then makes of it.
 */
module AcpSteering {
  import opened Options
  import opened DriverContract
  import opened Admission
  import D = DispatcherModel
  import B = SteeringModel

  /** What a steering call returns to its caller. */
  datatype Reply = Reply(result: SteerResult, err: bool)

  /** The provider's error says the method is unknown or its parameters are invalid. */
  predicate GuaranteesNoDelivery(err: D.ClientError) {
    (err.SteeringError? || err.WrappedError?) && err.guaranteesNoDelivery
  }

  /** A direct steering error fills in the transport facts the result lacks. */
  function WithErrorFacts(result: D.ClientResult, err: D.ClientError): D.ClientResult {
    if err.SteeringError? then
      result.(writeAdmitted := result.writeAdmitted || err.writeAdmitted,
              receiveSequence := if result.receiveSequence == 0 then err.receiveSequence else result.receiveSequence,
              responseSequence :=
                if result.responseSequence == 0 then err.responseSequence else result.responseSequence)
    else
      result
  }

  function NormalOutcome(outcome: D.ClientOutcome): Outcome {
    match outcome
    case Injected => Injected
    case PromptRequired => FallbackRequired
    case Failed => FallbackRequired
    case StartedNewTurn => DeliveredUntrackable
    case Other => DeliveryUnknown
  }

  function NormalizeSteering(result: D.ClientResult, err: D.ClientError): Reply {
    var r := WithErrorFacts(result, err);
    var normalized := SteerResult(DeliveryUnknown, r.writeAdmitted, r.receiveSequence, r.responseSequence, 0);
    if err != D.NoError then
      if !r.writeAdmitted || GuaranteesNoDelivery(err) then Reply(normalized.(outcome := FallbackRequired), true)
      else Reply(normalized, true)
    else if r.outcome == D.Other then
      Reply(normalized, true)
    else if normalized.(outcome := NormalOutcome(r.outcome)).Valid() then
      Reply(normalized.(outcome := NormalOutcome(r.outcome)), false)
    else
      Reply(normalized, true)
  }

  function LateResult(admission: Admission): SteerResult {
    match admission
    case Admitted => Local(DeliveryUnknown).(writeAdmitted := true)
    case NotAdmitted => Local(FallbackRequired)
    case _ => Local(AdmissionUnknown)
  }

  /** The reply for a job the dispatcher reported. */
  function Answer(id: nat, result: D.ClientResult, err: D.ClientError, admission: Admission, late: bool): Reply {
    if late then
      Reply(LateResult(admission), true)
    else
      match admission
      case Pending => Reply(Local(AdmissionUnknown), true)
      case PendingWriter => Reply(Local(AdmissionUnknown), true)
      case NotAdmitted => Reply(Local(FallbackRequired), err != D.NoError)
      case Admitted => NormalizeSteering(result.(writeAdmitted := true), err)
  }

  /** A normalized admitted result satisfies the driver contract exactly when its sequences agree and,
      should the provider have refused the delivery, when there is a response at all. */
  lemma NormalizedIsValid(result: D.ClientResult, err: D.ClientError)
    requires result.writeAdmitted
    ensures
      var r := WithErrorFacts(result, err);
      NormalizeSteering(result, err).result.Valid() <==>
        r.receiveSequence == r.responseSequence && (GuaranteesNoDelivery(err) ==> r.responseSequence != 0)
  {
  }

  /**
    A steering error that guarantees no delivery but came without a response: normalized it claims
    the fallback, the driver contract rejects it, and the backend takes the delivery as unknown.
   */
  lemma RefusalWithoutResponse()
    ensures
      var result := D.ClientResult(D.Failed, true, 0, 0);
      var reply := NormalizeSteering(result, D.SteeringError(true, true, 0, 0));
      && reply.result.outcome == FallbackRequired && !reply.result.Valid()
      && B.Classify(reply.result, BackendError(reply)).AsUnknown?
  {
  }

  /** A call that crossed the writer is retry-safe only on the provider's own word. */
  lemma AdmittedRetryNeedsProof(result: D.ClientResult, err: D.ClientError)
    requires result.writeAdmitted
    ensures
      var reply := NormalizeSteering(result, err);
      && reply.result.writeAdmitted
      && (reply.result.outcome.RetrySafe() <==>
            GuaranteesNoDelivery(err)
            || (err == D.NoError && result.outcome in {D.PromptRequired, D.Failed}
                && result.receiveSequence == result.responseSequence != 0))
  {
  }

  /** The steering error beside a reply, as the backend sees it. */
  function BackendError(reply: Reply): CallError {
    if reply.err then OtherError else NoError
  }

  /**
    End to end, whatever the dispatcher reports: the backend folds the message into the turn
    exactly when the provider answered injected, in order; it retries it exactly when the call
    provably delivered nothing; everything else is unknown or untrackable.
   */
  lemma ReportClassification(id: nat, result: D.ClientResult, err: D.ClientError, admission: Admission, late: bool)
    ensures
      var reply := Answer(id, result, err, admission, late);
      var verdict := B.Classify(reply.result, BackendError(reply));
      var facts := WithErrorFacts(result, err);
      var onTime := admission == Admitted && !late && facts.receiveSequence == facts.responseSequence != 0;
      && (verdict.AsInjected? <==> onTime && err == D.NoError && result.outcome == D.Injected)
      && (verdict.AsUntrackable? <==> onTime && err == D.NoError && result.outcome == D.StartedNewTurn)
      && (verdict.AsFallback? <==>
            || admission == NotAdmitted
            || (onTime && (GuaranteesNoDelivery(err)
                           || (err == D.NoError && result.outcome in {D.PromptRequired, D.Failed}))))
  {
    if late {
    } else if admission == Admitted {
      if err == D.NoError {
        match result.outcome {
          case Injected =>
          case PromptRequired =>
          case Failed =>
          case StartedNewTurn =>
          case Other =>
        }
      } else if GuaranteesNoDelivery(err) {
      } else {
      }
    } else {
    }
  }
}
