/**
  One turn's steering calls end to end (driver/acp/driver.go, turn.go, dispatcher.go): any number
  of callers in `Steer`, the mailbox, the arbiter and the dispatcher, each moving one atomic step
  at a time in any order. Calls, their commands and their jobs share one number.
 */
module SteerSystem {
  import opened Options
  import opened DriverContract
  import opened Admission
  import opened AcpSteering
  import A = ArbiterModel
  import M = MailboxModel
  import D = DispatcherModel
  import P = DispatcherProtocol
  import K = DispatcherSeals

  /**
    `preCanceled` are the calls whose context was done before they were sent; `accepting` is the
    command the arbiter acknowledged and has yet to judge; `inbox` holds jobs the dispatcher has
    yet to receive; `waiting` are the calls whose report the arbiter awaits; `timedOut` are the calls
    whose caller gave up waiting for the reply.
   */
  datatype State = State(
    mail: M.State, disp: D.State, preCanceled: set<nat>, accepting: Option<nat>, handled: set<nat>,
    inbox: seq<nat>, waiting: set<nat>, replies: map<nat, SteerResult>, results: map<nat, SteerResult>,
    timedOut: set<nat>)

  datatype Step =
    | NoHandle
    | LaneFull
    | LaneClosed(ctxDone: bool)
    | Send(preCanceled: bool, ctxDone: bool)
    | CallerMoves(piece: M.Piece)
    | CallerRefused(id: nat, ctxDone: bool)
    | CallerTakesReply(id: nat)
    | CallerTimesOut(id: nat)
    | ArbiterTakes
    | ArbiterAcknowledges
    | ArbiterJudges(command: A.Command, enabled: bool)
    | ArbiterAnswers(report: D.Report)
    | ArbiterFails(id: nat)
    | ArbiterReturns
    | HandleRetires
    | DispatcherRuns(pass: D.Pass)

  /** callerTimeoutSteerResult: what a caller whose context is done while it waits may claim. */
  function CallerTimeout(admission: Admission, sent: M.SendResult): SteerResult {
    match Sealed(admission)
    case Admitted => Local(DeliveryUnknown).(writeAdmitted := true)
    case PendingWriter => Local(AdmissionUnknown)
    case _ =>
      if sent == M.Accepted || sent == M.Pending then Local(AdmissionUnknown) else Local(FallbackRequired)
  }

  predicate Sent(s: State, id: nat)
    requires s.mail.Shaped()
  {
    id < |s.mail.phases| && s.mail.phases[id].Back?
  }

  predicate Refused(s: State, id: nat)
    requires s.mail.Shaped()
  {
    Sent(s, id) && (s.mail.phases[id].result == M.Rejected || s.mail.phases[id].result == M.Terminal)
  }

  /** The call is past the mailbox and waits for its reply. */
  predicate Listening(s: State, id: nat)
    requires s.mail.Shaped()
  {
    Sent(s, id) && !Refused(s, id) && id !in s.results
  }

  function SealCall(s: State, id: nat): State {
    s.(disp := D.Seal(s.disp, id))
  }

  function Result(s: State, id: nat, r: SteerResult): State {
    s.(results := s.results[id := r])
  }

  /** A call that returns before it has a command. */
  function Turned(s: State, r: SteerResult): State
    requires s.mail.Shaped()
  {
    Result(s.(mail := M.Refuse(s.mail, M.Rejected)), |s.mail.acks|, r)
  }

  /** The attempt is sealed first if the context is done already; reserved sends never block. */
  function SendCall(s: State, preCanceled: bool): State
    requires s.mail.Shaped()
  {
    var id := |s.mail.acks|;
    var s1 := if preCanceled then SealCall(s, id).(preCanceled := s.preCanceled + {id}) else s;
    s1.(mail := M.EnterMailbox(s1.mail, true, preCanceled))
  }

  function Deny(s: State, id: nat, ctxDone: bool): State {
    if ctxDone then Result(SealCall(s, id), id, Local(FallbackRequired)) else Result(s, id, Local(Unsupported))
  }

  function Replied(s: State, id: nat, r: SteerResult): State {
    s.(replies := s.replies[id := r], waiting := s.waiting - {id})
  }

  function Judged(s: State, c: A.Command, enabled: bool): State
    requires s.accepting.Some?
  {
    var id := s.accepting.value;
    var command := c.(hasReply := true, admission := D.AdmissionOf(s.disp, id));
    var s1 := s.(accepting := None, handled := s.handled + {id},
                 disp := s.disp.(att := s.disp.att[id := A.AdmissionAfter(command, enabled)]));
    match A.Judge(command, enabled)
    case Submit => s1.(inbox := s1.inbox + [id], waiting := s1.waiting + {id})
    case Local(reply) => Replied(s1, id, reply.result)
  }

  /** The dispatcher receives the job only when it gets as far as its select. */
  function Dispatched(s: State, p: D.Pass): State {
    var d := D.Trip(s.disp, p);
    var taken := p.pick.Job? && s.inbox != [] && p.pick.id == s.inbox[0] && s.inbox[0] in P.FactsOf(d.trace).got;
    s.(disp := d, inbox := if taken then s.inbox[1..] else s.inbox)
  }

  function Apply(s: State, step: Step): State
    requires s.mail.Shaped()
  {
    match step
    case NoHandle => Turned(s, Local(Unsupported))
    case LaneFull => Turned(s, Local(FallbackRequired))
    case LaneClosed(ctxDone) => Turned(s, if ctxDone then Local(FallbackRequired) else Local(Unsupported))
    case Send(preCanceled, _) => SendCall(s, preCanceled)
    case CallerMoves(piece) =>
      if piece.Look? || piece.WaitSeesDone? || piece.WaitCancelled? then s.(mail := M.Apply(s.mail, piece)) else s
    case CallerRefused(id, ctxDone) => if Refused(s, id) && id !in s.results then Deny(s, id, ctxDone) else s
    case CallerTakesReply(id) =>
      if Listening(s, id) && id in s.preCanceled then Result(s, id, Local(FallbackRequired))
      else if Listening(s, id) && id in s.replies then Result(s, id, s.replies[id])
      else s
    case CallerTimesOut(id) =>
      if Listening(s, id) && id !in s.preCanceled
      then
        var claim := CallerTimeout(D.AdmissionOf(s.disp, id), s.mail.phases[id].result);
        Result(SealCall(s, id), id, claim).(timedOut := s.timedOut + {id})
      else s
    case ArbiterTakes => if s.accepting.None? then s.(mail := M.Apply(s.mail, M.Take)) else s
    case ArbiterAcknowledges =>
      if s.mail.taking.Some? then s.(accepting := s.mail.taking, mail := M.Apply(s.mail, M.Acknowledge)) else s
    case ArbiterJudges(command, enabled) => if s.accepting.Some? then Judged(s, command, enabled) else s
    case ArbiterAnswers(report) =>
      if report.Report? && report in K.ReportsOf(s.disp.trace) && report.id in s.waiting
      then Replied(s, report.id, Answer(report.id, report.result, report.err, report.admission, report.late).result)
      else s
    case ArbiterFails(id) => if id in s.waiting then Replied(s, id, LateResult(D.AdmissionOf(s.disp, id))) else s
    case ArbiterReturns => if s.accepting.None? then s.(mail := M.Apply(s.mail, M.ArbiterReturns)) else s
    case HandleRetires => s.(mail := M.Apply(s.mail, M.Retire))
    case DispatcherRuns(pass) => Dispatched(s, pass)
  }

  function Initial(capacity: nat): State {
    State(M.Fresh(capacity), D.IDLE, {}, None, {}, [], {}, map[], map[], {})
  }

  /** The dispatcher's mailbox hands over jobs in order. */
  predicate Enabled(s: State, step: Step) {
    step.DispatcherRuns? && step.pass.pick.Job? ==> s.inbox != [] && step.pass.pick.id == s.inbox[0]
  }

  function RunOf(s: State, steps: seq<Step>): State
    requires s.mail.Shaped()
    decreases |steps|
  {
    if steps == [] then s else RunOf(Apply(s, steps[0]), steps[1..])
  }

  predicate Possible(s: State, steps: seq<Step>)
    requires s.mail.Shaped()
    decreases |steps|
  {
    steps != [] ==> Enabled(s, steps[0]) && Possible(Apply(s, steps[0]), steps[1..])
  }
}
