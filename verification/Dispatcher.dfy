/**
  The dispatcher that owns all provider steering calls of one turn (driver/acp/dispatcher.go):
  a FIFO of jobs, at most one call in flight, a terminal marker with a grace period.
  `Trip` is one pass through the body of the run loop.
 */
module DispatcherModel {
  import opened Options
  import opened Admission

  datatype ClientOutcome = Injected | PromptRequired | Failed | StartedNewTurn | Other

  datatype ClientResult = ClientResult(outcome: ClientOutcome, writeAdmitted: bool, receiveSequence: nat,
                                       responseSequence: nat)

  /** The error beside a result; a steering error, unless wrapped, carries its own transport facts. */
  datatype ClientError =
    | NoError
    | PlainError
    | WrappedError(guaranteesNoDelivery: bool)
    | SteeringError(guaranteesNoDelivery: bool, writeAdmitted: bool, receiveSequence: nat, responseSequence: nat)

  function Nothing(writeAdmitted: bool): ClientResult {
    ClientResult(Other, writeAdmitted, 0, 0)
  }

  /** What the completion channel yields, if it is not closed, and whether the job's context was done then. */
  datatype Return = Return(id: nat, answer: Option<(ClientResult, ClientError)>, ctxDone: bool) {
    /** What it says about the admission. */
    function Word(): Word {
      if answer.Some? then Told(answer.value.0.writeAdmitted) else Closed
    }
  }

  datatype Report =
    | Report(id: nat, result: ClientResult, err: ClientError, admission: Admission, late: bool)
    | TerminalComplete

  /** What a channel of the provider yields about the admission: a value, or nothing because it was closed. */
  datatype Word = Told(admitted: bool) | Closed {
    /** What the dispatcher takes it for. */
    predicate Yes() {
      Told? && admitted
    }
  }

  /**
    What the dispatcher received, did and reported. `Said` and `Returned` hold what came out of the
    provider's two channels, not what was made of it. Jobs are numbered in submission order.
   */
  datatype Deed =
    | Got(id: nat)
    | Marker
    | Invoked(id: nat)
    | NoHandle(id: nat)
    | Said(id: nat, word: Word)
    | Returned(ret: Return)
    | Reported(report: Report)

  datatype Trace = Start | Then(past: Trace, deed: Deed)

  datatype Active = Active(
    id: nat, async: bool, admissionOpen: bool, admission: Admission,
    resolved: bool, terminal: bool, timer: bool)

  /** `att` holds the admission of every attempt; an absent attempt is pending. */
  datatype State = State(
    queue: seq<nat>, active: Option<Active>, terminalRequested: bool, completeSent: bool, stopped: bool,
    att: map<nat, Admission>, trace: Trace)

  /** What StartSteer gives back, or what the session turns out to be. */
  datatype Opening = Handle | NilHandle | Sync | NoCapability

  /** The case the select takes. `ready` is what the admission channel yields beside a completion, if anything. */
  datatype Pick =
    | Job(id: nat)
    | Terminal
    | Stop
    | AdmissionFact(word: Word)
    | Completion(open: bool, result: ClientResult, err: ClientError, ready: Option<Word>)
    | Grace

  /** One pass: is the context of the job at hand done, how does a start turn out, which case is taken. */
  datatype Pass = Pass(ctxDone: bool, opening: Opening, pick: Pick)

  const IDLE := State([], None, false, false, false, map[], Start)

  function Note(s: State, d: Deed): State {
    s.(trace := Then(s.trace, d))
  }

  function AdmissionOf(s: State, id: nat): Admission {
    if id in s.att then s.att[id] else Pending
  }

  function Mark(s: State, id: nat, admitted: bool): State {
    s.(att := s.att[id := Marked(AdmissionOf(s, id), admitted)])
  }

  function Seal(s: State, id: nat): State {
    s.(att := s.att[id := Sealed(AdmissionOf(s, id))])
  }

  function Emit(s: State, r: Report): State {
    Note(s, Reported(r))
  }

  function Unstarted(id: nat, admission: Admission): Report {
    Report(id, Nothing(false), PlainError, admission, false)
  }

  /** start: begin the attempt, then invoke the provider. */
  function StartJob(s: State, id: nat, opening: Opening): State {
    if AdmissionOf(s, id) != Pending then
      Emit(s, Unstarted(id, AdmissionOf(s, id)))
    else
      var s1 := s.(att := s.att[id := PendingWriter]);
      match opening
      case Handle =>
        Note(s1, Invoked(id)).(active := Some(Active(id, true, true, PendingWriter, false, false, false)))
      case Sync =>
        Note(s1, Invoked(id)).(active := Some(Active(id, false, false, PendingWriter, false, false, false)))
      case NilHandle =>
        Emit(Mark(Note(Note(s1, Invoked(id)), NoHandle(id)), id, false), Unstarted(id, NotAdmitted))
      case NoCapability =>
        Mark(Emit(s1, Unstarted(id, NotAdmitted)), id, false)
  }

  predicate CanStart(s: State) {
    s.active.None? && !s.terminalRequested && s.queue != []
  }

  /** The head of the queue is taken: given up if its context is done, started otherwise. */
  function TakeJob(s: State, ctxDone: bool, opening: Opening): State
    requires s.queue != []
  {
    var id := s.queue[0];
    var s1 := s.(queue := s.queue[1..]);
    if ctxDone then
      var s2 := Seal(s1, id);
      Emit(s2, Unstarted(id, AdmissionOf(s2, id)))
    else
      StartJob(s1, id, opening)
  }

  function CompleteTerminal(s: State): State {
    if s.terminalRequested && (s.active.None? || s.active.value.resolved) && s.queue == [] && !s.completeSent then
      Emit(s, TerminalComplete).(completeSent := true)
    else
      s
  }

  /** Never-started jobs are given up, in order. */
  function ResolveQueued(s: State): State
    decreases |s.queue|
  {
    if s.queue == [] then s
    else
      var id := s.queue[0];
      ResolveQueued(Emit(Mark(s.(queue := s.queue[1..]), id, false), Unstarted(id, NotAdmitted)))
  }

  function ResolveTerminalActive(s: State): State
    requires s.active.Some?
  {
    var a := s.active.value;
    if a.resolved then s
    else
      var s1 := s.(active := Some(a.(resolved := true, timer := false)));
      var s2 := if a.admission != PendingWriter then Mark(s1, a.id, a.admission == Admitted) else s1;
      Emit(s2, Report(a.id, Nothing(a.admission == Admitted), PlainError, a.admission, false))
  }

  function AcceptJob(s: State, id: nat): State {
    var s1 := Note(s, Got(id));
    if s.terminalRequested then Emit(Mark(s1, id, false), Unstarted(id, NotAdmitted))
    else s1.(queue := s1.queue + [id])
  }

  function AcceptTerminal(s: State): State {
    var s1 := ResolveQueued(Note(s.(terminalRequested := true), Marker));
    if s1.active.None? then s1
    else
      var a := s1.active.value.(terminal := true);
      if a.admission != PendingWriter then ResolveTerminalActive(s1.(active := Some(a)))
      else s1.(active := Some(a.(timer := true)))
  }

  /** What the admission channel yields reaches the active call; a closed channel counts as a refusal. */
  function LearnAdmission(s: State, word: Word): State
    requires s.active.Some?
  {
    var a := s.active.value;
    var s1 := s.(active := Some(a.(admission := FromFact(word.Yes()), admissionOpen := false)));
    Mark(Note(s1, Said(a.id, word)), a.id, word.Yes())
  }

  predicate AwaitsAdmission(s: State) {
    s.active.Some? && s.active.value.admission == PendingWriter && s.active.value.admissionOpen
  }

  /** finishActive: reconcile the completion with what is known of the admission. */
  function Finish(s: State, result: ClientResult, err: ClientError, late: bool): State
    requires s.active.Some?
  {
    var a := s.active.value;
    var admission :=
      if result.writeAdmitted then Admitted
      else if a.admission == PendingWriter then NotAdmitted
      else a.admission;
    var s1 := s.(active := None);
    var s2 := if result.writeAdmitted || a.admission == PendingWriter then Mark(s1, a.id, result.writeAdmitted) else s1;
    Emit(s2, Report(a.id, result.(writeAdmitted := admission == Admitted), err, admission, late))
  }

  /** A completion, or the end of its channel, is the provider's last word on the call. */
  function TakeCompletion(
    s: State, open: bool, result: ClientResult, err: ClientError, ready: Option<Word>, ctxDone: bool): State
    requires s.active.Some?
  {
    var s1 := if AwaitsAdmission(s) && ready.Some? then LearnAdmission(s, ready.value) else s;
    var a := s1.active.value;
    var r := if open then result else Nothing(a.admission == Admitted);
    var ret := Return(a.id, if open then Some((result, err)) else None, ctxDone);
    Finish(Note(s1, Returned(ret)), r, if open then err else PlainError, a.resolved || ctxDone)
  }

  function Select(s: State, p: Pass): State {
    match p.pick
    case Stop => s.(stopped := true)
    case Job(id) => AcceptJob(s, id)
    case Terminal => AcceptTerminal(s)
    case AdmissionFact(word) =>
      if AwaitsAdmission(s) && !s.active.value.resolved then
        var s1 := LearnAdmission(s, word);
        if s1.active.value.terminal then ResolveTerminalActive(s1) else s1
      else s
    case Completion(open, result, err, ready) =>
      if s.active.Some? then TakeCompletion(s, open, result, err, ready, p.ctxDone) else s
    case Grace =>
      if s.active.Some? && s.active.value.terminal && !s.active.value.resolved && s.active.value.timer
      then ResolveTerminalActive(s) else s
  }

  /** One pass through the loop body; a pick that is not available leaves the state alone. */
  function Trip(s: State, p: Pass): State {
    if s.stopped then
      s
    else
      var s1 := if CanStart(s) then TakeJob(s, p.ctxDone, p.opening) else s;
      if CanStart(s) && s1.active.None? then s1
      else Select(CompleteTerminal(s1), p)
  }
}
