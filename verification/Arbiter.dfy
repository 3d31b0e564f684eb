/**
  The turn arbiter (driver/acp/turn.go, turnArbiter): it merges session updates, steering results
  and the prompt result into one ordered stream and answers every steering command. `Trip` is
  one iteration of its run loop. Commands are numbered in the order the arbiter takes them.
 */
module ArbiterModel {
  import opened Options
  import opened DriverContract
  import opened Admission
  import opened AcpSteering
  import D = DispatcherModel

  /** What acceptSteer finds out about a command; `submittable` is the dispatcher's answer to the job. */
  datatype Command = Command(
    hasReply: bool, cancelled: bool, admission: Admission, valid: bool, textual: bool, submittable: bool)

  datatype Verdict = Submit | Local(reply: Reply)

  /** acceptSteer's decision; `enabled` is the driver's steering switch. */
  function Judge(c: Command, enabled: bool): Verdict {
    if c.cancelled then Verdict.Local(Reply(DriverContract.Local(FallbackRequired), true))
    else if c.admission == Admitted || c.admission == PendingWriter then
      Verdict.Local(Reply(DriverContract.Local(AdmissionUnknown), true))
    else if c.admission == NotAdmitted then Verdict.Local(Reply(DriverContract.Local(FallbackRequired), true))
    else if !c.valid then Verdict.Local(Reply(DriverContract.Local(Unsupported), true))
    else if !enabled then Verdict.Local(Reply(DriverContract.Local(Unsupported), false))
    else if !c.textual then Verdict.Local(Reply(DriverContract.Local(Unsupported), true))
    else if c.submittable then Submit
    else Verdict.Local(Reply(DriverContract.Local(FallbackRequired), true))
  }

  /** What acceptSteer leaves in the command's attempt. */
  function AdmissionAfter(c: Command, enabled: bool): Admission {
    if c.cancelled then Sealed(c.admission)
    else if c.admission != Pending || Judge(c, enabled) == Submit then c.admission
    else Marked(c.admission, false)
  }

  datatype Kind = Update | Prompt | Steer(owner: nat)

  /**
    An observation with its transport sequence (0: none) and, for a steering result, the reply it
    is paired with. `stamp` is its position in the order of acceptance, `order` the key the
    arbiter assigns to an observation without a sequence.
   */
  datatype Entry = Entry(stamp: nat, kind: Kind, sequence: nat, order: nat, seen: Reply, answer: Reply)

  /**
    What reaches the arbiter (a notification, a command with the state of the steering switch, a
    report, the prompt result, an end of the updates waiting), and what it makes of it.
   */
  datatype Deed =
    | Notified(update: Notification)
    | Received(id: nat, command: Command, enabled: bool)
    | Told(report: D.Report)
    | Arrived(sequence: nat)
    | TerminalAsked
    | Swept(empty: bool)
    | Took(id: nat)
    | Submitted(id: nat)
    | Accepted(entry: Entry)
    | Fence(sequence: nat)
    | Emitted(entry: Entry)
    | Flushed(entry: Entry)
    | Answered(id: nat, reply: Reply)
    | Broke
    | Finished

  datatype Trace = Start | Then(past: Trace, deed: Deed)

  datatype Exit = Running | ByTerminal | ByRegression | ByShutdown

  datatype State = State(
    received: nat, stamps: nat, pending: seq<Entry>, steers: seq<nat>, released: set<nat>,
    prompt: Option<nat>, promptQueued: bool, terminalAsked: bool, terminalReady: bool,
    updatesDrained: bool, promptBarrierRequested: bool,
    updatesOpen: bool, reportsOpen: bool,
    hasBarrier: bool, barrierBusy: bool, barrierCompleted: nat, barrierFence: bool,
    lastRaw: nat, lastOrder: nat, failed: bool,
    steeringOn: bool, steeringOff: bool, exit: Exit, trace: Trace)

  function Initial(steeringOn: bool, steeringOff: bool): State {
    State(0, 0, [], [], {}, None, false, false, false, false, false, true, true, true, false, 0, false,
          0, 0, false, steeringOn, steeringOff, Running, Start)
  }

  /** One session notification: `events` observations, unless it is a replay. */
  datatype Notification = Notification(replay: bool, events: nat, sequence: nat)

  datatype Pick =
    | UpdateReady(update: Notification)
    | UpdatesClosed
    | CommandReady(command: Command)
    | PromptReady(sequence: nat)
    | ReportReady(report: D.Report)
    | ReportsClosed
    | BarrierReady(sequence: nat)
    | BarrierClosed
    | ShuttingDown

  /** The updates a non-blocking drain finds, and whether it then finds the channel closed. */
  datatype Drained = Drained(updates: seq<Notification>, closed: bool)

  /** What one iteration meets: ready sources, answers of the workers, the attempts as they stand. */
  datatype Pass = Pass(
    shutdown: bool, queued: seq<Command>, queuedAtTerminal: seq<Command>, markerTaken: bool,
    drained: Drained, barrierTakes: bool, attempts: map<nat, Admission>, pick: Pick, drainedAfter: Drained)

  const SILENCE := Reply(DriverContract.Local(Absent), false)

  function Note(s: State, d: Deed): State {
    s.(trace := Then(s.trace, d))
  }

  // ---------------------------------------------------------------- accepting

  function Enqueue(s: State, kind: Kind, sequence: nat, reply: Reply): State {
    var e := Entry(s.stamps, kind, sequence, 0, reply, reply);
    s.(stamps := s.stamps + 1, pending := s.pending + [e], trace := Then(s.trace, Accepted(e)))
  }

  function EnqueueUpdates(s: State, events: nat, sequence: nat): State
    decreases events
  {
    if events == 0 then s else EnqueueUpdates(Enqueue(s, Update, sequence, SILENCE), events - 1, sequence)
  }

  function AcceptUpdate(s: State, u: Notification): State {
    var s1 := Note(s, Notified(u));
    if u.replay then s1 else EnqueueUpdates(s1, u.events, u.sequence)
  }

  function Enabled(s: State): bool {
    s.steeringOn && !s.steeringOff
  }

  /** acknowledgeCommand and acceptSteer. */
  function AcceptCommand(s: State, c: Command): State {
    var command := c.(submittable := c.submittable && s.reportsOpen);
    TakeCommand(Note(s, Received(s.received, command, Enabled(s))), command)
  }

  function TakeCommand(s: State, c: Command): State {
    var id := s.received;
    var s1 := s.(received := s.received + 1);
    if !c.hasReply then s1.(released := s1.released + {id})
    else Place(Note(s1, Took(id)), id, Judge(c, Enabled(s)))
  }

  /** A judged command is answered at once, or waits for the dispatcher. */
  function Place(s: State, id: nat, v: Verdict): State {
    match v
    case Local(reply) => Enqueue(s, Steer(id), reply.result.receiveSequence, reply)
    case Submit => Note(s.(steers := s.steers + [id]), Submitted(id))
  }

  function AcceptCommands(s: State, cs: seq<Command>): State
    decreases |cs|
  {
    if cs == [] then s else AcceptCommands(AcceptCommand(s, cs[0]), cs[1..])
  }

  function AcceptUpdates(s: State, us: seq<Notification>): State
    decreases |us|
  {
    if us == [] then s else AcceptUpdates(AcceptUpdate(s, us[0]), us[1..])
  }

  /** drainTerminalUpdates, with the assignment of updatesDrained that follows it. */
  function DrainUpdates(s: State, d: Drained): State {
    if !s.updatesOpen then Note(s.(updatesDrained := true), Swept(true))
    else
      var s1 := AcceptUpdates(s, d.updates).(updatesOpen := !d.closed, updatesDrained := d.updates == []);
      Note(s1, Swept(d.updates == []))
  }

  function Without(ids: seq<nat>, id: nat): seq<nat> {
    if ids == [] then [] else if ids[0] == id then ids[1..] else [ids[0]] + Without(ids[1..], id)
  }

  predicate Ambiguous(outcome: Outcome) {
    outcome.DeliveryUnknown? || outcome.DeliveredUntrackable?
  }

  function Disable(s: State, off: bool): State {
    if off then s.(steeringOff := true) else s
  }

  /** The report of a job that is still waited for. */
  function AcceptAnswer(s: State, r: D.Report, barrierTakes: bool): State
    requires r.Report?
  {
    var reply := Answer(r.id, r.result, r.err, r.admission, r.late);
    var s1 := s.(steers := Without(s.steers, r.id));
    if r.late then
      var off := Ambiguous(reply.result.outcome) || reply.result.outcome.AdmissionUnknown?;
      Enqueue(Disable(s1, off), Steer(r.id), 0, reply)
    else
      var s2 := if s1.terminalAsked && s1.steers == [] then MaybePromptBarrier(s1, barrierTakes) else s1;
      Enqueue(Disable(s2, Ambiguous(reply.result.outcome) || GuaranteesNoDelivery(r.err)),
              Steer(r.id), reply.result.receiveSequence, reply)
  }

  function AcceptReport(s: State, r: D.Report, barrierTakes: bool): State {
    TakeReport(Note(s, Told(r)), r, barrierTakes)
  }

  function TakeReport(s: State, r: D.Report, barrierTakes: bool): State {
    if r.TerminalComplete? then s.(terminalReady := true)
    else if r.id !in s.steers then Disable(s, r.late || r.err != D.NoError || r.result.writeAdmitted)
    else AcceptAnswer(s, r, barrierTakes)
  }

  // ---------------------------------------------------------------- the terminal

  function BeginTerminal(s: State, cs: seq<Command>, markerTaken: bool): State {
    var s1 := AcceptCommands(Note(s.(terminalAsked := true, updatesDrained := false), TerminalAsked), cs);
    if markerTaken && s1.reportsOpen then s1 else s1.(terminalReady := true)
  }

  predicate HasPendingSteer(q: seq<Entry>) {
    exists e :: e in q && e.kind.Steer?
  }

  predicate HasPositive(q: seq<Entry>) {
    exists e :: e in q && e.sequence != 0
  }

  function RequestBarrier(s: State, sequence: nat, barrierTakes: bool): State {
    if !s.hasBarrier then s.(barrierFence := true)
    else if sequence != 0 && sequence <= s.barrierCompleted then s
    else if sequence == 0 && s.barrierFence then s
    else if s.barrierBusy then s
    else s.(barrierBusy := barrierTakes)
  }

  function MaybePromptBarrier(s: State, barrierTakes: bool): State {
    if s.prompt.None? || !s.terminalAsked || !s.terminalReady || s.promptBarrierRequested
       || s.steers != [] || HasPendingSteer(s.pending)
    then s
    else RequestBarrier(s.(promptBarrierRequested := true), s.prompt.value, barrierTakes)
  }

  // ---------------------------------------------------------------- emitting

  /** The candidate among the first `n`: the first with the least sequence, else the first without one. */
  function BestOf(q: seq<Entry>, n: nat): (best: int)
    requires n <= |q|
    ensures -1 <= best < n && (best == -1 <==> n == 0)
  {
    if n == 0 then -1
    else
      var best := BestOf(q, n - 1);
      var c := q[n - 1];
      if c.sequence == 0 then (if best < 0 then n - 1 else best)
      else if best < 0 || q[best].sequence == 0 || c.sequence < q[best].sequence then n - 1
      else best
  }

  /** The local key, on the observation and on its reply. */
  function WithLocalOrder(e: Entry, order: nat): Entry {
    match e.kind
    case Steer(_) =>
      e.(order := order,
         seen := e.seen.(result := e.seen.result.(orderSequence := order)),
         answer := e.answer.(result := e.answer.result.(orderSequence := order)))
    case _ => e.(order := order)
  }

  /** emitObservation: a steering observation is followed by its reply, then its slot is free. */
  function EmitObservation(s: State, e: Entry): State {
    var s1 := Note(s, Emitted(e));
    match e.kind
    case Steer(id) => Note(s1, Answered(id, e.answer)).(released := s.released + {id})
    case _ => s1
  }

  function Max(a: nat, b: nat): nat {
    if a > b then a else b
  }

  function EmitRaw(s: State, i: nat): State
    requires i < |s.pending|
  {
    var e := s.pending[i];
    var rest := s.pending[..i] + s.pending[i + 1..];
    EmitObservation(s.(pending := rest, lastRaw := e.sequence, lastOrder := Max(s.lastOrder, e.sequence)), e)
  }

  function EmitLocal(s: State, i: nat): State
    requires i < |s.pending|
  {
    var order := Max(s.lastOrder, s.lastRaw) + 1;
    EmitObservation(s.(pending := s.pending[..i] + s.pending[i + 1..], lastOrder := order),
                    WithLocalOrder(s.pending[i], order))
  }

  /** The state, and whether the loop starts over. */
  datatype Emission = Emission(s: State, again: bool)

  function TryEmit(s: State, barrierTakes: bool, attempts: map<nat, Admission>): Emission {
    if s.pending == [] then Emission(s, false)
    else
      var i := BestOf(s.pending, |s.pending|);
      var e := s.pending[i];
      if e.sequence != 0 then
        if e.sequence < s.lastRaw then Emission(FailSequence(s, attempts), true)
        else if !e.kind.Update? && e.sequence > s.barrierCompleted then
          Emission(RequestBarrier(s, e.sequence, barrierTakes), false)
        else if e.kind.Update? && s.steers != [] then Emission(s, false)
        else Emission(EmitRaw(s, i), true)
      else
        if HasPositive(s.pending) || s.steers != [] then Emission(s, false)
        else if s.prompt.Some? && !s.barrierFence then Emission(RequestBarrier(s, 0, barrierTakes), false)
        else Emission(EmitLocal(s, i), true)
  }

  // ---------------------------------------------------------------- sequence regression

  function Flush(s: State, e: Entry): State {
    match e.kind
    case Steer(id) => Note(Note(s, Flushed(e)), Answered(id, e.answer)).(released := s.released + {id})
    case _ => s
  }

  /** The observation of a steering call the regression leaves unanswered. */
  function Failure(id: nat, attempts: map<nat, Admission>): Entry {
    var reply := Reply(LateResult(if id in attempts then attempts[id] else Pending), true);
    Entry(0, Steer(id), 0, 0, reply, reply)
  }

  function FlushSteers(s: State, ids: seq<nat>, attempts: map<nat, Admission>): State
    decreases |ids|
  {
    if ids == [] then s else FlushSteers(Flush(s.(steers := ids[1..]), Failure(ids[0], attempts)), ids[1..], attempts)
  }

  function FlushPending(s: State, q: seq<Entry>): State
    decreases |q|
  {
    if q == [] then s else FlushPending(Flush(s.(pending := q[1..]), q[0]), q[1..])
  }

  function FailSequence(s: State, attempts: map<nat, Admission>): State {
    if s.failed then s
    else Note(FlushPending(FlushSteers(s.(failed := true, steeringOff := true), s.steers, attempts), s.pending), Broke)
  }

  // ---------------------------------------------------------------- the loop

  function Owner(e: Entry): set<nat> {
    if e.kind.Steer? then {e.kind.owner} else {}
  }

  function Owners(q: seq<Entry>): set<nat> {
    if q == [] then {} else Owners(q[..|q| - 1]) + Owner(q[|q| - 1])
  }

  function SetOf(ids: seq<nat>): set<nat> {
    set id | id in ids
  }

  /** The loop returns; the deferred releaseReservations drops whatever was still held. */
  function Leave(s: State, exit: Exit): State {
    s.(exit := exit, released := s.released + Owners(s.pending) + SetOf(s.steers), pending := [], steers := [])
  }

  predicate TerminalDue(s: State) {
    && s.prompt.Some? && s.terminalAsked && s.terminalReady && s.updatesDrained
    && s.steers == [] && s.pending == [] && !s.barrierBusy
  }

  function QueuePrompt(s: State): State {
    if s.prompt.Some? && s.terminalAsked && s.updatesDrained && !s.promptQueued
    then Enqueue(s, Prompt, s.prompt.value, SILENCE).(promptQueued := true)
    else s
  }

  function TakeBarrierResult(s: State, sequence: nat, d: Drained): State {
    var s1 := Note(s.(barrierBusy := false, barrierCompleted := Max(s.barrierCompleted, sequence),
                      barrierFence := s.barrierFence || sequence == 0), Fence(sequence));
    if s1.prompt.Some? && s1.terminalAsked then DrainUpdates(s1, d) else s1
  }

  function Select(s: State, p: Pass): State {
    match p.pick
    case UpdateReady(u) => if s.updatesOpen then AcceptUpdate(s, u) else s
    case UpdatesClosed => s.(updatesOpen := false)
    case CommandReady(c) => AcceptCommand(s, c)
    case PromptReady(sequence) => if s.prompt.None? then Note(s.(prompt := Some(sequence)), Arrived(sequence)) else s
    case ReportReady(r) => if s.reportsOpen then AcceptReport(s, r, p.barrierTakes) else s
    case ReportsClosed => s.(reportsOpen := false)
    case BarrierReady(sequence) => if s.hasBarrier then TakeBarrierResult(s, sequence, p.drainedAfter) else s
    case BarrierClosed => s.(hasBarrier := false, barrierBusy := false)
    case ShuttingDown => Leave(s, ByShutdown)
  }

  /** Queued commands are taken, then the terminal is begun and its barrier requested when due. */
  function Prepare(s: State, p: Pass): State {
    var s1 := AcceptCommands(s, p.queued);
    var s2 := if s1.prompt.Some? && !s1.terminalAsked then BeginTerminal(s1, p.queuedAtTerminal, p.markerTaken) else s1;
    MaybePromptBarrier(s2, p.barrierTakes)
  }

  predicate MustDrain(s: State) {
    s.prompt.Some? && s.terminalAsked && s.promptBarrierRequested && !s.barrierBusy && !s.updatesDrained
  }

  /** The rest of an iteration, once nothing is left to drain. */
  function Advance(s: State, p: Pass): State {
    var e := TryEmit(QueuePrompt(s), p.barrierTakes, p.attempts);
    if e.again then e.s
    else if TerminalDue(e.s) then Leave(Note(e.s, Finished), ByTerminal)
    else Select(e.s, p)
  }

  function Trip(s: State, p: Pass): State {
    if s.exit != Running then s
    else if p.shutdown then Leave(s, ByShutdown)
    else if s.failed then Leave(s, ByRegression)
    else
      var s1 := Prepare(s, p);
      if MustDrain(s1) then
        var s2 := DrainUpdates(s1, p.drained);
        if !s2.updatesDrained then s2 else Advance(s2, p)
      else
        Advance(s1, p)
  }
}
