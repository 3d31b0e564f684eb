/**
  The backend actor while a turn runs (backend/turn.go): `awaitTurn`, the command handling and the
  cancellation drains around the steering machine. `Trip` is one iteration of its loop. A
  cancellation drain is given as the rounds it goes through; if they run out before the drain
  returns, the run is cut short there.
 */
module TurnActorModel {
  import opened Options
  import opened DriverContract
  import opened Calls
  import S = SteeringModel
  import R = SteeringRuns

  datatype Ev = Done | Failed | Interrupted | Plain | Bound | Cancelled(id: nat) | Rejected(id: nat)
  {
    predicate Terminal() {
      Done? || Failed? || Interrupted?
    }
  }

  datatype Raw = NoRaw | RawSteer(tag: nat, result: SteerResult, err: CallError) | RawPrompt | RawUpdate

  /** One mailbox item: an ordered observation, an event derived from it, or both. */
  datatype Observation = Observation(raw: Raw, event: Option<Ev>)

  datatype TurnOutcome = TurnOutcome(success: bool, interrupted: bool)

  /** Where a published event comes from: the mailbox while the turn runs or is drained, or the actor itself. */
  datatype Source = FromTurn | FromDrain | Own

  /** A checked publication, and whether steering was settled when it was made. */
  datatype Publication = Publication(event: Ev, ok: bool, settled: bool, origin: Source)

  /**
    What the actor was given: the events taken from the mailbox while the turn ran and while it was
    drained, in order; the held terminals another one took the place of; whether one was ever held,
    and whether a drain began.
   */
  datatype Book = Book(seen: seq<Ev>, late: seq<Ev>, replaced: seq<Ev>, held: bool, drained: bool)

  const EMPTY_BOOK := Book([], [], [], false, false)

  /** `pubs` answers the n-th checked publication; `active` is the command the turn runs for. */
  datatype Env = Env(world: World, pubs: nat -> bool, capacity: nat, active: nat)

  /** `events` are the machine's events so far, in order. */
  datatype State = State(
    m: S.State, events: seq<R.Event>, hold: Option<Ev>, outcome: Option<TurnOutcome>, resultOpen: bool,
    mailboxOpen: bool,
    published: seq<Publication>, exit: Option<bool>, cut: bool, book: Book)

  /** A new state and whether the operation returned an error. */
  datatype Did = Did(s: State, err: bool)

  datatype Evidence =
    | ResultArrives(outcome: TurnOutcome)
    | MailboxCloses
    | Seen(observation: Observation)
    | Completes(serial: nat, result: SteerResult, err: CallError)

  datatype Wait =
    | Fact(evidence: Evidence)
    | TerminalFires(ready: seq<Evidence>)
    | DeadlineFires(ready: seq<Evidence>)
    | OutcomeWaitFires

  /** One round of a cancellation drain: what is ready, then what its select takes. */
  datatype Round = Round(ready: seq<Evidence>, next: Wait)

  datatype Command =
    | UserInput(input: S.Input, prepared: bool)
    | CancelDelegate(target: nat, rounds: seq<Round>)
    | Interrupt(rounds: seq<Round>)
    | ShutDown(rounds: seq<Round>)
    | OtherCommand

  datatype Pick =
    | Result(outcome: TurnOutcome, rest: seq<Observation>)
    | StreamReady(ordered: bool)
    | Arrives(evidence: Evidence)
    | TerminalClock(ready: seq<Evidence>)
    | DeadlineClock(ready: seq<Evidence>)
    | Ordered(command: Command)
    | LoopDone(rounds: seq<Round>)

  function Begin(hasHook: bool, hasSteerer: bool, queued: seq<S.Input>): State {
    State(S.Fresh(hasHook, hasSteerer, queued), [], None, None, true, true, [], None, false, EMPTY_BOOK)
  }

  predicate Settled(m: S.State) {
    !S.MustHold(m) && m.pending == []
  }

  function Publish(env: Env, s: State, ev: Ev, origin: Source): Did {
    var ok := env.pubs(|s.published|);
    Did(s.(published := s.published + [Publication(ev, ok, Settled(s.m), origin)]), !ok)
  }

  /** An event of the machine, with its error. */
  function Lift(env: Env, s: State, e: R.Event): Did {
    var r := R.StepRet(env.world, s.m, e);
    Did(s.(m := r.s, events := s.events + [e]), r.err)
  }

  /** cancelPending: the head leaves the queue only once its cancellation is published. */
  function CancelPending(env: Env, s: State): Did
    decreases |s.m.loopPending|
  {
    if s.m.loopPending == [] then Did(s, false)
    else
      var d := Publish(env, s, Cancelled(s.m.loopPending[0].id), Own);
      if d.err then d else CancelPending(env, Lift(env, d.s, R.QueueRemove(0)).s)
  }

  function Observe(env: Env, s: State, raw: Raw): Did {
    match raw
    case RawSteer(tag, result, err) => Lift(env, s, R.SteerSeen(tag, result, err))
    case RawPrompt => Lift(env, s, R.PromptSeen)
    case _ => Did(s, false)
  }

  function Booked(b: Book, ev: Option<Ev>, publish: bool): Book {
    if ev.None? then b else if publish then b.(seen := b.seen + [ev.value]) else b.(late := b.late + [ev.value])
  }

  /** processTurnOutcomeObservation; a drain (`publish` false) keeps no held terminal. */
  function Process(env: Env, s: State, o: Observation, publish: bool): Did {
    var d := Observe(env, s.(book := Booked(s.book, o.event, publish)), o.raw);
    if d.err || o.event.None? then d
    else if o.event.value.Terminal() then ProcessTerminal(env, d.s, o.event.value, publish)
    else if publish || o.event.value.Bound? then
      Publish(env, d.s, o.event.value, if publish then FromTurn else FromDrain)
    else d
  }

  function ProcessTerminal(env: Env, s: State, ev: Ev, publish: bool): Did {
    var d := Lift(env, s, R.TerminalEvent);
    if d.err then d
    else if S.MustHold(d.s.m) then (if publish then Did(Hold(d.s, ev), false) else d)
    else if publish then Publish(env, d.s, ev, FromTurn)
    else d
  }

  /** The terminal is held, in the place of one held before. */
  function Hold(s: State, ev: Ev): State {
    var replaced := s.book.replaced + if s.hold.Some? then [s.hold.value] else [];
    s.(hold := Some(ev), book := s.book.(replaced := replaced, held := true))
  }

  function ProcessAll(env: Env, s: State, os: seq<Observation>): Did
    decreases |os|
  {
    if os == [] then Did(s, false)
    else
      var d := Process(env, s, os[0], true);
      if d.err then d else ProcessAll(env, d.s, os[1..])
  }

  /** One piece of evidence; `capture` says whether an outcome is kept, `publish` whether the turn still runs. */
  function Take(env: Env, s: State, e: Evidence, publish: bool, capture: bool): Did {
    match e
    case ResultArrives(outcome) =>
      if !capture then Did(s, false)
      else if publish && s.resultOpen && s.outcome.None?
        then Did(s.(outcome := Some(outcome), resultOpen := false), false)
      else Did(s.(resultOpen := false), false)
    case MailboxCloses => Did(s.(mailboxOpen := false), false)
    case Seen(o) => Process(env, s, o, publish)
    case Completes(serial, result, err) => Lift(env, s, R.Completion(serial, result, err))
  }

  function TakeAll(env: Env, s: State, es: seq<Evidence>, publish: bool, capture: bool): Did
    decreases |es|
  {
    if es == [] then Did(s, false)
    else
      var d := Take(env, s, es[0], publish, capture);
      if d.err then d else TakeAll(env, d.s, es[1..], publish, capture)
  }

  // ---------------------------------------------------------------- leaving the turn

  /** Every return shuts the machine down and cleans it up. */
  function Leave(env: Env, s: State, exit: bool): State {
    var d := Lift(env, s, R.ShuttingDown);
    d.s.(m := S.Cleanup(d.s.m), exit := Some(exit))
  }

  function OrLeave(env: Env, d: Did): State {
    if d.err then Leave(env, d.s, true) else d.s
  }

  /** The last part of a turn that ran to its outcome. */
  function Conclude(env: Env, s: State, o: TurnOutcome): State {
    var d := if o.interrupted then Publish(env, s, Interrupted, Own) else Did(s, false);
    if d.err then Leave(env, d.s, true)
    else
      var c := if !o.success && !o.interrupted then CancelPending(env, d.s) else d;
      var r := Lift(env, c.s, R.ShuttingDown);
      Leave(env, r.s, c.err || r.err)
  }

  /** A held terminal is published, and the turn concluded, once steering is settled. */
  function Head(env: Env, s: State): State {
    if !S.TerminalReady(s.m) then s
    else
      var d := if s.hold.Some? then Publish(env, s, s.hold.value, FromTurn) else Did(s, false);
      if d.err then Leave(env, d.s, true)
      else
        var t := d.s.(hold := None);
        if t.outcome.Some? then Conclude(env, t, t.outcome.value) else t
  }

  // ---------------------------------------------------------------- the cancellation drain

  /** The drain's state, whether it failed, and whether it returned. */
  datatype Drained = Drained(s: State, err: bool, returned: bool)

  predicate DrainDone(s: State, wait: bool) {
    S.TerminalReady(s.m) && (!wait || (!s.resultOpen && !s.mailboxOpen))
  }

  /** What the select of a round takes; a clock that is not armed does not fire. */
  function Await(env: Env, s: State, next: Wait, capture: bool): Did {
    match next
    case Fact(e) => Take(env, s, e, false, capture)
    case TerminalFires(ready) =>
      if s.m.timer.None? then Did(s, false)
      else
        var d := TakeAll(env, s, ready, false, capture);
        if d.err || d.s.m.active.None? then d else Lift(env, d.s, R.TerminalClock)
    case DeadlineFires(ready) =>
      if s.m.deadlineTimer.None? then Did(s, false)
      else
        var d := TakeAll(env, s, ready, false, capture);
        if d.err || d.s.m.active.None? then d else Lift(env, d.s, R.DeadlineClock)
    case OutcomeWaitFires => Did(s, false)
  }

  function Rounds(env: Env, s: State, rounds: seq<Round>, wait: bool, capture: bool): Drained
    decreases |rounds|
  {
    if rounds == [] then Drained(s, false, false)
    else
      var d := TakeAll(env, s, rounds[0].ready, false, capture);
      if d.err then Drained(d.s, true, true)
      else if DrainDone(d.s, wait) || (wait && rounds[0].next.OutcomeWaitFires?) then Drained(d.s, false, true)
      else
        var a := Await(env, d.s, rounds[0].next, capture);
        if a.err then Drained(a.s, true, true) else Rounds(env, a.s, rounds[1..], wait, capture)
  }

  /** drainSteeringShutdownWithOutcome: it waits for the turn's outcome only if no steering is under way. */
  function Drain(env: Env, s: State, rounds: seq<Round>, capture: bool): Drained {
    var d := Lift(env, s.(book := s.book.(drained := true)), R.TerminalEvent);
    if d.err then Drained(d.s, true, true)
    else Rounds(env, d.s, rounds, d.s.m.active.None? && !d.s.m.disabled, capture)
  }

  // ---------------------------------------------------------------- commands

  function AcceptInput(env: Env, s: State, input: S.Input, prepared: bool): State {
    if |s.m.loopPending| + S.PendingCount(s.m) >= env.capacity then
      OrLeave(env, Publish(env, s, Rejected(input.id), Own))
    else if !prepared then s
    else
      var d := Lift(env, s, R.InputOffered(input));
      if S.IsCandidate(s.m, input) then OrLeave(env, d) else Lift(env, d.s, R.QueueAppend(input)).s
  }

  /** The first queued input with this id; its length if there is none. */
  function Find(q: seq<S.Input>, id: nat): (i: nat)
    ensures i <= |q| && (i < |q| ==> q[i].id == id) && forall k :: 0 <= k < i ==> q[k].id != id
  {
    if q == [] then 0 else if q[0].id == id then 0 else 1 + Find(q[1..], id)
  }

  /** The turn is canceled: its steering is drained, it is interrupted, and what is queued may be canceled. */
  function CancelTurn(env: Env, s: State, rounds: seq<Round>, queueToo: bool): State {
    var d := Drain(env, s, rounds, true);
    if !d.returned then d.s.(cut := true)
    else if d.err then Leave(env, d.s, true)
    else
      var p := Publish(env, d.s, Interrupted, Own);
      if p.err then Leave(env, p.s, true)
      else
        var c := if queueToo then CancelPending(env, p.s) else p;
        Leave(env, c.s, c.err)
  }

  /** The loop shuts down; `queueToo` on command, not when its context is done. */
  function StopTurn(env: Env, s: State, rounds: seq<Round>, queueToo: bool): State {
    var d := Drain(env, s, rounds, false);
    if !d.returned then d.s.(cut := true)
    else if d.err then Leave(env, d.s, true)
    else
      var r := Lift(env, d.s, R.ShuttingDown);
      if r.err || !queueToo then Leave(env, r.s, true) else Leave(env, CancelPending(env, r.s).s, true)
  }

  function CancelQueued(env: Env, s: State, i: nat): State
    requires i < |s.m.loopPending|
  {
    var d := Publish(env, s, Cancelled(s.m.loopPending[i].id), Own);
    if d.err then Leave(env, d.s, true)
    else Lift(env, d.s, R.QueueRemove(i)).s
  }

  function Handle(env: Env, s: State, c: Command): State {
    match c
    case UserInput(input, prepared) => AcceptInput(env, s, input, prepared)
    case CancelDelegate(target, rounds) =>
      var i := Find(s.m.loopPending, target);
      if i < |s.m.loopPending| then CancelQueued(env, s, i)
      else if target != env.active then s
      else CancelTurn(env, s, rounds, false)
    case Interrupt(rounds) => CancelTurn(env, s, rounds, true)
    case ShutDown(rounds) => StopTurn(env, s, rounds, true)
    case OtherCommand => s
  }

  // ---------------------------------------------------------------- the loop

  /** Which attempt and which timer a clock was armed for. */
  function ActiveSerial(m: S.State): Option<nat> {
    if m.active.Some? then Some(m.active.value.serial) else None
  }

  /** A clock fires: evidence that is already there goes first, and a clock it made stale does nothing. */
  function Fire(env: Env, s: State, ready: seq<Evidence>, deadline: bool): Did {
    var d := TakeAll(env, s, ready, true, true);
    if d.err then d
    else if ActiveSerial(d.s.m) != ActiveSerial(s.m) then d
    else if deadline then
      (if d.s.m.deadlineTimer != s.m.deadlineTimer then d else Lift(env, d.s, R.DeadlineClock))
    else
      (if d.s.m.timer != s.m.timer then d else Lift(env, d.s, R.TerminalClock))
  }

  function Select(env: Env, s: State, p: Pick): State {
    match p
    case Result(outcome, rest) =>
      if !s.resultOpen then s
      else
        var t := s.(outcome := Some(outcome), resultOpen := false);
        if !s.mailboxOpen then t else OrLeave(env, ProcessAll(env, t.(mailboxOpen := false), rest))
    case StreamReady(ordered) => OrLeave(env, Lift(env, s, R.StreamReady(ordered)))
    case Arrives(e) => if e.ResultArrives? then s else OrLeave(env, Take(env, s, e, true, true))
    case TerminalClock(ready) => if s.m.timer.None? then s else OrLeave(env, Fire(env, s, ready, false))
    case DeadlineClock(ready) => if s.m.deadlineTimer.None? then s else OrLeave(env, Fire(env, s, ready, true))
    case Ordered(c) => if s.outcome.Some? then s else Handle(env, s, c)
    case LoopDone(rounds) => StopTurn(env, s, rounds, false)
  }

  function Trip(env: Env, s: State, p: Pick): State {
    if s.exit.Some? || s.cut then s
    else
      var t := Head(env, s);
      if t.exit.Some? then t else Select(env, t, p)
  }

  function RunOf(env: Env, s: State, picks: seq<Pick>): State
    decreases |picks|
  {
    if picks == [] then s else RunOf(env, Trip(env, s, picks[0]), picks[1..])
  }
}
