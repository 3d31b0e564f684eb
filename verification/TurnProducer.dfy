/**
  The producer of one turn (backend/turn.go, driveTurnToSink): it holds the session lock, drains
  the driver's stream into the actor's mailbox, commits the transcript and hands over the
  terminal. The n-th item handed to the sink is accepted or refused as `sink` says; the n-th lock
  asked for is granted or not as `locks` says.
 */
module TurnProducerModel {
  import opened Options

  datatype Ev = TurnDone | TurnFailed | SessionBound(sid: nat) | StepDone(messages: seq<nat>) | Mapped
  {
    predicate Terminal() {
      TurnDone? || TurnFailed?
    }
  }

  /** One mailbox item: the observation it comes from, by its place in the stream, and an event. */
  datatype Item = Item(raw: Option<nat>, event: Option<Ev>)

  datatype DriverEvent =
    | Init(sid: Option<nat>)
    | StepComplete(message: Option<nat>)
    | TerminalOK(message: Option<nat>)
    | TerminalError
    | Content(maps: bool)

  datatype Observed = Update(event: DriverEvent) | Prompt(message: Option<nat>, failed: bool) | Steer | Unknown

  datatype Stream = Ordered(observations: seq<Observed>) | Legacy(events: seq<DriverEvent>)

  datatype Lock = Temporary | Durable(sid: nat)

  datatype Outcome = Outcome(committed: seq<nat>, success: bool, interrupted: bool, spawned: bool,
                             boundSid: Option<nat>)

  datatype Deed =
    | Asked(lock: Lock, granted: bool)
    | Released(lock: Lock)
    | Spawned(ok: bool)
    | Handed(item: Item, ok: bool)
    | Sent(outcome: Outcome)

  datatype Trace = Start | Then(past: Trace, deed: Deed)

  datatype Env = Env(
    sink: nat -> bool, locks: nat -> bool, sidBound: bool, sid: nat,
    spawns: bool, stream: Stream, closeFails: bool, canceled: bool, history: Option<seq<seq<nat>>>)

  /** What a drain gathers, the lock the turn holds, and what was done. */
  datatype State = State(
    assistant: seq<nat>, boundSid: Option<nat>, termErr: bool, bindErr: bool, terminal: bool, stopped: bool,
    lock: Option<Lock>, handed: nat, asked: nat, trace: Trace)

  const FRESH := State([], None, false, false, false, false, None, 0, 0, Start)

  function Note(s: State, d: Deed): State {
    s.(trace := Then(s.trace, d))
  }

  /** A new state and whether the sink accepted, or the operation may go on. */
  datatype Did = Did(s: State, ok: bool)

  function Hand(env: Env, s: State, item: Item): Did {
    var ok := env.sink(s.handed);
    Did(Note(s.(handed := s.handed + 1), Handed(item, ok)), ok)
  }

  function Ask(env: Env, s: State, lock: Lock): Did {
    var ok := env.locks(s.asked);
    Did(Note(s.(asked := s.asked + 1), Asked(lock, ok)), ok)
  }

  /** bindSID: the durable lock is taken before the one held is let go. */
  function Bind(env: Env, s: State, sid: nat): Did {
    var d := Ask(env, s, Durable(sid));
    if !d.ok then d
    else if d.s.lock.Some? then Did(Note(d.s, Released(d.s.lock.value)).(lock := Some(Durable(sid))), true)
    else Did(d.s.(lock := Some(Durable(sid))), true)
  }

  function Append(messages: seq<nat>, m: Option<nat>): seq<nat> {
    if m.Some? then messages + [m.value] else messages
  }

  /** consumeDriverEvent; `ok` is whether the drain goes on. */
  function Consume(env: Env, s: State, e: DriverEvent, raw: Option<nat>): Did {
    match e
    case Init(sid) =>
      if s.terminal || sid.None? || env.sidBound || s.boundSid.Some? then Did(s, true)
      else
        var b := Bind(env, s.(boundSid := sid), sid.value);
        var h := Hand(env, b.s, Item(raw, Some(SessionBound(sid.value))));
        if h.ok && !b.ok then Did(h.s.(bindErr := true), true) else h
    case StepComplete(m) => Did(s.(assistant := Append(s.assistant, m)), true)
    case TerminalOK(m) => Did(s.(terminal := true, assistant := Append(s.assistant, m)), true)
    case TerminalError => Did(s.(terminal := true, termErr := true), true)
    case Content(maps) => if maps then Hand(env, s, Item(raw, Some(Mapped))) else Did(s, true)
  }

  /** An update that yields no event of its own is handed over bare. */
  function DrainUpdate(env: Env, s: State, e: DriverEvent, at: nat): Did {
    var d := Consume(env, s, e, Some(at));
    if !d.ok || d.s.handed > s.handed then d else Hand(env, d.s, Item(Some(at), None))
  }

  function DrainObservation(env: Env, s: State, o: Observed, at: nat): Did {
    match o
    case Update(e) => DrainUpdate(env, s, e, at)
    case Prompt(m, failed) =>
      Hand(env, s.(terminal := true, termErr := failed, assistant := Append(s.assistant, m)), Item(Some(at), None))
    case Steer => Hand(env, s, Item(Some(at), None))
    case Unknown => Did(s, true)
  }

  /** validateDrainedTurn. */
  function Validated(env: Env, s: State): State {
    if s.bindErr then s
    else if !env.sidBound && s.boundSid.None? then s.(termErr := true)
    else if !s.terminal then s.(termErr := true)
    else s
  }

  function DrainOrdered(env: Env, s: State, os: seq<Observed>, at: nat): State
    decreases |os|
  {
    if os == [] then Validated(env, s)
    else
      var d := DrainObservation(env, s, os[0], at);
      if d.ok then DrainOrdered(env, d.s, os[1..], at + 1) else d.s.(stopped := true)
  }

  function DrainLegacy(env: Env, s: State, es: seq<DriverEvent>): State
    decreases |es|
  {
    if es == [] then Validated(env, s)
    else
      var d := Consume(env, s, es[0], None);
      if d.ok then DrainLegacy(env, d.s, es[1..]) else d.s.(stopped := true)
  }

  function Drain(env: Env, s: State): State {
    match env.stream
    case Ordered(os) => DrainOrdered(env, s, os, 0)
    case Legacy(es) => DrainLegacy(env, s, es)
  }

  function Singly(messages: seq<nat>): seq<seq<nat>> {
    if messages == [] then [] else [[messages[0]]] + Singly(messages[1..])
  }

  datatype Commit = Commit(s: State, committed: seq<nat>)

  /** commitTurnToSink: group by group, until the sink refuses one. */
  function CommitGroups(env: Env, s: State, groups: seq<seq<nat>>, committed: seq<nat>): Commit
    decreases |groups|
  {
    if groups == [] then Commit(s, committed)
    else
      var d := Hand(env, s, Item(None, Some(StepDone(groups[0]))));
      if d.ok then CommitGroups(env, d.s, groups[1..], committed + groups[0]) else Commit(d.s, committed)
  }

  /** The outcome, and the last item. */
  datatype Finished = Finished(s: State, outcome: Outcome)

  function Fail(env: Env, s: State, outcome: Outcome): Finished {
    Finished(Hand(env, s, Item(None, Some(TurnFailed))).s, outcome)
  }

  function FinishTurn(env: Env, s: State): Finished {
    var spawned := env.sidBound || s.boundSid.Some?;
    if s.bindErr then Fail(env, s, Outcome([], false, false, spawned, s.boundSid))
    else if env.canceled then Finished(s, Outcome([], false, true, spawned, s.boundSid))
    else
      var c := CommitGroups(env, s, if env.history.Some? then env.history.value else Singly(s.assistant), []);
      if c.s.termErr || env.closeFails then Fail(env, c.s, Outcome(c.committed, false, false, spawned, s.boundSid))
      else
        Finished(Hand(env, c.s, Item(None, Some(TurnDone))).s, Outcome(c.committed, true, false, spawned, s.boundSid))
  }

  /** The deferred end: the lock held now is let go, then the outcome is sent. */
  function Close(f: Finished): State {
    if f.s.lock.Some? then Note(Note(f.s, Released(f.s.lock.value)), Sent(f.outcome)) else Note(f.s, Sent(f.outcome))
  }

  const NO_OUTCOME := Outcome([], false, false, false, None)

  /** driveTurnToSink. */
  function Drive(env: Env): State {
    var lock := if env.sidBound then Durable(env.sid) else Temporary;
    var a := Ask(env, FRESH, lock);
    if !a.ok then Close(Fail(env, a.s, NO_OUTCOME))
    else
      var s := Note(a.s.(lock := Some(lock)), Spawned(env.spawns));
      if !env.spawns then Close(Fail(env, s, NO_OUTCOME)) else Close(FinishTurn(env, Drain(env, s)))
  }
}
