/**
  The calls a turn makes on its environment, in the order they are made, and the environment's
  answers. A world is any function from what has happened so far to the answer of the next
  checked call, so quantifying over worlds covers every adaptive success/failure behaviour of
  the delivery hook and the checked publisher.
 */
module Calls {
  datatype Resolution = Unknown | Untrackable

  datatype Call =
    | Reserve(id: nat, ok: bool)
    | StartSteer(id: nat, serial: nat)
    | CancelSteer(serial: nat)
    | Fallback(id: nat, ok: bool)
    | PublishQueued(id: nat)
    | PublishFold(id: nat, ok: bool)
    | ResolveInjected(id: nat, ok: bool)
    | ResolveOther(id: nat, state: Resolution, ok: bool)

  datatype Log = Start | Then(past: Log, call: Call)

  type World = Log -> bool

  predicate Failed(c: Call) {
    match c
    case Reserve(_, ok) => !ok
    case Fallback(_, ok) => !ok
    case PublishFold(_, ok) => !ok
    case ResolveInjected(_, ok) => !ok
    case ResolveOther(_, _, ok) => !ok
    case _ => false
  }

  /** The requests whose delivery the call durably decided (at most one). */
  function Decides(c: Call): set<nat> {
    match c
    case Fallback(id, ok) => if ok then {id} else {}
    case ResolveInjected(id, ok) => if ok then {id} else {}
    case ResolveOther(id, _, ok) => if ok then {id} else {}
    case _ => {}
  }

  /** The requests whose delivery was durably decided. */
  function Decided(log: Log): set<nat> {
    if log.Start? then {} else Decided(log.past) + Decides(log.call)
  }

  /** How many durable decisions the log holds for request `id`. */
  function Decisions(log: Log, id: nat): nat {
    if log.Start? then 0 else Decisions(log.past, id) + if id in Decides(log.call) then 1 else 0
  }

  /** The requests given to Reserve, whatever the answer. */
  function Asked(log: Log): set<nat> {
    if log.Start? then {} else Asked(log.past) + if log.call.Reserve? then {log.call.id} else {}
  }

  /** The requests whose reservation was granted. */
  function Granted(log: Log): set<nat> {
    if log.Start? then {} else Granted(log.past) + if log.call.Reserve? && log.call.ok then {log.call.id} else {}
  }

  /** The requests durably resolved injected. */
  function InjectedIds(log: Log): set<nat> {
    if log.Start? then {}
    else InjectedIds(log.past) + if log.call.ResolveInjected? && log.call.ok then {log.call.id} else {}
  }

  /** The requests whose fold into the turn was published. */
  function FoldedIds(log: Log): set<nat> {
    if log.Start? then {} else FoldedIds(log.past) + if log.call.PublishFold? && log.call.ok then {log.call.id} else {}
  }

  /** No checked call failed. */
  predicate Faultless(log: Log) {
    log.Then? ==> !Failed(log.call) && Faultless(log.past)
  }

  /** No delivery was found untrackable. */
  predicate Trackable(log: Log) {
    log.Then? ==> !(log.call.ResolveOther? && log.call.state.Untrackable?) && Trackable(log.past)
  }

  /** Some request went to the normal queue, some delivery is not known to be injected, or a call failed. */
  predicate Closed(log: Log) {
    log.Then? && (log.call.Fallback? || log.call.ResolveOther? || Failed(log.call) || Closed(log.past))
  }

  /** What the delivery protocol allows as the next call after `past`. */
  predicate Legal(past: Log, c: Call) {
    match c
    case Reserve(id, _) =>
      && !Closed(past)
      && Asked(past) <= InjectedIds(past)
      && (forall k :: k in Asked(past) ==> k < id)
      && id !in Decided(past)
    case StartSteer(id, _) => past.Then? && past.call == Reserve(id, true)
    case Fallback(id, _) => id !in Decided(past)
    case PublishQueued(id) => past.Then? && past.call == Fallback(id, true)
    case PublishFold(id, _) => id in Granted(past) && id !in Decided(past)
    case ResolveInjected(id, _) =>
      past.Then? && past.call == PublishFold(id, true) && id in Granted(past) && id !in Decided(past)
    case ResolveOther(id, _, _) => id in Granted(past) && id !in Decided(past)
    case CancelSteer(_) => true
  }

  /** The last request sent to the normal queue without ever being reserved; -1 if there is none. */
  function LastUnreserved(log: Log): int {
    if log.Start? then -1
    else if log.call.Fallback? && log.call.id !in Asked(log.past) then log.call.id
    else LastUnreserved(log.past)
  }

  /** Requests that were never reserved reached the normal queue in the order they were accepted. */
  predicate UnreservedInOrder(log: Log) {
    log.Then? ==>
      && (log.call.Fallback? && log.call.id !in Asked(log.past) ==> LastUnreserved(log.past) < log.call.id)
      && UnreservedInOrder(log.past)
  }

  /** No checked call failed and no delivery was untrackable. */
  predicate Clean(log: Log) {
    Faultless(log) && Trackable(log)
  }

  /** Every call in the log was allowed when it was made. */
  predicate Protocol(log: Log) {
    log.Then? ==> Legal(log.past, log.call) && Protocol(log.past)
  }
}

/**
  The steering machine of one turn (backend/steering.go) as functions from state to state.
  `SteeringMachine` is the same machine as an object that updates its fields; its methods are
  verified against these functions.
 */
module SteeringModel {
  import opened Options
  import opened DriverContract
  import opened Calls

  /** A request accepted by the actor. `id` stands for its command id; ids grow in order of acceptance. */
  datatype Input = Input(id: nat, machineAgency: bool, targetsLoop: bool, deliveryIntent: bool, blocksValid: bool)

  datatype Attempt = Attempt(
    input: Input, serial: nat,
    done: bool, seen: bool, resolved: bool, deadlineExpired: bool, writerAdmitted: bool,
    result: SteerResult, err: CallError)

  datatype Disposition = AsFallback | AsInjected | AsUnknown | AsUntrackable

  /** The safety bounds of the two clocks: 100 ms once a write is admitted, one second before. */
  datatype Bound = AckTimeout | CallTimeout

  /** A running timer; `stamp` is its identity. */
  datatype Timer = Timer(stamp: nat, bound: Bound)

  datatype State = State(
    hasHook: bool, hasSteerer: bool, ordered: bool, streamKnown: bool,
    active: Option<Attempt>, pending: seq<Input>,
    terminal: bool, disabled: bool, fallbackBarrier: bool, fault: bool,
    timer: Option<Timer>, deadlineTimer: Option<Timer>, timersMade: nat,
    started: nat,
    loopPending: seq<Input>, log: Log)

  /** A new state and whether the operation returned an error. */
  datatype Ret = Ret(s: State, err: bool)

  function Fresh(hasHook: bool, hasSteerer: bool, queued: seq<Input>): State {
    State(hasHook, hasSteerer, false, false, None, [], false, false, false, false, None, None, 0, 0, queued, Start)
  }

  function Note(s: State, c: Call): State {
    s.(log := Then(s.log, c))
  }

  predicate IsCandidate(s: State, input: Input) {
    s.hasHook && input.machineAgency && input.targetsLoop && input.deliveryIntent
  }

  function PendingCount(s: State): nat {
    |s.pending| + if s.active.Some? then 1 else 0
  }

  predicate TerminalReady(s: State) {
    s.fault || ((s.active.None? || s.active.value.resolved) && s.pending == [])
  }

  function QueueFallback(w: World, s: State, input: Input): Ret {
    if !s.hasHook then
      Ret(s, true)
    else
      var ok := w(s.log);
      var s1 := Note(s.(fallbackBarrier := true), Fallback(input.id, ok));
      if !ok then
        Ret(s1, true)
      else
        Ret(Note(s1.(loopPending := s1.loopPending + [input]), PublishQueued(input.id)), false)
  }

  function QueuePending(w: World, s: State): Ret
    decreases |s.pending|
  {
    if s.pending == [] then
      Ret(s, false)
    else
      var r := QueueFallback(w, s.(pending := s.pending[1..]), s.pending[0]);
      if r.err then r else QueuePending(w, r.s)
  }

  function Faulted(r: Ret): Ret {
    if r.err then Ret(r.s.(fault := true), true) else r
  }

  function SetStream(w: World, s: State, ordered: bool): Ret {
    var s1 := s.(ordered := ordered, streamKnown := true);
    if !ordered then Faulted(QueuePending(w, s1)) else Pump(w, s1)
  }

  predicate Blocked(s: State) {
    s.fault || s.disabled || s.fallbackBarrier || s.terminal
  }

  function NewTimer(s: State, bound: Bound): Timer {
    Timer(s.timersMade, bound)
  }

  function StartTerminalTimer(s: State): State {
    if s.timer.None? then
      var bound := if s.active.Some? && s.active.value.writerAdmitted then AckTimeout else CallTimeout;
      s.(timer := Some(NewTimer(s, bound)), timersMade := s.timersMade + 1)
    else
      s
  }

  function NewAttempt(s: State, input: Input): Attempt {
    Attempt(input, s.started, false, false, false, false, false, Local(Absent), NoError)
  }

  /** The deadline timer once one is running, and the timers made by then. */
  function DeadlineOf(s: State): Option<Timer> {
    if s.deadlineTimer.None? then Some(NewTimer(s, CallTimeout)) else s.deadlineTimer
  }

  function TimersWith(s: State): nat {
    if s.deadlineTimer.None? then s.timersMade + 1 else s.timersMade
  }

  /** A granted reservation: the attempt becomes active, its deadline starts, the provider is called. */
  function Begin(s: State): State
    requires s.pending != []
  {
    var next := s.pending[0];
    s.(pending := s.pending[1..],
       active := Some(NewAttempt(s, next)),
       started := s.started + 1,
       deadlineTimer := DeadlineOf(s),
       timersMade := TimersWith(s),
       log := Then(Then(s.log, Reserve(next.id, true)), StartSteer(next.id, s.started)))
  }

  /** A refused reservation: the request is dropped and the machine is faulted. */
  function Refuse(s: State): State
    requires s.pending != []
  {
    Note(s.(pending := s.pending[1..], fault := true), Reserve(s.pending[0].id, false))
  }

  function Pump(w: World, s: State): Ret {
    if Blocked(s) || s.active.Some? || s.pending == [] then Ret(s, s.fault)
    else if w(s.log) then Ret(Begin(s), false)
    else Ret(Refuse(s), true)
  }

  datatype Offered = Offered(handled: bool, ret: Ret)

  function Offer(w: World, s: State, input: Input): Offered {
    if !IsCandidate(s, input) then
      Offered(false, Ret(s, false))
    else if s.loopPending != [] || s.terminal || s.disabled || s.fallbackBarrier || !s.hasSteerer then
      Offered(true, QueueFallback(w, s, input))
    else if !input.blocksValid then
      Offered(true, QueueFallback(w, s, input))
    else if !s.streamKnown then
      Offered(true, Ret(s.(pending := s.pending + [input]), false))
    else if !s.ordered then
      Offered(true, QueueFallback(w, s, input))
    else
      Offered(true, Pump(w, s.(pending := s.pending + [input])))
  }

  /** What an attempt's recorded result and error decide. */
  function Classify(result: SteerResult, err: CallError): Disposition {
    if err != NoError && result.outcome == Absent then
      AsUnknown
    else if !result.Valid() then
      AsUnknown
    else
      match result.outcome
      case Injected => AsInjected
      case FallbackRequired => AsFallback
      case Unsupported => AsFallback
      case DeliveredUntrackable => AsUntrackable
      case _ => AsUnknown
  }

  function MarkResolved(s: State): State
    requires s.active.Some?
  {
    s.(active := Some(s.active.value.(resolved := true)))
  }

  function Retire(w: World, s: State, serial: nat): Ret {
    if s.active.None? || s.active.value.serial != serial || !s.active.value.resolved
       || (!s.active.value.done && !s.active.value.deadlineExpired)
    then
      Ret(s, s.fault)
    else
      var s1 := Note(s.(timer := None, deadlineTimer := None, active := None), CancelSteer(serial));
      if !s1.terminal then Pump(w, s1) else Ret(s1, s1.fault)
  }

  /** After the durable decision: mark, move followers to the queue, cancel the call, retire. */
  function AfterDecision(w: World, s: State, d: Disposition): Ret {
    if s.active.None? then Ret(s, false) else
    var a := s.active.value;
    var s1 := MarkResolved(s);
    var r := if d.AsFallback? || d.AsUnknown? then Faulted(QueuePending(w, s1)) else Ret(s1, false);
    if r.err then
      r
    else
      var s2 := if !d.AsInjected? then Note(r.s, CancelSteer(a.serial)) else r.s;
      Retire(w, s2, a.serial)
  }

  function FaultedBy(s: State, c: Call): Ret {
    Ret(Note(s, c).(fault := true), true)
  }

  /** The durable calls of a disposition, for the active attempt. */
  function Decide(w: World, s: State, d: Disposition): Ret
    requires s.active.Some?
  {
    var id := s.active.value.input.id;
    match d
    case AsInjected =>
      var s1 := Note(s, PublishFold(id, true));
      if !w(s.log) then FaultedBy(s, PublishFold(id, false))
      else if !w(s1.log) then FaultedBy(s1, ResolveInjected(id, false))
      else Ret(Note(s1, ResolveInjected(id, true)), false)
    case AsFallback =>
      Faulted(QueueFallback(w, s.(fallbackBarrier := true), s.active.value.input))
    case AsUnknown =>
      if !w(s.log) then FaultedBy(s, ResolveOther(id, Resolution.Unknown, false))
      else Ret(Note(s, ResolveOther(id, Resolution.Unknown, true)).(disabled := true), false)
    case AsUntrackable =>
      if !w(s.log) then FaultedBy(s, ResolveOther(id, Resolution.Untrackable, false))
      else
        var s1 := MarkResolved(Note(s, ResolveOther(id, Resolution.Untrackable, true)));
        Ret(s1.(disabled := true, fault := true), true)
  }

  function ResolveDisposition(w: World, s: State, d: Disposition): Ret
    requires s.active.Some?
  {
    if s.active.value.resolved then
      Ret(s, false)
    else
      var r := Decide(w, s, d);
      if r.err then r else AfterDecision(w, r.s, d)
  }

  function ResolveAttempt(w: World, s: State): Ret
    requires s.active.Some?
  {
    if s.active.value.resolved then Ret(s, false)
    else ResolveDisposition(w, s, Classify(s.active.value.result, s.active.value.err))
  }

  function ResolvePendingBeforeTerminal(w: World, s: State): Ret {
    var r :=
      if s.active.Some? && !s.active.value.resolved && (s.active.value.done || s.active.value.seen)
      then ResolveAttempt(w, s) else Ret(s, false);
    if r.err then
      r
    else
      var s1 := if s.active.Some? && !s.active.value.resolved && r.s.active.Some? && !r.s.active.value.resolved
                then StartTerminalTimer(r.s) else r.s;
      QueuePending(w, s1)
  }

  function ObservePrompt(w: World, s: State): Ret {
    ResolvePendingBeforeTerminal(w, s.(terminal := true))
  }

  /** The ordered stream reported the call. */
  function WithObservation(a: Attempt, result: SteerResult, err: CallError): Attempt {
    a.(seen := true, writerAdmitted := a.writerAdmitted || result.writeAdmitted, result := result, err := err)
  }

  /** The provider call returned. */
  function WithCompletion(a: Attempt, result: SteerResult, err: CallError): Attempt {
    a.(done := true, writerAdmitted := a.writerAdmitted || result.writeAdmitted, result := result, err := err)
  }

  function ObserveSteer(w: World, s: State, result: SteerResult, err: CallError): Ret {
    if s.active.None? || s.active.value.resolved then
      Ret(s, false)
    else
      ResolveAttempt(w, s.(active := Some(WithObservation(s.active.value, result, err))))
  }

  /** beforeTerminal: the state, and whether the terminal event must be held. */
  function BeforeTerminal(w: World, s: State): Ret {
    ResolvePendingBeforeTerminal(w, s.(terminal := true))
  }

  predicate MustHold(s: State) {
    s.active.Some? && !s.active.value.resolved
  }

  /** A completion that settles the attempt even though no ordered observation was seen. */
  predicate Conclusive(result: SteerResult, err: CallError) {
    || (err != NoError && result.outcome == Absent)
    || (result.outcome != Absent && !result.Valid())
    || (err == DeadlineExceeded && result.Valid()
        && (result.outcome.AdmissionUnknown? || result.outcome.DeliveryUnknown?))
  }

  function Complete(w: World, s: State, serial: nat, result: SteerResult, err: CallError): Ret {
    if s.active.None? || s.active.value.serial != serial then
      Ret(s, false)
    else
      var s1 := s.(active := Some(WithCompletion(s.active.value, result, err)));
      if !s1.active.value.seen && !Conclusive(result, err) && s1.ordered && !s1.terminal then
        Ret(s1, false)
      else
        Settle(w, s1, serial)
  }

  function Settle(w: World, s: State, serial: nat): Ret
    requires s.active.Some?
  {
    var r := ResolveAttempt(w, s);
    if r.err then r else Retire(w, r.s, serial)
  }

  function Timeout(w: World, s: State): Ret {
    if !s.terminal || s.active.None? || s.active.value.resolved then
      Ret(s, false)
    else
      var r := ResolveDisposition(w, s.(timer := None), AsUnknown);
      if r.err then r
      else if r.s.active.None? then Ret(r.s, r.s.fault)
      else Retire(w, r.s, r.s.active.value.serial)
  }

  function Expire(s: State): State
    requires s.active.Some?
  {
    s.(active := Some(s.active.value.(deadlineExpired := true)))
  }

  function DeadlineTimeout(w: World, s: State): Ret {
    if s.active.None? then
      Ret(s, false)
    else
      var serial := s.active.value.serial;
      var s1 := Expire(s.(deadlineTimer := None));
      if s1.active.value.resolved then
        Retire(w, s1, serial)
      else
        var r := ResolveDisposition(w, s1, AsUnknown);
        if r.err then r else Ret(r.s, r.s.fault)
  }

  function Shutdown(w: World, s: State): Ret {
    var s1 := s.(terminal := true);
    var r :=
      if s1.active.None? then Ret(s1, false)
      else
        var s2 := Expire(s1);
        if !s2.active.value.resolved then ResolveDisposition(w, s2, AsUnknown)
        else Retire(w, s2, s2.active.value.serial);
    if r.err then
      r
    else
      var q := if r.s.active.None? then QueuePending(w, r.s) else r;
      if q.err then q else Ret(q.s, q.s.fault)
  }

  function Cleanup(s: State): State {
    (if s.active.Some? then Note(s, CancelSteer(s.active.value.serial)) else s)
      .(timer := None, deadlineTimer := None, active := None, pending := [])
  }
}
