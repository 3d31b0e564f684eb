/**
  The barriers of the steering machine, proved of every state and every event, reachable or not:
  the terminal fact, the disabled flag, the fallback barrier and a fault are never lifted, and
  while one of them stands nothing more is given to Reserve. So a request that was overtaken on
  the way to the normal queue can only follow there.
 */
module SteeringBarriers {
  import opened Options
  import opened DriverContract
  import opened Calls
  import opened SteeringModel
  import opened SteeringRuns

  /** How many requests were given to Reserve. */
  function Reserves(log: Log): nat {
    if log.Start? then 0 else Reserves(log.past) + if log.call.Reserve? then 1 else 0
  }

  predicate Barred(s: State, t: State) {
    && (s.terminal ==> t.terminal)
    && (s.disabled ==> t.disabled)
    && (s.fallbackBarrier ==> t.fallbackBarrier)
    && (s.fault ==> t.fault)
    && (Blocked(s) ==> Reserves(t.log) == Reserves(s.log))
  }

  /** The request was never reserved, and a later one that was not either is in the normal queue. */
  predicate Passed(log: Log, id: nat) {
    id !in Asked(log) && id < LastUnreserved(log)
  }

  /** The order is lost, or it will be when the head of the pending list follows whoever overtook it. */
  predicate Overtaken(s: State) {
    || !UnreservedInOrder(s.log)
    || (&& s.hasHook && s.fallbackBarrier && s.pending != []
        && Passed(s.log, s.pending[0].id)
        && (s.active.Some? ==> s.active.value.input.id in Asked(s.log)))
  }

  predicate Onward(s: State, t: State) {
    Barred(s, t) && (Overtaken(s) ==> Overtaken(t))
  }

  lemma OnwardTwice(s: State, t: State, u: State)
    requires Onward(s, t) && Onward(t, u)
    ensures Onward(s, u)
  {
  }

  /** The log and the requests did not change, and the barriers at most by being raised. */
  predicate SameCalls(s: State, t: State) {
    && t.log == s.log && t.pending == s.pending && t.hasHook == s.hasHook
    && (t.active.Some? ==> s.active.Some? && t.active.value.input == s.active.value.input)
    && (s.terminal ==> t.terminal) && (s.disabled ==> t.disabled)
    && (s.fallbackBarrier ==> t.fallbackBarrier) && (s.fault ==> t.fault)
  }

  /** An operation that prepares `t` from `s` and then goes on to `u`. */
  lemma OnwardFrom(s: State, t: State, u: State)
    requires SameCalls(s, t) && Onward(t, u)
    ensures Onward(s, u)
  {
  }

  /** The request was reserved, or is behind everybody pending. */
  predicate Follows(s: State, input: Input) {
    input.id in Asked(s.log) || (s.pending != [] ==> s.pending[0].id < input.id)
  }

  lemma QueueFallbackBarred(w: World, s: State, input: Input)
    ensures Barred(s, QueueFallback(w, s, input).s)
  {
    if !s.hasHook {
    } else if w(s.log) {
    } else {
    }
  }

  lemma QueueFallbackOnward(w: World, s: State, input: Input)
    requires Overtaken(s) ==> Follows(s, input) || !UnreservedInOrder(s.log)
    ensures Onward(s, QueueFallback(w, s, input).s)
  {
    QueueFallbackBarred(w, s, input);
    if s.hasHook {
      var c := Fallback(input.id, w(s.log));
      LostForGood(s.log, c);
      LostForGood(Then(s.log, c), PublishQueued(input.id));
      if s.pending != [] && (input.id in Asked(s.log) || s.pending[0].id < input.id) {
        PassedForGood(s.log, s.pending[0].id, c);
        PassedForGood(Then(s.log, c), s.pending[0].id, PublishQueued(input.id));
      }
      AskedStays(s.log, c);
      AskedStays(Then(s.log, c), PublishQueued(input.id));
      hide Asked, LastUnreserved, UnreservedInOrder, Passed, Barred;
    }
  }

  lemma AskedStays(log: Log, c: Call)
    ensures Asked(log) <= Asked(Then(log, c))
  {
  }

  lemma PassedForGood(log: Log, id: nat, c: Call)
    requires !c.Reserve? && (c.Fallback? ==> c.id in Asked(log) || id < c.id)
    ensures Passed(log, id) ==> Passed(Then(log, c), id)
  {
  }

  lemma LostForGood(log: Log, c: Call)
    ensures !UnreservedInOrder(log) ==> !UnreservedInOrder(Then(log, c))
  {
  }

  /** The head of the pending list is queued: if it was overtaken, the order is lost. */
  lemma PopOnward(w: World, s: State)
    requires s.pending != []
    ensures Onward(s, QueueFallback(w, s.(pending := s.pending[1..]), s.pending[0]).s)
  {
    QueueFallbackBarred(w, s.(pending := s.pending[1..]), s.pending[0]);
    assert Barred(s, QueueFallback(w, s.(pending := s.pending[1..]), s.pending[0]).s);
    hide Barred;
    if s.hasHook {
      var id := s.pending[0].id;
      var c := Fallback(id, w(s.log));
      LostForGood(s.log, c);
      LostForGood(Then(s.log, c), PublishQueued(id));
      PassedIsLost(s.log, id, c);
      hide Asked, LastUnreserved, UnreservedInOrder, Passed;
    }
  }

  lemma PassedIsLost(log: Log, id: nat, c: Call)
    requires c.Fallback? && c.id == id
    ensures Passed(log, id) ==> !UnreservedInOrder(Then(log, c))
  {
  }

  lemma AppendOnward(s: State, input: Input)
    ensures Onward(s, s.(pending := s.pending + [input]))
  {
  }

  lemma {:induction false} QueuePendingOnward(w: World, s: State)
    ensures Onward(s, QueuePending(w, s).s)
    decreases |s.pending|
  {
    hide Onward, QueueFallback;
    if s.pending == [] {
      OnwardSelf(s);
    } else {
      var t := s.(pending := s.pending[1..]);
      var r := QueueFallback(w, t, s.pending[0]);
      PopOnward(w, s);
      if !r.err {
        QueueFallbackPending(w, t, s.pending[0]);
        QueuePendingOnward(w, r.s);
        OnwardTwice(s, r.s, QueuePending(w, r.s).s);
      }
    }
  }

  lemma QueueFallbackPending(w: World, s: State, input: Input)
    ensures QueueFallback(w, s, input).s.pending == s.pending
  {
  }

  lemma OnwardSelf(s: State)
    ensures Onward(s, s)
  {
  }

  lemma PumpOnward(w: World, s: State)
    ensures Onward(s, Pump(w, s).s)
  {
    if Blocked(s) || s.active.Some? || s.pending == [] {
    } else if w(s.log) {
    } else {
    }
  }

  lemma CancelOnward(s: State, serial: nat)
    ensures Onward(s, Note(s, CancelSteer(serial)))
  {
  }

  lemma RetireOnward(w: World, s: State, serial: nat)
    ensures Onward(s, Retire(w, s, serial).s)
  {
    hide Onward, Pump;
    OnwardSelf(s);
    var t := s.(timer := None, deadlineTimer := None, active := None);
    var u := Note(t, CancelSteer(serial));
    CancelOnward(t, serial);
    OnwardFrom(s, t, u);
    PumpOnward(w, u);
    OnwardTwice(s, u, Pump(w, u).s);
  }

  lemma AfterDecisionOnward(w: World, s: State, d: Disposition)
    ensures Onward(s, AfterDecision(w, s, d).s)
  {
    hide Onward, QueuePending, Retire;
    OnwardSelf(s);
    if s.active.Some? {
      var serial := s.active.value.serial;
      var s1 := MarkResolved(s);
      OnwardSelf(s1);
      QueuePendingOnward(w, s1);
      FaultedOnward(s1, QueuePending(w, s1));
      var r := if d.AsFallback? || d.AsUnknown? then Faulted(QueuePending(w, s1)) else Ret(s1, false);
      OnwardFrom(s, s1, r.s);
      var s2 := if !d.AsInjected? then Note(r.s, CancelSteer(serial)) else r.s;
      CancelOnward(r.s, serial);
      OnwardSelf(r.s);
      OnwardTwice(s, r.s, s2);
      RetireOnward(w, s2, serial);
      OnwardTwice(s, s2, Retire(w, s2, serial).s);
    }
  }

  lemma FaultedOnward(s: State, r: Ret)
    requires Onward(s, r.s)
    ensures Onward(s, Faulted(r).s)
  {
  }

  lemma DecideOnward(w: World, s: State, d: Disposition)
    requires s.active.Some?
    ensures Onward(s, Decide(w, s, d).s)
  {
    hide Onward, Decide;
    match d
    case AsInjected => InjectOnward(w, s);
    case AsFallback => FallbackOnward(w, s);
    case AsUnknown => UnknownOnward(w, s);
    case AsUntrackable => UntrackableOnward(w, s);
  }

  lemma NoteOnward(s: State, c: Call)
    requires !c.Reserve?
    ensures Onward(s, Note(s, c)) && Onward(s, FaultedBy(s, c).s)
  {
  }

  lemma InjectOnward(w: World, s: State)
    requires s.active.Some?
    ensures Onward(s, Decide(w, s, AsInjected).s)
  {
    hide Onward, Note, FaultedBy;
    var id := s.active.value.input.id;
    var s1 := Note(s, PublishFold(id, true));
    NoteOnward(s, PublishFold(id, false));
    NoteOnward(s, PublishFold(id, true));
    NoteOnward(s1, ResolveInjected(id, false));
    NoteOnward(s1, ResolveInjected(id, true));
    OnwardTwice(s, s1, Note(s1, ResolveInjected(id, true)));
    OnwardTwice(s, s1, FaultedBy(s1, ResolveInjected(id, false)).s);
  }

  lemma FallbackOnward(w: World, s: State)
    requires s.active.Some?
    ensures Onward(s, Decide(w, s, AsFallback).s)
  {
    hide Onward, QueueFallback, Faulted;
    var t := s.(fallbackBarrier := true);
    var r := QueueFallback(w, t, s.active.value.input);
    ActiveFollows(t);
    QueueFallbackOnward(w, t, s.active.value.input);
    FaultedOnward(t, r);
    OnwardFrom(s, t, Faulted(r).s);
  }

  /** As long as the order may still be lost, the active attempt is a reserved one. */
  lemma ActiveFollows(s: State)
    requires s.active.Some?
    ensures Overtaken(s) ==> Follows(s, s.active.value.input) || !UnreservedInOrder(s.log)
  {
  }

  lemma UnknownOnward(w: World, s: State)
    requires s.active.Some?
    ensures Onward(s, Decide(w, s, AsUnknown).s)
  {
    if w(s.log) {
    } else {
    }
  }

  lemma UntrackableOnward(w: World, s: State)
    requires s.active.Some?
    ensures Onward(s, Decide(w, s, AsUntrackable).s)
  {
    if w(s.log) {
    } else {
    }
  }

  lemma ResolveDispositionOnward(w: World, s: State, d: Disposition)
    requires s.active.Some?
    ensures Onward(s, ResolveDisposition(w, s, d).s)
  {
    hide Onward, Decide, AfterDecision;
    OnwardSelf(s);
    DecideOnward(w, s, d);
    var t := Decide(w, s, d).s;
    AfterDecisionOnward(w, t, d);
    OnwardTwice(s, t, AfterDecision(w, t, d).s);
  }

  lemma ResolvePendingOnward(w: World, s: State)
    ensures Onward(s, ResolvePendingBeforeTerminal(w, s).s)
  {
    hide Onward, ResolveDisposition, QueuePending, Classify;
    OnwardSelf(s);
    var r :=
      if s.active.Some? && !s.active.value.resolved && (s.active.value.done || s.active.value.seen)
      then ResolveAttempt(w, s) else Ret(s, false);
    if s.active.Some? {
      ResolveDispositionOnward(w, s, Classify(s.active.value.result, s.active.value.err));
    }
    QueuePendingOnward(w, r.s);
    OnwardTwice(s, r.s, QueuePending(w, r.s).s);
    var t := StartTerminalTimer(r.s);
    TimerOnward(r.s);
    hide StartTerminalTimer, SameCalls;
    QueuePendingOnward(w, t);
    OnwardFrom(r.s, t, QueuePending(w, t).s);
    OnwardTwice(s, r.s, QueuePending(w, t).s);
  }

  lemma TimerOnward(s: State)
    ensures SameCalls(s, StartTerminalTimer(s))
  {
  }

  lemma OfferOnward(w: World, s: State, input: Input)
    ensures Barred(s, Offer(w, s, input).ret.s)
    ensures Follows(s, input) ==> Onward(s, Offer(w, s, input).ret.s)
  {
    var t := s.(pending := s.pending + [input]);
    OnwardSelf(s);
    AppendOnward(s, input);
    QueueFallbackBarred(w, s, input);
    if Follows(s, input) {
      QueueFallbackOnward(w, s, input);
    }
    PumpOnward(w, t);
    OnwardTwice(s, t, Pump(w, t).s);
    OnwardBars(s, s);
    OnwardBars(s, t);
    OnwardBars(s, Pump(w, t).s);
    hide Onward, Barred, Follows, Pump, QueueFallback;
  }

  lemma OnwardBars(s: State, t: State)
    requires Onward(s, t)
    ensures Barred(s, t)
  {
  }

  lemma SettleOnward(w: World, s: State, serial: nat)
    requires s.active.Some?
    ensures Onward(s, Settle(w, s, serial).s)
  {
    hide Onward, ResolveDisposition, Retire, Classify;
    OnwardSelf(s);
    ResolveDispositionOnward(w, s, Classify(s.active.value.result, s.active.value.err));
    var t := ResolveAttempt(w, s).s;
    RetireOnward(w, t, serial);
    OnwardTwice(s, t, Retire(w, t, serial).s);
  }

  lemma CompleteOnward(w: World, s: State, serial: nat, result: SteerResult, err: CallError)
    ensures Onward(s, Complete(w, s, serial, result, err).s)
  {
    hide Onward, Settle, Conclusive;
    OnwardSelf(s);
    if s.active.Some? {
      var t := s.(active := Some(WithCompletion(s.active.value, result, err)));
      OnwardSelf(t);
      OnwardFrom(s, t, t);
      SettleOnward(w, t, serial);
      OnwardFrom(s, t, Settle(w, t, serial).s);
    }
  }

  lemma TimeoutOnward(w: World, s: State)
    ensures Onward(s, Timeout(w, s).s)
  {
    hide Onward, ResolveDisposition, Retire;
    OnwardSelf(s);
    if s.active.Some? {
      var t := s.(timer := None);
      var r := ResolveDisposition(w, t, AsUnknown).s;
      ResolveDispositionOnward(w, t, AsUnknown);
      OnwardFrom(s, t, r);
      if r.active.Some? {
        RetireOnward(w, r, r.active.value.serial);
        OnwardTwice(s, r, Retire(w, r, r.active.value.serial).s);
      }
    }
  }

  lemma DeadlineOnward(w: World, s: State)
    ensures Onward(s, DeadlineTimeout(w, s).s)
  {
    hide Onward, ResolveDisposition, Retire;
    OnwardSelf(s);
    if s.active.Some? {
      var t := Expire(s.(deadlineTimer := None));
      ResolveDispositionOnward(w, t, AsUnknown);
      RetireOnward(w, t, s.active.value.serial);
      OnwardFrom(s, t, ResolveDisposition(w, t, AsUnknown).s);
      OnwardFrom(s, t, Retire(w, t, s.active.value.serial).s);
    }
  }

  lemma ShutdownOnward(w: World, s: State)
    ensures Onward(s, Shutdown(w, s).s)
  {
    hide Onward, ResolveDisposition, Retire, QueuePending;
    var s1 := s.(terminal := true);
    OnwardSelf(s1);
    var r :=
      if s1.active.None? then Ret(s1, false)
      else
        var s2 := Expire(s1);
        if !s2.active.value.resolved then ResolveDisposition(w, s2, AsUnknown)
        else Retire(w, s2, s2.active.value.serial);
    if s.active.Some? {
      var s2 := Expire(s1);
      ResolveDispositionOnward(w, s2, AsUnknown);
      RetireOnward(w, s2, s.active.value.serial);
      OnwardFrom(s, s2, r.s);
    } else {
      OnwardFrom(s, s1, s1);
    }
    QueuePendingOnward(w, r.s);
    OnwardTwice(s, r.s, QueuePending(w, r.s).s);
  }

  /** No event lifts a barrier, none reserves behind one, and none mends the order. */
  lemma StepOnward(w: World, s: State, e: Event)
    ensures Barred(s, StepRet(w, s, e).s)
    ensures (e.InputOffered? ==> Follows(s, e.input)) ==> Onward(s, StepRet(w, s, e).s)
  {
    if e.InputOffered? {
      OfferOnward(w, s, e.input);
    } else {
      OtherStepOnward(w, s, e);
      OnwardBars(s, StepRet(w, s, e).s);
    }
  }

  lemma OtherStepOnward(w: World, s: State, e: Event)
    requires !e.InputOffered?
    ensures Onward(s, StepRet(w, s, e).s)
  {
    hide Onward, ResolveDisposition, QueuePending, ResolvePendingBeforeTerminal, Offer, Complete, Timeout,
         DeadlineTimeout, Shutdown, Pump, Faulted, ObserveSteer;
    OnwardSelf(s);
    match e
    case StreamReady(ordered) =>
      var t := s.(ordered := ordered, streamKnown := true);
      QueuePendingOnward(w, t);
      FaultedOnward(t, QueuePending(w, t));
      PumpOnward(w, t);
      OnwardFrom(s, t, SetStream(w, s, ordered).s);
    case SteerSeen(_, result, err) => ObserveOnward(w, s, result, err);
    case PromptSeen => TerminalOnward(w, s);
    case TerminalEvent => TerminalOnward(w, s);
    case Completion(serial, result, err) => CompleteOnward(w, s, serial, result, err);
    case TerminalClock => TimeoutOnward(w, s);
    case DeadlineClock => DeadlineOnward(w, s);
    case ShuttingDown => ShutdownOnward(w, s);
    case QueueAppend(_) => OnwardSelf(StepRet(w, s, e).s); OnwardFrom(s, StepRet(w, s, e).s, StepRet(w, s, e).s);
    case QueueRemove(_) => OnwardSelf(StepRet(w, s, e).s); OnwardFrom(s, StepRet(w, s, e).s, StepRet(w, s, e).s);
    case UpdateSeen =>
  }

  lemma ObserveOnward(w: World, s: State, result: SteerResult, err: CallError)
    ensures Onward(s, ObserveSteer(w, s, result, err).s)
  {
    hide Onward, ResolveDisposition, Classify;
    OnwardSelf(s);
    if MustHold(s) {
      var t := s.(active := Some(WithObservation(s.active.value, result, err)));
      ResolveDispositionOnward(w, t, Classify(result, err));
      OnwardFrom(s, t, ResolveDisposition(w, t, Classify(result, err)).s);
    }
  }

  lemma TerminalOnward(w: World, s: State)
    ensures Onward(s, ObservePrompt(w, s).s)
  {
    hide Onward, ResolvePendingBeforeTerminal;
    var t := s.(terminal := true);
    ResolvePendingOnward(w, t);
    OnwardFrom(s, t, ResolvePendingBeforeTerminal(w, t).s);
  }

  /** The same over any sequence of events. */
  lemma {:induction false} BarrierSafety(w: World, r: Run, events: seq<Event>)
    ensures Barred(r.s, RunOf(w, r, events).s)
    decreases |events|
  {
    hide StepRet, Onward, Follows;
    if events != [] {
      StepOnward(w, r.s, events[0]);
      BarrierSafety(w, Step(w, r, events[0]), events[1..]);
    }
  }
}
