/**
  What the steering machine achieves in a turn that nothing disturbs: every request offered to it is
  injected, or is still being worked on.
 */
module SteeringService {
  import opened Options
  import opened DriverContract
  import opened Calls
  import opened SteeringModel
  import opened SteeringRuns
  import opened SteeringInvariant
  import opened SteeringTheorems
  import opened SteeringProgress

  /**
    The event gives no reason to close the machine: an ordered stream, valid prompts, calls reported as
    injected, and no end of the prompt, clock, shutdown or ordinary input. A call may return anything
    that is not conclusive by itself.
   */
  predicate Calm(e: Event) {
    match e
    case StreamReady(ordered) => ordered
    case InputOffered(input) => input.blocksValid
    case SteerSeen(_, result, _) => result.Valid() && result.outcome.Injected?
    case Completion(_, result, err) => !Conclusive(result, err)
    case UpdateSeen => true
    case QueueRemove(_) => true
    case _ => false
  }

  /** Every checked call succeeds. */
  ghost predicate Willing(w: World) {
    forall log :: w(log)
  }

  /** Nothing has closed the machine, and what the stream reported is decided. */
  predicate Serving(s: State) {
    && s.hasHook && s.hasSteerer && !Blocked(s) && s.loopPending == [] && !Closed(s.log)
    && (s.streamKnown ==> s.ordered)
    && (s.active.Some? ==> s.streamKnown && (s.active.value.seen ==> s.active.value.resolved))
  }

  lemma PumpServes(w: World, s: State)
    requires Willing(w) && Serving(s) && s.streamKnown
    ensures Serving(Pump(w, s).s)
  {
    if s.active.None? && s.pending != [] {
      var t := Begin(s);
      assert !Closed(t.log);
      assert Serving(t) by {
        hide Closed;
      }
    }
    hide Serving, Begin, Closed;
  }

  lemma OfferServes(w: World, s: State, input: Input)
    requires Willing(w) && Serving(s) && input.blocksValid
    ensures Serving(Offer(w, s, input).ret.s)
  {
    var t := s.(pending := s.pending + [input]);
    assert Serving(t);
    if s.streamKnown {
      PumpServes(w, t);
    }
    hide Pump, QueueFallback, Closed;
  }

  lemma RetireServes(w: World, s: State, serial: nat)
    requires Willing(w) && Serving(s)
    ensures Serving(Retire(w, s, serial).s)
  {
    if s.active.Some? {
      var t := Note(s.(timer := None, deadlineTimer := None, active := None), CancelSteer(serial));
      assert Serving(t);
      PumpServes(w, t);
    }
    hide Pump, Closed, Serving, Note;
  }

  /** The attempt with a result that says injected is resolved so. */
  lemma InjectServes(w: World, s: State)
    requires Willing(w) && MustHold(s) && s.active.value.result.Valid() && s.active.value.result.outcome.Injected?
    requires Serving(s.(active := None)) && s.streamKnown
    ensures Serving(ResolveAttempt(w, s).s)
  {
    var id := s.active.value.input.id;
    var t := Note(Note(s, PublishFold(id, true)), ResolveInjected(id, true));
    var u := MarkResolved(t);
    assert !Closed(t.log);
    assert Serving(u) by {
      hide Closed;
    }
    RetireServes(w, u, s.active.value.serial);
    assert Classify(s.active.value.result, s.active.value.err) == AsInjected;
    assert Decide(w, s, AsInjected) == Ret(t, false);
    hide Serving, Closed, Retire, MarkResolved, Note, Decide, Classify;
  }

  lemma ObserveServes(w: World, s: State, result: SteerResult, err: CallError)
    requires Willing(w) && Serving(s) && result.Valid() && result.outcome.Injected?
    ensures Serving(ObserveSteer(w, s, result, err).s)
  {
    if MustHold(s) {
      var p := s.(active := Some(WithObservation(s.active.value, result, err)));
      assert Serving(p.(active := None));
      InjectServes(w, p);
    }
    hide Serving, ResolveAttempt;
  }

  lemma CompleteServes(w: World, s: State, serial: nat, result: SteerResult, err: CallError)
    requires Willing(w) && Serving(s) && !Conclusive(result, err)
    ensures Serving(Complete(w, s, serial, result, err).s)
  {
    if s.active.Some? && s.active.value.serial == serial {
      var p := s.(active := Some(WithCompletion(s.active.value, result, err)));
      assert Serving(p) && p.ordered && !p.terminal;
      assert p.active.value.seen ==> ResolveAttempt(w, p) == Ret(p, false);
      RetireServes(w, p, serial);
    }
    hide Serving, ResolveAttempt, Retire, Conclusive;
  }

  lemma StepServes(w: World, s: State, e: Event)
    requires Willing(w) && Serving(s) && Calm(e)
    ensures Serving(StepRet(w, s, e).s)
  {
    match e {
      case StreamReady(ordered) =>
        var t := s.(ordered := ordered, streamKnown := true);
        assert Serving(t);
        PumpServes(w, t);
      case InputOffered(input) => OfferServes(w, s, input);
      case SteerSeen(_, result, err) => ObserveServes(w, s, result, err);
      case Completion(serial, result, err) => CompleteServes(w, s, serial, result, err);
      case UpdateSeen =>
      case QueueRemove(_) =>
    }
    hide Pump, Offer, ObserveSteer, Complete, Closed, Conclusive, Serving;
  }

  predicate Steerable(input: Input) {
    input.machineAgency && input.targetsLoop && input.deliveryIntent
  }

  lemma {:induction false} RunServes(w: World, r: Run, events: seq<Event>, input: Input)
    requires Willing(w) && Serving(r.s) && (forall e :: e in events ==> Calm(e)) && Steerable(input)
    ensures Serving(RunOf(w, r, events).s)
    ensures InputOffered(input) in events || input.id in r.handled ==> input.id in RunOf(w, r, events).handled
    decreases |events|
  {
    hide Serving, StepRet, Calm, Willing, Noted;
    if events != [] {
      var e := events[0];
      StepServes(w, r.s, e);
      assert r.s.hasHook by {
        ServingHooked(r.s);
      }
      RunServes(w, Step(w, r, e), events[1..], input);
    }
  }

  lemma ServingHooked(s: State)
    requires Serving(s)
    ensures s.hasHook
  {
  }

  lemma {:induction false} OpenIsClean(log: Log)
    requires !Closed(log)
    ensures Clean(log) && Decided(log) == InjectedIds(log)
  {
    if log.Then? {
      OpenIsClean(log.past);
    }
  }

  /**
    In a turn that nothing disturbs no call fails and nobody is sent to the normal queue: every request
    offered waits, or is with the provider, or is resolved injected; and once the stream is ready and no
    call is active, each is.
   */
  lemma UndisturbedTurn(w: World, events: seq<Event>, input: Input)
    requires Willing(w) && (forall e :: e in events ==> Calm(e)) && TurnPossible(w, true, true, [], events)
    requires InputOffered(input) in events && Steerable(input)
    ensures
      var s := Turn(w, true, true, [], events).s;
      && Sent(s.log) == [] && Decided(s.log) == InjectedIds(s.log) && !Blocked(s)
      && (input.id in Names(s.pending) || (MustHold(s) && s.active.value.input.id == input.id)
          || input.id in InjectedIds(s.log))
      && (s.streamKnown && s.active.None? ==> input.id in InjectedIds(s.log))
  {
    var r := Turn(w, true, true, [], events);
    RunServes(w, Initial(true, true, []), events, input);
    assert Serving(r.s) && input.id in r.handled;
    ServingOpen(r.s);
    OpenIsClean(r.s.log);
    NothingSent(r.s.log);
    Conservation(w, true, true, [], events);
    NobodyWaitsIdly(w, true, true, [], events);
    hide Turn, Serving, Calm, Willing, Sent, Clean, Decided, InjectedIds, Closed, Started, Granted, Announced;
  }

  lemma ServingOpen(s: State)
    requires Serving(s)
    ensures !Closed(s.log) && !Blocked(s) && (s.streamKnown ==> s.ordered)
  {
  }

  lemma {:induction false} NothingSent(log: Log)
    requires !Closed(log)
    ensures Sent(log) == []
  {
    if log.Then? {
      NothingSent(log.past);
    }
  }

  // ---------------------------------------------------------------- the clock of the end

  predicate Timed(s: State) {
    s.timer.Some? ==> s.terminal
  }

  /** After the prompt's end an undecided attempt has its clock, unless a call failed. */
  predicate Armed(s: State) {
    && Timed(s)
    && (s.terminal && MustHold(s) && !s.fault ==>
          s.timer.Some? && (s.timer.value.bound == AckTimeout <==> s.active.value.writerAdmitted))
  }

  /** Nothing is left to be decided after the prompt's end, unless a call failed. */
  predicate Calmed(s: State) {
    Timed(s) && (s.fault || s.active.None? || s.active.value.resolved || !s.terminal)
  }

  /** The queue is served; the attempt and its clock are left alone. */
  predicate Aside(s: State, t: State) {
    t.active == s.active && t.terminal == s.terminal && t.timer == s.timer && t.fault == s.fault
  }

  lemma QueueFallbackAside(w: World, s: State, input: Input)
    ensures Aside(s, QueueFallback(w, s, input).s) && QueueFallback(w, s, input).s.pending == s.pending
  {
    if s.hasHook {
      var c := Fallback(input.id, w(s.log));
      var t := Note(s.(fallbackBarrier := true), c);
      assert Aside(s, t) && t.pending == s.pending;
      if w(s.log) {
        var u := Note(t.(loopPending := t.loopPending + [input]), PublishQueued(input.id));
        assert Aside(s, u) && u.pending == s.pending;
      }
    }
    hide Aside, Note;
  }

  lemma AsideTwice(s: State, t: State, u: State)
    requires Aside(s, t) && Aside(t, u)
    ensures Aside(s, u)
  {
  }

  lemma {:induction false} QueuePendingAside(w: World, s: State)
    ensures Aside(s, QueuePending(w, s).s)
    decreases |s.pending|
  {
    if s.pending == [] {
    } else {
      var t := s.(pending := s.pending[1..]);
      var r := QueueFallback(w, t, s.pending[0]);
      QueueFallbackAside(w, t, s.pending[0]);
      assert Aside(s, t);
      hide Aside, QueueFallback;
      AsideTwice(s, t, r.s);
      if !r.err {
        QueuePendingAside(w, r.s);
        AsideTwice(s, r.s, QueuePending(w, r.s).s);
      }
    }
  }

  lemma PumpCalmed(w: World, s: State)
    requires Calmed(s)
    ensures Calmed(Pump(w, s).s) && (s.terminal ==> Pump(w, s).s.terminal)
  {
    if !Blocked(s) && s.active.None? && s.pending != [] {
      if w(s.log) {
        assert !Begin(s).terminal && Timed(Begin(s));
      } else {
        assert Refuse(s).fault;
      }
    }
    hide Begin, Refuse;
  }

  lemma RetireCalmed(w: World, s: State, serial: nat)
    requires Calmed(s)
    ensures Calmed(Retire(w, s, serial).s) && (s.terminal ==> Retire(w, s, serial).s.terminal)
  {
    var t := Note(s.(timer := None, deadlineTimer := None, active := None), CancelSteer(serial));
    assert t.active.None?;
    PumpCalmed(w, t);
    hide Pump, Note;
  }

  lemma AfterDecisionCalmed(w: World, s: State, d: Disposition)
    requires Timed(s)
    ensures Calmed(AfterDecision(w, s, d).s) && (s.terminal ==> AfterDecision(w, s, d).s.terminal)
  {
    if s.active.Some? {
      var serial := s.active.value.serial;
      var s1 := MarkResolved(s);
      assert s1.active.Some? && s1.active.value.resolved;
      QueuePendingAside(w, s1);
      var r := if d.AsFallback? || d.AsUnknown? then Faulted(QueuePending(w, s1)) else Ret(s1, false);
      assert Calmed(r.s);
      var s2 := if !d.AsInjected? then Note(r.s, CancelSteer(serial)) else r.s;
      assert Calmed(s2);
      RetireCalmed(w, s2, serial);
    }
    hide QueuePending, MarkResolved, Note, Retire, Faulted, Calmed;
  }

  /** An error is a fault, and no clock is started. */
  predicate Sound(s: State, r: Ret) {
    (r.err ==> r.s.fault) && (Timed(s) ==> Timed(r.s)) && r.s.terminal == s.terminal
  }

  lemma DecideFaults(w: World, s: State, d: Disposition)
    requires s.active.Some?
    ensures Sound(s, Decide(w, s, d))
  {
    match d {
      case AsInjected => FoldSound(w, s);
      case AsFallback => RequeueSound(w, s);
      case AsUnknown => UnknownSound(w, s);
      case AsUntrackable => UntrackableSound(w, s);
    }
    hide Sound, Decide;
  }

  lemma RequeueSound(w: World, s: State)
    requires s.active.Some?
    ensures Sound(s, Decide(w, s, AsFallback))
  {
    var t := s.(fallbackBarrier := true);
    QueueFallbackAside(w, t, s.active.value.input);
    hide QueueFallback;
    var r := QueueFallback(w, t, s.active.value.input);
    assert Timed(s) ==> Timed(r.s) && Timed(r.s.(fault := true));
    hide Timed;
  }

  lemma FoldSound(w: World, s: State)
    requires s.active.Some?
    ensures Sound(s, Decide(w, s, AsInjected))
  {
    var id := s.active.value.input.id;
    var s1 := Note(s, PublishFold(id, true));
    NoteTimed(s, PublishFold(id, true));
    NoteTimed(s, PublishFold(id, false));
    NoteTimed(s1, ResolveInjected(id, true));
    NoteTimed(s1, ResolveInjected(id, false));
    hide Timed, Note, FaultedBy;
  }

  lemma UnknownSound(w: World, s: State)
    requires s.active.Some?
    ensures Sound(s, Decide(w, s, AsUnknown))
  {
    var id := s.active.value.input.id;
    NoteTimed(s, ResolveOther(id, Resolution.Unknown, true));
    NoteTimed(s, ResolveOther(id, Resolution.Unknown, false));
    hide Note, FaultedBy;
  }

  lemma UntrackableSound(w: World, s: State)
    requires s.active.Some?
    ensures Sound(s, Decide(w, s, AsUntrackable))
  {
    var id := s.active.value.input.id;
    NoteTimed(s, ResolveOther(id, Resolution.Untrackable, true));
    NoteTimed(s, ResolveOther(id, Resolution.Untrackable, false));
    NoteActive(s, ResolveOther(id, Resolution.Untrackable, true));
    if w(s.log) {
      var n := Note(s, ResolveOther(id, Resolution.Untrackable, true));
      var u := MarkResolved(n);
      assert u.timer == n.timer && u.terminal == n.terminal;
      hide Note, FaultedBy, MarkResolved;
    } else {
      hide Note, FaultedBy, MarkResolved;
    }
  }

  lemma NoteActive(s: State, c: Call)
    ensures Note(s, c).active == s.active
  {
  }

  lemma NoteTimed(s: State, c: Call)
    ensures Timed(s) ==> Timed(Note(s, c)) && Timed(FaultedBy(s, c).s)
    ensures Note(s, c).terminal == s.terminal && FaultedBy(s, c).s.terminal == s.terminal
    ensures FaultedBy(s, c).s.fault
  {
    assert FaultedBy(s, c).s == Note(s, c).(fault := true);
  }

  lemma ResolveCalmed(w: World, s: State, d: Disposition)
    requires s.active.Some? && Timed(s)
    ensures Calmed(ResolveDisposition(w, s, d).s) && (s.terminal ==> ResolveDisposition(w, s, d).s.terminal)
  {
    if !s.active.value.resolved {
      DecideFaults(w, s, d);
      AfterDecisionCalmed(w, Decide(w, s, d).s, d);
    }
    hide Decide, AfterDecision;
  }

  lemma CalmedArmed(s: State)
    requires Calmed(s)
    ensures Armed(s)
  {
  }

  lemma ResolveAttemptCalmed(w: World, s: State)
    requires s.active.Some? && Timed(s)
    ensures Calmed(ResolveAttempt(w, s).s) && (s.terminal ==> ResolveAttempt(w, s).s.terminal)
  {
    ResolveCalmed(w, s, Classify(s.active.value.result, s.active.value.err));
    hide ResolveDisposition, Classify;
  }

  lemma AsideArmed(s: State, t: State)
    requires Aside(s, t) && Armed(s)
    ensures Armed(t) && (Calmed(s) ==> Calmed(t))
  {
  }

  lemma PumpArmed(w: World, s: State)
    requires Armed(s)
    ensures Armed(Pump(w, s).s)
  {
    if !Blocked(s) && s.active.None? && s.pending != [] {
      PumpCalmed(w, s);
      CalmedArmed(Pump(w, s).s);
      hide Pump, Armed;
    }
  }

  lemma TimerArmed(s: State)
    requires Calmed(s) && s.terminal
    ensures Armed(StartTerminalTimer(s))
  {
  }

  lemma NewTimerArmed(s: State)
    requires Armed(s) && MustHold(s)
    ensures Armed(StartTerminalTimer(s.(terminal := true)))
  {
  }

  /** The prompt ends: the attempt is decided if anything is known of it, and otherwise given its clock. */
  lemma PromptArmed(w: World, s: State)
    requires Armed(s)
    ensures Armed(ObservePrompt(w, s).s)
  {
    var t := s.(terminal := true);
    var late := t.active.Some? && !t.active.value.resolved && (t.active.value.done || t.active.value.seen);
    var r := if late then ResolveAttempt(w, t) else Ret(t, false);
    var u := if MustHold(t) && MustHold(r.s) then StartTerminalTimer(r.s) else r.s;
    if late {
      ResolveAttemptCalmed(w, t);
      CalmedArmed(r.s);
      TimerArmed(r.s);
    } else if MustHold(t) {
      NewTimerArmed(s);
    }
    assert Armed(u);
    QueuePendingAside(w, u);
    AsideArmed(u, QueuePending(w, u).s);
    hide Armed, Calmed, Aside, ResolveAttempt, StartTerminalTimer, QueuePending;
  }

  lemma BeforeTerminalArmed(w: World, s: State)
    requires Armed(s)
    ensures Armed(BeforeTerminal(w, s).s)
  {
    PromptArmed(w, s);
    hide ResolvePendingBeforeTerminal, Armed;
  }

  lemma CompleteArmed(w: World, s: State, serial: nat, result: SteerResult, err: CallError)
    requires Armed(s)
    ensures Armed(Complete(w, s, serial, result, err).s)
  {
    if s.active.Some? && s.active.value.serial == serial {
      var p := s.(active := Some(WithCompletion(s.active.value, result, err)));
      var r := ResolveAttempt(w, p);
      ResolveAttemptCalmed(w, p);
      CalmedArmed(r.s);
      RetireCalmed(w, r.s, serial);
      CalmedArmed(Retire(w, r.s, serial).s);
      assert !p.terminal ==> Armed(p);
    }
    hide Armed, Calmed, ResolveAttempt, Retire, Conclusive;
  }

  lemma TimeoutArmed(w: World, s: State)
    requires Armed(s)
    ensures Armed(Timeout(w, s).s)
  {
    if s.active.Some? {
      var r := ResolveDisposition(w, s.(timer := None), AsUnknown);
      ResolveCalmed(w, s.(timer := None), AsUnknown);
      CalmedArmed(r.s);
      if r.s.active.Some? {
        RetireCalmed(w, r.s, r.s.active.value.serial);
        CalmedArmed(Retire(w, r.s, r.s.active.value.serial).s);
      }
    }
    hide Armed, Calmed, ResolveDisposition, Retire;
  }

  lemma DeadlineArmed(w: World, s: State)
    requires Armed(s)
    ensures Armed(DeadlineTimeout(w, s).s)
  {
    if s.active.Some? {
      var p := Expire(s.(deadlineTimer := None));
      if p.active.value.resolved {
        RetireCalmed(w, p, s.active.value.serial);
        CalmedArmed(Retire(w, p, s.active.value.serial).s);
      } else {
        ResolveCalmed(w, p, AsUnknown);
        CalmedArmed(ResolveDisposition(w, p, AsUnknown).s);
      }
    }
    hide Armed, Calmed, ResolveDisposition, Retire;
  }

  lemma ShutdownArmed(w: World, s: State)
    requires Armed(s)
    ensures Armed(Shutdown(w, s).s)
  {
    var s1 := s.(terminal := true);
    if s1.active.None? {
      QueuePendingAside(w, s1);
      assert Calmed(QueuePending(w, s1).s);
      CalmedArmed(QueuePending(w, s1).s);
    } else {
      var s2 := Expire(s1);
      var r := if !s2.active.value.resolved then ResolveDisposition(w, s2, AsUnknown)
               else Retire(w, s2, s2.active.value.serial);
      if !s2.active.value.resolved {
        ResolveCalmed(w, s2, AsUnknown);
      } else {
        RetireCalmed(w, s2, s2.active.value.serial);
      }
      CalmedArmed(r.s);
      QueuePendingAside(w, r.s);
      AsideArmed(r.s, QueuePending(w, r.s).s);
    }
    hide Armed, Calmed, Aside, ResolveDisposition, Retire, QueuePending;
  }

  lemma OfferArmed(w: World, s: State, input: Input)
    requires Armed(s)
    ensures Armed(Offer(w, s, input).ret.s)
  {
    var t := s.(pending := s.pending + [input]);
    assert Armed(t);
    PumpArmed(w, t);
    QueueFallbackAside(w, s, input);
    AsideArmed(s, QueueFallback(w, s, input).s);
    hide Armed, Aside, Pump, QueueFallback;
  }

  lemma SetStreamArmed(w: World, s: State, ordered: bool)
    requires Armed(s)
    ensures Armed(SetStream(w, s, ordered).s)
  {
    var t := s.(ordered := ordered, streamKnown := true);
    var q := QueuePending(w, t);
    assert Armed(t);
    PumpArmed(w, t);
    QueuePendingAside(w, t);
    AsideArmed(t, q.s);
    assert Armed(q.s.(fault := true));
    hide Armed, Aside, Pump, QueuePending;
  }

  lemma StepArmed(w: World, s: State, e: Event)
    requires Armed(s)
    ensures Armed(StepRet(w, s, e).s)
  {
    hide SetStream, Offer, ObservePrompt, BeforeTerminal, ResolveAttempt, Complete, Timeout, DeadlineTimeout, Shutdown;
    match e {
      case StreamReady(ordered) => SetStreamArmed(w, s, ordered);
      case InputOffered(input) => OfferArmed(w, s, input);
      case SteerSeen(_, result, err) =>
        if MustHold(s) {
          var p := s.(active := Some(WithObservation(s.active.value, result, err)));
          ResolveAttemptCalmed(w, p);
          CalmedArmed(ResolveAttempt(w, p).s);
        }
      case PromptSeen => PromptArmed(w, s);
      case UpdateSeen =>
      case TerminalEvent => BeforeTerminalArmed(w, s);
      case Completion(serial, result, err) => CompleteArmed(w, s, serial, result, err);
      case TerminalClock => TimeoutArmed(w, s);
      case DeadlineClock => DeadlineArmed(w, s);
      case ShuttingDown => ShutdownArmed(w, s);
      case QueueAppend(input) => assert Aside(s, s.(loopPending := s.loopPending + [input]));
      case QueueRemove(at) => assert Aside(s, StepRet(w, s, e).s);
    }
  }

  lemma {:induction false} RunArmed(w: World, r: Run, events: seq<Event>)
    requires Armed(r.s)
    ensures Armed(RunOf(w, r, events).s)
    decreases |events|
  {
    hide Armed, StepRet;
    if events != [] {
      StepArmed(w, r.s, events[0]);
      RunArmed(w, Step(w, r, events[0]), events[1..]);
    }
  }

  /**
    In every run: once the prompt has ended, the attempt that is still undecided has a terminal clock
    running, unless a call failed; it is the short one exactly if a write of the call was admitted.
   */
  lemma TerminalClockRuns(w: World, hasHook: bool, hasSteerer: bool, queued: seq<Input>, events: seq<Event>)
    ensures
      var s := Turn(w, hasHook, hasSteerer, queued, events).s;
      s.terminal && s.active.Some? && !s.active.value.resolved && !s.fault ==>
        s.timer.Some? && (s.timer.value.bound == AckTimeout <==> s.active.value.writerAdmitted)
  {
    RunArmed(w, Initial(hasHook, hasSteerer, queued), events);
  }
}
