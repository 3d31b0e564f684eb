/**
  What every operation of the steering machine does to the load of the actor that owns it, proved
  of every state: requests are never multiplied, a fault never goes unreported, and a machine that
  is settled behind its terminal stays so.

  The actor's own promises rest on these: its bound on queued inputs needs the machine not to
  multiply requests, and its hold on the terminal needs a settled machine to stay settled while
  the actor goes on to publish, to cancel its queue or to stop.
 */
module SteeringLoad {
  import opened Options
  import opened DriverContract
  import opened Calls
  import opened SteeringModel
  import opened SteeringRuns

  /** Requests the actor is responsible for: queued inputs, machine pending, and the undecided attempt. */
  function Load(s: State): nat {
    |s.loopPending| + |s.pending| + if MustHold(s) then 1 else 0
  }

  /** Nothing is unresolved and nothing can become so. */
  predicate Quiet(s: State) {
    s.terminal && s.active.None? && s.pending == []
  }

  predicate Tame(s: State, r: Ret) {
    && (!s.fault && !r.err ==> !r.s.fault)
    && Load(r.s) <= Load(s)
    && (Quiet(s) ==> Quiet(r.s))
    && (s.terminal ==> r.s.terminal)
  }

  lemma TameSelf(s: State)
    ensures Tame(s, Ret(s, false)) && Tame(s, Ret(s, s.fault))
  {
  }

  /** One operation after another, the second only if the first succeeded. */
  lemma TameTwice(s: State, r: Ret, q: Ret)
    requires Tame(s, r) && !r.err && Tame(r.s, q)
    ensures Tame(s, q)
  {
  }

  /** An operation that first prepares the state. */
  lemma TameFrom(s: State, t: State, r: Ret)
    requires Tame(s, Ret(t, false)) && Tame(t, r)
    ensures Tame(s, r)
  {
  }

  /** The fallback queue takes the request over when the call succeeds. */
  lemma QueueFallbackLoad(w: World, s: State, input: Input)
    ensures
      var r := QueueFallback(w, s, input);
      && r.s.pending == s.pending && r.s.active == s.active && r.s.terminal == s.terminal && r.s.fault == s.fault
      && |r.s.loopPending| == |s.loopPending| + if r.err then 0 else 1
  {
    if !s.hasHook {
    } else if w(s.log) {
    } else {
    }
  }

  lemma {:induction false} QueuePendingTame(w: World, s: State)
    ensures Tame(s, QueuePending(w, s))
    ensures QueuePending(w, s).s.active == s.active && (!QueuePending(w, s).err ==> QueuePending(w, s).s.pending == [])
    ensures QueuePending(w, s).s.fault == s.fault
    decreases |s.pending|
  {
    hide QueueFallback;
    if s.pending != [] {
      var t := s.(pending := s.pending[1..]);
      QueueFallbackLoad(w, t, s.pending[0]);
      var r := QueueFallback(w, t, s.pending[0]);
      if !r.err {
        QueuePendingTame(w, r.s);
      }
    }
  }

  lemma PumpTame(w: World, s: State)
    ensures Tame(s, Pump(w, s))
  {
    if Blocked(s) || s.active.Some? || s.pending == [] {
    } else if w(s.log) {
    } else {
    }
  }

  lemma RetireTame(w: World, s: State, serial: nat)
    ensures Tame(s, Retire(w, s, serial))
  {
    hide Pump;
    if s.active.Some? && s.active.value.resolved {
      var t := Note(s.(timer := None, deadlineTimer := None, active := None), CancelSteer(serial));
      PumpTame(w, t);
      TameFrom(s, t, Pump(w, t));
      TameSelf(t);
    }
    TameSelf(s);
  }

  /** Resolving the attempt takes it off the load. */
  lemma MarkResolvedLoad(s: State)
    requires s.active.Some?
    ensures
      var t := MarkResolved(s);
      && Load(t) == Load(s) - (if MustHold(s) then 1 else 0)
      && t.fault == s.fault && t.terminal == s.terminal && t.active.Some?
      && t.active.value.serial == s.active.value.serial
  {
  }

  lemma FaultedTame(s: State, r: Ret)
    requires Tame(s, r)
    ensures Tame(s, Faulted(r))
  {
  }

  lemma CancelTame(s: State, serial: nat)
    ensures Tame(s, Ret(Note(s, CancelSteer(serial)), false))
  {
  }

  lemma AfterDecisionTame(w: World, s: State, d: Disposition)
    requires s.active.Some?
    ensures Tame(MarkResolved(s), AfterDecision(w, s, d))
  {
    hide Tame, QueuePending, Retire, MarkResolved;
    var a := s.active.value;
    var s1 := MarkResolved(s);
    var r := if d.AsFallback? || d.AsUnknown? then Faulted(QueuePending(w, s1)) else Ret(s1, false);
    TameSelf(s1);
    QueuePendingTame(w, s1);
    FaultedTame(s1, QueuePending(w, s1));
    if !r.err {
      var s2 := if !d.AsInjected? then Note(r.s, CancelSteer(a.serial)) else r.s;
      TameSelf(r.s);
      CancelTame(r.s, a.serial);
      TameFrom(s1, r.s, Ret(s2, false));
      RetireTame(w, s2, a.serial);
      TameFrom(s1, s2, Retire(w, s2, a.serial));
    }
  }

  /** What a decision leaves to the marking of the attempt: one unit of load to spare, unless it failed. */
  predicate Decided(s: State, r: Ret) {
    && (!s.fault && !r.err ==> !r.s.fault)
    && (s.terminal ==> r.s.terminal)
    && Load(r.s) <= Load(s) + (if r.err then 0 else 1)
    && (!r.err ==> MustHold(r.s))
    && r.s.active.Some?
  }

  /** A call noted, and the flags a decision may raise, weigh nothing. */
  lemma NoteLoad(s: State, c: Call)
    ensures Load(Note(s, c)) == Load(s) && Note(s, c).active == s.active
    ensures |Note(s, c).loopPending| == |s.loopPending| && |Note(s, c).pending| == |s.pending|
    ensures Note(s, c).fault == s.fault && Note(s, c).terminal == s.terminal
    ensures FaultedBy(s, c).err && Load(FaultedBy(s, c).s) == Load(s) && FaultedBy(s, c).s.active == s.active
    ensures FaultedBy(s, c).s.terminal == s.terminal
  {
  }

  lemma DecideInjectedFits(w: World, s: State)
    requires MustHold(s)
    ensures Decided(s, Decide(w, s, AsInjected))
  {
    hide Load, Note, FaultedBy;
    var id := s.active.value.input.id;
    var s1 := Note(s, PublishFold(id, true));
    NoteLoad(s, PublishFold(id, true));
    NoteLoad(s, PublishFold(id, false));
    NoteLoad(s1, ResolveInjected(id, true));
    NoteLoad(s1, ResolveInjected(id, false));
    DecidedError(s, FaultedBy(s, PublishFold(id, false)));
    DecidedError(s, FaultedBy(s1, ResolveInjected(id, false)));
  }

  lemma DecidedError(s: State, r: Ret)
    requires MustHold(s) && r.err && (s.terminal ==> r.s.terminal) && Load(r.s) <= Load(s) && r.s.active.Some?
    ensures Decided(s, r)
  {
  }

  lemma DecideFallbackFits(w: World, s: State)
    requires MustHold(s)
    ensures Decided(s, Decide(w, s, AsFallback))
  {
    hide QueueFallback;
    QueueFallbackLoad(w, s.(fallbackBarrier := true), s.active.value.input);
  }

  lemma DecideUnknownFits(w: World, s: State)
    requires MustHold(s)
    ensures Decided(s, Decide(w, s, AsUnknown))
  {
    hide Note, FaultedBy;
    var id := s.active.value.input.id;
    NoteLoad(s, ResolveOther(id, Resolution.Unknown, true));
    NoteLoad(s, ResolveOther(id, Resolution.Unknown, false));
    if w(s.log) {
    } else {
    }
  }

  lemma DecideUntrackableFits(w: World, s: State)
    requires MustHold(s)
    ensures Decided(s, Decide(w, s, AsUntrackable))
  {
    hide Note, FaultedBy;
    var id := s.active.value.input.id;
    NoteLoad(s, ResolveOther(id, Resolution.Untrackable, true));
    NoteLoad(s, ResolveOther(id, Resolution.Untrackable, false));
    if w(s.log) {
    } else {
    }
  }

  lemma DecideFits(w: World, s: State, d: Disposition)
    requires MustHold(s)
    ensures Decided(s, Decide(w, s, d))
  {
    hide Decide, Decided;
    match d {
      case AsInjected => DecideInjectedFits(w, s);
      case AsFallback => DecideFallbackFits(w, s);
      case AsUnknown => DecideUnknownFits(w, s);
      case AsUntrackable => DecideUntrackableFits(w, s);
    }
  }

  lemma ResolveDispositionTame(w: World, s: State, d: Disposition)
    requires s.active.Some?
    ensures Tame(s, ResolveDisposition(w, s, d))
  {
    hide Decide, AfterDecision, MarkResolved;
    TameSelf(s);
    if !s.active.value.resolved {
      DecideFits(w, s, d);
      var r := Decide(w, s, d);
      if !r.err {
        MarkResolvedLoad(r.s);
        AfterDecisionTame(w, r.s, d);
      } else {
      }
    }
  }

  lemma ResolveAttemptTame(w: World, s: State)
    requires s.active.Some?
    ensures Tame(s, ResolveAttempt(w, s))
  {
    hide ResolveDisposition, Classify;
    TameSelf(s);
    ResolveDispositionTame(w, s, Classify(s.active.value.result, s.active.value.err));
  }

  /** Facts recorded on the attempt weigh nothing. */
  lemma RecordTame(s: State, a: Attempt)
    requires s.active.Some? && a.resolved == s.active.value.resolved
    ensures Tame(s, Ret(s.(active := Some(a)), false))
  {
  }

  lemma ObserveSteerTame(w: World, s: State, result: SteerResult, err: CallError)
    ensures Tame(s, ObserveSteer(w, s, result, err))
  {
    hide Tame, ResolveAttempt;
    TameSelf(s);
    if MustHold(s) {
      var t := s.(active := Some(WithObservation(s.active.value, result, err)));
      RecordTame(s, WithObservation(s.active.value, result, err));
      ResolveAttemptTame(w, t);
      TameFrom(s, t, ResolveAttempt(w, t));
    }
  }

  lemma CompleteTame(w: World, s: State, serial: nat, result: SteerResult, err: CallError)
    ensures Tame(s, Complete(w, s, serial, result, err))
  {
    hide Tame, ResolveAttempt, Retire, Conclusive, WithCompletion;
    TameSelf(s);
    if s.active.Some? && s.active.value.serial == serial {
      var a := WithCompletion(s.active.value, result, err);
      var t := s.(active := Some(a));
      CompletionShape(s.active.value, result, err);
      RecordTame(s, a);
      ResolveAttemptTame(w, t);
      var r := ResolveAttempt(w, t);
      TameFrom(s, t, r);
      if !r.err {
        RetireTame(w, r.s, serial);
        TameTwice(s, r, Retire(w, r.s, serial));
      }
    }
  }

  lemma CompletionShape(a: Attempt, result: SteerResult, err: CallError)
    ensures WithCompletion(a, result, err).resolved == a.resolved
  {
  }

  lemma ClockTame(s: State, timer: Option<Timer>, deadline: Option<Timer>, made: nat)
    ensures Tame(s, Ret(s.(timer := timer), false)) && Tame(s, Ret(s.(deadlineTimer := deadline), false))
    ensures Tame(s, Ret(s.(timer := timer, timersMade := made), false))
  {
  }

  lemma ExpireTame(s: State)
    requires s.active.Some?
    ensures Tame(s, Ret(Expire(s), false)) && Tame(s, Ret(Expire(s.(deadlineTimer := None)), false))
  {
    hide Tame;
    var t := s.(deadlineTimer := None);
    ClockTame(s, None, None, 0);
    RecordTame(s, s.active.value.(deadlineExpired := true));
    RecordTame(t, s.active.value.(deadlineExpired := true));
    TameFrom(s, t, Ret(Expire(t), false));
  }

  lemma TimeoutTame(w: World, s: State)
    ensures Tame(s, Timeout(w, s))
  {
    hide Tame, ResolveDisposition, Retire;
    TameSelf(s);
    if s.terminal && MustHold(s) {
      var t := s.(timer := None);
      ClockTame(s, None, None, 0);
      ResolveDispositionTame(w, t, AsUnknown);
      var r := ResolveDisposition(w, t, AsUnknown);
      TameFrom(s, t, r);
      if !r.err {
        if r.s.active.None? {
          TameSelf(r.s);
          TameTwice(s, r, Ret(r.s, r.s.fault));
        } else {
          RetireTame(w, r.s, r.s.active.value.serial);
          TameTwice(s, r, Retire(w, r.s, r.s.active.value.serial));
        }
      }
    }
  }

  lemma DeadlineTame(w: World, s: State)
    ensures Tame(s, DeadlineTimeout(w, s))
  {
    hide Tame, ResolveDisposition, Retire;
    TameSelf(s);
    if s.active.Some? {
      var t := Expire(s.(deadlineTimer := None));
      ExpireTame(s);
      if t.active.value.resolved {
        RetireTame(w, t, s.active.value.serial);
        TameFrom(s, t, Retire(w, t, s.active.value.serial));
      } else {
        ResolveDispositionTame(w, t, AsUnknown);
        var r := ResolveDisposition(w, t, AsUnknown);
        TameFrom(s, t, r);
        if !r.err {
          TameSelf(r.s);
          TameTwice(s, r, Ret(r.s, r.s.fault));
        }
      }
    }
  }

  /** The terminal fact: whoever still waits goes to the queue, and only the active attempt may be left. */
  lemma ResolvePendingTame(w: World, s: State)
    ensures Tame(s, ResolvePendingBeforeTerminal(w, s))
    ensures !ResolvePendingBeforeTerminal(w, s).err ==> ResolvePendingBeforeTerminal(w, s).s.pending == []
  {
    hide Tame, ResolveAttempt, QueuePending;
    TameSelf(s);
    var evident := s.active.Some? && !s.active.value.resolved && (s.active.value.done || s.active.value.seen);
    var r := if evident then ResolveAttempt(w, s) else Ret(s, false);
    if s.active.Some? {
      ResolveAttemptTame(w, s);
    }
    if !r.err {
      var t := StartTerminalTimer(r.s);
      TerminalTimerTame(r.s);
      TameSelf(r.s);
      TameFrom(s, r.s, Ret(t, false));
      QueuePendingTame(w, t);
      QueuePendingTame(w, r.s);
      TameFrom(s, t, QueuePending(w, t));
      TameTwice(s, r, QueuePending(w, r.s));
    }
  }

  lemma TerminalTimerTame(s: State)
    ensures Tame(s, Ret(StartTerminalTimer(s), false))
  {
    if s.timer.None? {
      var bound := if s.active.Some? && s.active.value.writerAdmitted then AckTimeout else CallTimeout;
      ClockTame(s, Some(NewTimer(s, bound)), None, s.timersMade + 1);
    } else {
      TameSelf(s);
    }
  }

  lemma BeforeTerminalTame(w: World, s: State)
    ensures Tame(s, BeforeTerminal(w, s)) && BeforeTerminal(w, s).s.terminal
    ensures !BeforeTerminal(w, s).err ==> BeforeTerminal(w, s).s.pending == []
  {
    hide ResolvePendingBeforeTerminal;
    var t := s.(terminal := true);
    ResolvePendingTame(w, t);
    assert Tame(s, Ret(t, false));
    TameFrom(s, t, ResolvePendingBeforeTerminal(w, t));
  }

  lemma SetStreamTame(w: World, s: State, ordered: bool)
    ensures Tame(s, SetStream(w, s, ordered))
  {
    hide QueuePending, Pump;
    var t := s.(ordered := ordered, streamKnown := true);
    assert Tame(s, Ret(t, false));
    QueuePendingTame(w, t);
    PumpTame(w, t);
    hide Tame;
    FaultedTame(t, QueuePending(w, t));
    TameFrom(s, t, SetStream(w, s, ordered));
  }

  /** An offered request adds one to the load, whatever becomes of it. */
  lemma OfferLoad(w: World, s: State, input: Input)
    ensures
      var o := Offer(w, s, input);
      && (!s.fault && !o.ret.err ==> !o.ret.s.fault)
      && Load(o.ret.s) <= Load(s) + (if o.handled then 1 else 0)
      && (!o.handled ==> o.ret == Ret(s, false))
  {
    hide QueueFallback, Pump;
    QueueFallbackLoad(w, s, input);
    var t := s.(pending := s.pending + [input]);
    PumpTame(w, t);
    assert Load(t) == Load(s) + 1;
  }

  lemma ShutdownTame(w: World, s: State)
    ensures Tame(s, Shutdown(w, s))
    ensures !Shutdown(w, s).err ==> !Shutdown(w, s).s.fault
  {
    hide ResolveDisposition, Retire, QueuePending;
    var t := s.(terminal := true);
    assert Tame(s, Ret(t, false));
    hide Tame;
    if s.active.Some? {
      var u := Expire(t);
      ExpireTame(t);
      TameFrom(s, t, Ret(u, false));
      ResolveDispositionTame(w, u, AsUnknown);
      RetireTame(w, u, u.active.value.serial);
      var r :=
        if !u.active.value.resolved then ResolveDisposition(w, u, AsUnknown)
        else Retire(w, u, u.active.value.serial);
      TameFrom(s, u, r);
      ShutdownTailTame(w, s, r);
    } else {
      ShutdownTailTame(w, s, Ret(t, false));
    }
  }

  lemma ShutdownTailTame(w: World, s: State, r: Ret)
    requires Tame(s, r)
    ensures
      var q := if r.s.active.None? then QueuePending(w, r.s) else r;
      Tame(s, if r.err then r else if q.err then q else Ret(q.s, q.s.fault))
  {
    hide Tame, QueuePending;
    if !r.err {
      QueuePendingTame(w, r.s);
      var q := if r.s.active.None? then QueuePending(w, r.s) else r;
      if r.s.active.None? {
        TameTwice(s, r, q);
      }
      if !q.err {
        TameSelf(q.s);
        TameTwice(s, q, Ret(q.s, q.s.fault));
      }
    }
  }

  /** The events that bring the actor no new input. */
  predicate BringsNothing(e: Event) {
    !e.InputOffered? && !e.QueueAppend?
  }

  lemma PromptTame(w: World, s: State)
    ensures Tame(s, ObservePrompt(w, s))
  {
    BeforeTerminalTame(w, s);
    hide ResolvePendingBeforeTerminal;
  }

  lemma RemoveTame(s: State, at: nat)
    requires at < |s.loopPending|
    ensures Tame(s, Ret(s.(loopPending := s.loopPending[..at] + s.loopPending[at + 1..]), false))
  {
  }

  /** Every event of the machine but the arrival of an input. */
  lemma StepTame(w: World, s: State, e: Event)
    requires BringsNothing(e)
    ensures Tame(s, StepRet(w, s, e))
  {
    hide Tame, SetStream, ObserveSteer, ObservePrompt, BeforeTerminal, Complete, Timeout, DeadlineTimeout, Shutdown;
    TameSelf(s);
    match e {
      case StreamReady(ordered) => SetStreamTame(w, s, ordered);
      case SteerSeen(_, result, err) => ObserveSteerTame(w, s, result, err);
      case PromptSeen => PromptTame(w, s);
      case UpdateSeen =>
      case TerminalEvent => BeforeTerminalTame(w, s);
      case Completion(serial, result, err) => CompleteTame(w, s, serial, result, err);
      case TerminalClock => TimeoutTame(w, s);
      case DeadlineClock => DeadlineTame(w, s);
      case ShuttingDown => ShutdownTame(w, s);
      case QueueRemove(at) =>
        if at < |s.loopPending| {
          RemoveTame(s, at);
        }
    }
  }
}
