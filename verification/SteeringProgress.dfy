/**
  What the steering machine does not put off: a granted reservation is a started call, a request
  sent to the normal queue is in it and announced, and nobody waits while the machine could start.
 */
module SteeringProgress {
  import opened Options
  import opened DriverContract
  import opened Calls
  import opened SteeringModel
  import opened SteeringRuns
  import opened SteeringTheorems

  /** The requests whose provider call was started. */
  function Started(log: Log): set<nat> {
    if log.Start? then {} else Started(log.past) + if log.call.StartSteer? then {log.call.id} else {}
  }

  /** The requests sent to the normal queue, in order. */
  function Sent(log: Log): seq<nat> {
    if log.Start? then [] else Sent(log.past) + if log.call.Fallback? && log.call.ok then [log.call.id] else []
  }

  /** The requests announced as queued, in order. */
  function Announced(log: Log): seq<nat> {
    if log.Start? then [] else Announced(log.past) + if log.call.PublishQueued? then [log.call.id] else []
  }

  function Ids(q: seq<Input>): seq<nat> {
    seq(|q|, i requires 0 <= i < |q| => q[i].id)
  }

  /** No reservation and no fallback was left half done. */
  predicate Whole(log: Log) {
    Started(log) == Granted(log) && Announced(log) == Sent(log)
  }

  predicate Pumped(s: State) {
    s.streamKnown && s.ordered ==> Blocked(s) || s.active.Some? || s.pending == []
  }

  /** What is sent from `s` to `t` is added to the queue, in order. */
  predicate Sends(s: State, t: State) {
    && |Sent(s.log)| <= |Sent(t.log)| && Sent(t.log)[..|Sent(s.log)|] == Sent(s.log)
    && Ids(t.loopPending) == Ids(s.loopPending) + Sent(t.log)[|Sent(s.log)|..]
  }

  predicate Serves(s: State, t: State) {
    (Whole(s.log) ==> Whole(t.log)) && Sends(s, t)
  }

  predicate Carries(s: State, t: State) {
    Serves(s, t) && (Pumped(s) ==> Pumped(t))
  }

  lemma ServesTwice(s: State, t: State, u: State)
    requires Serves(s, t) && Serves(t, u)
    ensures Serves(s, u)
  {
    hide Whole, Sent, Ids;
    var a, b, c := Sent(s.log), Sent(t.log), Sent(u.log);
    assert c[..|b|][..|a|] == c[..|a|];
    assert c[|a|..] == b[|a|..] + c[|b|..];
  }

  lemma CarriesTwice(s: State, t: State, u: State)
    requires Carries(s, t) && Carries(t, u)
    ensures Carries(s, u)
  {
    ServesTwice(s, t, u);
    hide Serves, Pumped;
  }

  /** Neither the log nor the queue changes. */
  lemma StillServes(s: State, t: State)
    requires t.log == s.log && t.loopPending == s.loopPending
    ensures Serves(s, t)
  {
  }

  /** The machine is no readier to start than before. */
  predicate Lazier(s: State, t: State) {
    && t.streamKnown == s.streamKnown && t.ordered == s.ordered
    && (Blocked(s) ==> Blocked(t)) && (s.active.Some? ==> t.active.Some?) && (s.pending == [] ==> t.pending == [])
  }

  lemma LazierPumped(s: State, t: State)
    requires Lazier(s, t)
    ensures Pumped(s) ==> Pumped(t)
  {
  }

  lemma StillCarries(s: State, t: State)
    requires t.log == s.log && t.loopPending == s.loopPending && Lazier(s, t)
    ensures Carries(s, t)
  {
    StillServes(s, t);
    LazierPumped(s, t);
    hide Serves, Pumped, Lazier;
  }

  predicate Minor(c: Call) {
    || c.CancelSteer? || c.PublishFold? || c.ResolveInjected? || c.ResolveOther?
    || (c.Reserve? && !c.ok) || (c.Fallback? && !c.ok)
  }

  lemma MinorCall(log: Log, c: Call)
    requires Minor(c)
    ensures Started(Then(log, c)) == Started(log) && Granted(Then(log, c)) == Granted(log)
    ensures Sent(Then(log, c)) == Sent(log) && Announced(Then(log, c)) == Announced(log)
  {
  }

  lemma NoteServes(s: State, c: Call)
    requires Minor(c)
    ensures Serves(s, Note(s, c))
  {
    MinorCall(s.log, c);
    hide Started, Granted, Sent, Announced;
  }

  lemma NoteCarries(s: State, c: Call)
    requires Minor(c)
    ensures Carries(s, Note(s, c))
  {
    NoteServes(s, c);
    LazierPumped(s, Note(s, c));
    hide Serves, Pumped;
  }

  lemma SentCalls(log: Log, id: nat)
    ensures
      var l := Then(Then(log, Fallback(id, true)), PublishQueued(id));
      && Started(l) == Started(log) && Granted(l) == Granted(log)
      && Sent(l) == Sent(log) + [id] && Announced(l) == Announced(log) + [id]
  {
    var l := Then(log, Fallback(id, true));
    assert Started(l) == Started(log) && Granted(l) == Granted(log) && Announced(l) == Announced(log);
    assert Sent(l) == Sent(log) + [id];
  }

  /** The request is in the queue when the call succeeded. */
  lemma QueueFallbackCarries(w: World, s: State, input: Input)
    ensures Carries(s, QueueFallback(w, s, input).s)
  {
    var t := QueueFallback(w, s, input).s;
    LazierPumped(s, t);
    if !s.hasHook {
      StillServes(s, t);
    } else if w(s.log) {
      SentCalls(s.log, input.id);
      assert Ids(s.loopPending + [input]) == Ids(s.loopPending) + [input.id];
      hide Started, Granted, Sent, Announced, Ids;
    } else {
      MinorCall(s.log, Fallback(input.id, false));
      hide Started, Granted, Sent, Announced, Ids;
    }
    hide Pumped;
  }

  lemma {:induction false} QueuePendingCarries(w: World, s: State)
    ensures Carries(s, QueuePending(w, s).s)
    decreases |s.pending|
  {
    StillCarries(s, s);
    if s.pending != [] {
      var t := s.(pending := s.pending[1..]);
      var r := QueueFallback(w, t, s.pending[0]);
      StillCarries(s, t);
      QueueFallbackCarries(w, t, s.pending[0]);
      FallbackKeepsPending(w, t, s.pending[0]);
      hide Carries, QueueFallback;
      CarriesTwice(s, t, r.s);
      if !r.err {
        QueuePendingCarries(w, r.s);
        CarriesTwice(s, r.s, QueuePending(w, r.s).s);
      }
    }
  }

  lemma FallbackKeepsPending(w: World, s: State, input: Input)
    ensures QueueFallback(w, s, input).s.pending == s.pending
  {
  }

  lemma FaultedCarries(s: State, r: Ret)
    requires Carries(s, r.s)
    ensures Carries(s, Faulted(r).s)
  {
    StillCarries(r.s, Faulted(r).s);
    hide Carries;
    CarriesTwice(s, r.s, Faulted(r).s);
  }

  lemma GrantCalls(log: Log, id: nat, serial: nat)
    ensures
      var l := Then(Then(log, Reserve(id, true)), StartSteer(id, serial));
      && Started(l) == Started(log) + {id} && Granted(l) == Granted(log) + {id}
      && Sent(l) == Sent(log) && Announced(l) == Announced(log)
  {
    var l := Then(log, Reserve(id, true));
    assert Started(l) == Started(log) && Granted(l) == Granted(log) + {id};
    assert Sent(l) == Sent(log) && Announced(l) == Announced(log);
  }

  /** An idle machine that may start does. */
  lemma PumpServes(w: World, s: State)
    ensures Serves(s, Pump(w, s).s) && Pumped(Pump(w, s).s)
  {
    if Blocked(s) || s.active.Some? || s.pending == [] {
      StillServes(s, s);
    } else {
      var id := s.pending[0].id;
      GrantCalls(s.log, id, s.started);
      MinorCall(s.log, Reserve(id, false));
      hide Started, Granted, Sent, Announced, Ids, DeadlineOf, TimersWith;
    }
  }

  lemma RetireCarries(w: World, s: State, serial: nat)
    ensures Carries(s, Retire(w, s, serial).s)
  {
    StillCarries(s, s);
    var t := s.(timer := None, deadlineTimer := None, active := None);
    var u := Note(t, CancelSteer(serial));
    StillServes(s, t);
    NoteServes(t, CancelSteer(serial));
    ServesTwice(s, t, u);
    PumpServes(w, u);
    ServesTwice(s, u, Pump(w, u).s);
    hide Serves, Pump, Note;
  }

  lemma MarkResolvedCarries(s: State)
    requires s.active.Some?
    ensures Carries(s, MarkResolved(s))
  {
    StillCarries(s, MarkResolved(s));
  }

  lemma AfterDecisionCarries(w: World, s: State, d: Disposition)
    ensures Carries(s, AfterDecision(w, s, d).s)
  {
    StillCarries(s, s);
    if s.active.Some? {
      var serial, s1 := s.active.value.serial, MarkResolved(s);
      MarkResolvedCarries(s);
      StillCarries(s1, s1);
      QueuePendingCarries(w, s1);
      FaultedCarries(s1, QueuePending(w, s1));
      var r := if d.AsFallback? || d.AsUnknown? then Faulted(QueuePending(w, s1)) else Ret(s1, false);
      var s2 := if !d.AsInjected? then Note(r.s, CancelSteer(serial)) else r.s;
      NoteCarries(r.s, CancelSteer(serial));
      StillCarries(r.s, r.s);
      RetireCarries(w, s2, serial);
      hide Carries, QueuePending, Retire, Note, Faulted, MarkResolved;
      CarriesTwice(s, s1, r.s);
      CarriesTwice(s, r.s, s2);
      CarriesTwice(s, s2, Retire(w, s2, serial).s);
    }
  }

  lemma FaultedByCarries(s: State, c: Call)
    requires Minor(c)
    ensures Carries(s, FaultedBy(s, c).s)
  {
    NoteCarries(s, c);
    FaultedCarries(s, Ret(Note(s, c), true));
    hide Carries;
  }

  lemma DecideCarries(w: World, s: State, d: Disposition)
    requires s.active.Some?
    ensures Carries(s, Decide(w, s, d).s)
  {
    match d {
      case AsInjected => InjectCarries(w, s);
      case AsFallback =>
        var t := s.(fallbackBarrier := true);
        StillCarries(s, t);
        QueueFallbackCarries(w, t, s.active.value.input);
        FaultedCarries(t, QueueFallback(w, t, s.active.value.input));
        hide Carries, QueueFallback, Faulted;
        CarriesTwice(s, t, Decide(w, s, d).s);
      case AsUnknown => UnknownCarries(w, s);
      case AsUntrackable => UntrackableCarries(w, s);
    }
    hide Carries, Decide;
  }

  lemma InjectCarries(w: World, s: State)
    requires s.active.Some?
    ensures Carries(s, Decide(w, s, AsInjected).s)
  {
    var id := s.active.value.input.id;
    var s1 := Note(s, PublishFold(id, true));
    FaultedByCarries(s, PublishFold(id, false));
    NoteCarries(s, PublishFold(id, true));
    FaultedByCarries(s1, ResolveInjected(id, false));
    NoteCarries(s1, ResolveInjected(id, true));
    hide Carries, Note, FaultedBy;
    CarriesTwice(s, s1, FaultedBy(s1, ResolveInjected(id, false)).s);
    CarriesTwice(s, s1, Note(s1, ResolveInjected(id, true)));
  }

  lemma UnknownCarries(w: World, s: State)
    requires s.active.Some?
    ensures Carries(s, Decide(w, s, AsUnknown).s)
  {
    var id := s.active.value.input.id;
    var t := Note(s, ResolveOther(id, Resolution.Unknown, true));
    FaultedByCarries(s, ResolveOther(id, Resolution.Unknown, false));
    NoteCarries(s, ResolveOther(id, Resolution.Unknown, true));
    StillCarries(t, t.(disabled := true));
    hide Carries, Note, FaultedBy;
    CarriesTwice(s, t, t.(disabled := true));
  }

  lemma UntrackableCarries(w: World, s: State)
    requires s.active.Some?
    ensures Carries(s, Decide(w, s, AsUntrackable).s)
  {
    var id := s.active.value.input.id;
    var t := Note(s, ResolveOther(id, Resolution.Untrackable, true));
    var u := MarkResolved(t);
    FaultedByCarries(s, ResolveOther(id, Resolution.Untrackable, false));
    NoteCarries(s, ResolveOther(id, Resolution.Untrackable, true));
    MarkResolvedCarries(t);
    StillCarries(u, u.(disabled := true, fault := true));
    hide Carries, Note, FaultedBy, MarkResolved;
    CarriesTwice(s, t, u);
    CarriesTwice(s, u, u.(disabled := true, fault := true));
  }

  lemma ResolveDispositionCarries(w: World, s: State, d: Disposition)
    requires s.active.Some?
    ensures Carries(s, ResolveDisposition(w, s, d).s)
  {
    StillCarries(s, s);
    DecideCarries(w, s, d);
    var t := Decide(w, s, d).s;
    AfterDecisionCarries(w, t, d);
    hide Carries, Decide, AfterDecision;
    CarriesTwice(s, t, AfterDecision(w, t, d).s);
  }

  lemma ResolveAttemptCarries(w: World, s: State)
    requires s.active.Some?
    ensures Carries(s, ResolveAttempt(w, s).s)
  {
    StillCarries(s, s);
    ResolveDispositionCarries(w, s, Classify(s.active.value.result, s.active.value.err));
    hide Carries, ResolveDisposition, Classify;
  }

  lemma ResolvePendingCarries(w: World, s: State)
    ensures Carries(s, ResolvePendingBeforeTerminal(w, s).s)
  {
    StillCarries(s, s);
    var late := s.active.Some? && !s.active.value.resolved && (s.active.value.done || s.active.value.seen);
    var r := if late then ResolveAttempt(w, s) else Ret(s, false);
    if late {
      ResolveAttemptCarries(w, s);
    }
    var t := StartTerminalTimer(r.s);
    StillCarries(r.s, t);
    QueuePendingCarries(w, r.s);
    QueuePendingCarries(w, t);
    hide Carries, ResolveAttempt, QueuePending, StartTerminalTimer;
    CarriesTwice(s, r.s, t);
    CarriesTwice(s, r.s, QueuePending(w, r.s).s);
    CarriesTwice(s, t, QueuePending(w, t).s);
  }

  // ---------------------------------------------------------------- the events

  lemma PromptSeenCarries(w: World, s: State)
    ensures Carries(s, ObservePrompt(w, s).s)
  {
    var t := s.(terminal := true);
    StillCarries(s, t);
    ResolvePendingCarries(w, t);
    hide Carries, ResolvePendingBeforeTerminal;
    CarriesTwice(s, t, ResolvePendingBeforeTerminal(w, t).s);
  }

  lemma SetStreamCarries(w: World, s: State, ordered: bool)
    ensures Serves(s, SetStream(w, s, ordered).s) && Pumped(SetStream(w, s, ordered).s)
  {
    var t := s.(ordered := ordered, streamKnown := true);
    StillServes(s, t);
    QueuePendingCarries(w, t);
    FaultedCarries(t, QueuePending(w, t));
    PumpServes(w, t);
    ServesTwice(s, t, SetStream(w, s, ordered).s);
    hide Serves, Pumped, QueuePending, Pump, Faulted;
    if !ordered {
      assert Pumped(t) by {
        UnorderedIsPumped(t);
      }
    }
  }

  lemma UnorderedIsPumped(s: State)
    requires !s.ordered
    ensures Pumped(s)
  {
  }

  lemma OfferCarries(w: World, s: State, input: Input)
    ensures Carries(s, Offer(w, s, input).ret.s)
  {
    var t := s.(pending := s.pending + [input]);
    StillCarries(s, s);
    StillServes(s, t);
    QueueFallbackCarries(w, s, input);
    PumpServes(w, t);
    ServesTwice(s, t, Pump(w, t).s);
    hide Serves, Pump, QueueFallback;
  }

  lemma CompleteCarries(w: World, s: State, serial: nat, result: SteerResult, err: CallError)
    ensures Carries(s, Complete(w, s, serial, result, err).s)
  {
    StillCarries(s, s);
    if s.active.Some? {
      var t := s.(active := Some(WithCompletion(s.active.value, result, err)));
      StillCarries(s, t);
      ResolveAttemptCarries(w, t);
      var r := ResolveAttempt(w, t);
      RetireCarries(w, r.s, serial);
      hide Carries, ResolveAttempt, Retire, Conclusive, WithCompletion;
      CarriesTwice(s, t, r.s);
      CarriesTwice(s, r.s, Retire(w, r.s, serial).s);
    }
  }

  lemma RecordedCarries(s: State, b: Attempt)
    requires s.active.Some?
    ensures Carries(s, s.(active := Some(b)))
  {
    StillCarries(s, s.(active := Some(b)));
  }

  lemma ObservedCarries(w: World, s: State, b: Attempt)
    requires s.active.Some?
    ensures Carries(s, ResolveAttempt(w, s.(active := Some(b))).s)
  {
    var t := s.(active := Some(b));
    RecordedCarries(s, b);
    ResolveAttemptCarries(w, t);
    hide Carries, ResolveAttempt;
    CarriesTwice(s, t, ResolveAttempt(w, t).s);
  }

  lemma ObserveCarries(w: World, s: State, result: SteerResult, err: CallError)
    ensures Carries(s, ObserveSteer(w, s, result, err).s)
  {
    StillCarries(s, s);
    if s.active.Some? {
      ObservedCarries(w, s, WithObservation(s.active.value, result, err));
    }
    hide Carries, ResolveAttempt, WithObservation;
  }

  lemma TimeoutCarries(w: World, s: State)
    ensures Carries(s, Timeout(w, s).s)
  {
    StillCarries(s, s);
    if s.active.Some? {
      var t := s.(timer := None);
      var r := ResolveDisposition(w, t, AsUnknown);
      StillCarries(s, t);
      ResolveDispositionCarries(w, t, AsUnknown);
      CarriesTwice(s, t, r.s);
      if r.s.active.Some? {
        RetireCarries(w, r.s, r.s.active.value.serial);
        CarriesTwice(s, r.s, Retire(w, r.s, r.s.active.value.serial).s);
      }
      hide Carries, ResolveDisposition, Retire;
    }
  }

  lemma DeadlineCarries(w: World, s: State)
    ensures Carries(s, DeadlineTimeout(w, s).s)
  {
    StillCarries(s, s);
    if s.active.Some? {
      var t := Expire(s.(deadlineTimer := None));
      StillCarries(s, t);
      ResolveDispositionCarries(w, t, AsUnknown);
      RetireCarries(w, t, s.active.value.serial);
      hide Carries, ResolveDisposition, Retire;
      CarriesTwice(s, t, ResolveDisposition(w, t, AsUnknown).s);
      CarriesTwice(s, t, Retire(w, t, s.active.value.serial).s);
    }
  }

  lemma ShutdownCarries(w: World, s: State)
    ensures Carries(s, Shutdown(w, s).s)
  {
    hide Carries, QueuePending, ResolveDisposition, Retire;
    var s1 := s.(terminal := true);
    StillCarries(s, s1);
    if s.active.None? {
      QueuePendingCarries(w, s1);
      CarriesTwice(s, s1, QueuePending(w, s1).s);
    } else {
      var s2 := Expire(s1);
      var r :=
        if s.active.value.resolved then Retire(w, s2, s.active.value.serial)
        else ResolveDisposition(w, s2, AsUnknown);
      StillCarries(s, s2);
      ResolveDispositionCarries(w, s2, AsUnknown);
      RetireCarries(w, s2, s.active.value.serial);
      QueuePendingCarries(w, r.s);
      CarriesTwice(s, s2, r.s);
      CarriesTwice(s, r.s, QueuePending(w, r.s).s);
    }
  }

  /**
    From any state, for every event but a change of the queue by its owner: what is sent to the queue
    arrives there, in order; reservations are started and fallbacks announced; nobody is left waiting.
   */
  lemma StepCarries(w: World, s: State, e: Event)
    requires !e.QueueAppend? && !e.QueueRemove?
    ensures
      var t := StepRet(w, s, e).s;
      Sends(s, t) && (Whole(s.log) ==> Whole(t.log)) && (Pumped(s) ==> Pumped(t))
  {
    StillCarries(s, s);
    match e {
      case StreamReady(ordered) => SetStreamCarries(w, s, ordered);
      case InputOffered(input) => OfferCarries(w, s, input);
      case SteerSeen(_, result, err) => ObserveCarries(w, s, result, err);
      case PromptSeen => PromptSeenCarries(w, s);
      case TerminalEvent => PromptSeenCarries(w, s);
      case Completion(serial, result, err) => CompleteCarries(w, s, serial, result, err);
      case TerminalClock => TimeoutCarries(w, s);
      case DeadlineClock => DeadlineCarries(w, s);
      case ShuttingDown => ShutdownCarries(w, s);
      case UpdateSeen =>
    }
    hide Sends, Pumped, SetStream, Offer, ObserveSteer, ObservePrompt, Timeout, DeadlineTimeout, Shutdown;
  }

  lemma {:induction false} RunCarries(w: World, r: Run, events: seq<Event>)
    requires Whole(r.s.log) && Pumped(r.s)
    ensures Whole(RunOf(w, r, events).s.log) && Pumped(RunOf(w, r, events).s)
    decreases |events|
  {
    hide StepRet;
    if events != [] {
      if events[0].QueueAppend? || events[0].QueueRemove? {
        QueueStep(w, r.s, events[0]);
      } else {
        StepCarries(w, r.s, events[0]);
      }
      hide Whole, Pumped;
      RunCarries(w, Step(w, r, events[0]), events[1..]);
    }
  }

  lemma QueueStep(w: World, s: State, e: Event)
    requires e.QueueAppend? || e.QueueRemove?
    ensures StepRet(w, s, e).s.log == s.log && (Pumped(s) ==> Pumped(StepRet(w, s, e).s))
  {
  }

  /**
    In every run, failures included: with an ordered stream and no barrier, nobody is pending while no
    call is active; every granted reservation was followed by its provider call, and every request
    sent to the normal queue was announced.
   */
  lemma NobodyWaitsIdly(w: World, hasHook: bool, hasSteerer: bool, queued: seq<Input>, events: seq<Event>)
    ensures
      var s := Turn(w, hasHook, hasSteerer, queued, events).s;
      && (s.streamKnown && s.ordered && !Blocked(s) && s.active.None? ==> s.pending == [])
      && Started(s.log) == Granted(s.log) && Announced(s.log) == Sent(s.log)
  {
    RunCarries(w, Initial(hasHook, hasSteerer, queued), events);
  }
}
