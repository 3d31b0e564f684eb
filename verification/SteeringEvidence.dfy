/**
  Which decision each reserved request gets in a whole run: what the result last given for it calls
  for, unless a clock or the shutdown caught it undecided.
 */
module SteeringEvidence {
  import opened Options
  import opened DriverContract
  import opened Calls
  import opened SteeringModel
  import opened SteeringRuns
  import opened SteeringInvariant
  import opened SteeringTheorems
  import opened SteeringVerdicts

  /** The verdict is the one the evidence calls for. */
  predicate Justifies(v: Evidence, id: nat, k: Verdict) {
    (id in v.told && k == Due(v.told[id].0)) || (id in v.clocked && k == Doubtful)
  }

  /** The same, when no call failed: a clock that caught the request undecided has decided. */
  predicate Demands(v: Evidence, id: nat, k: Verdict) {
    if id in v.clocked then k == Doubtful else id in v.told && k == Due(v.told[id].0)
  }

  /** An undecided attempt holds the evidence given so far. */
  predicate Holds(s: State, v: Evidence) {
    MustHold(s) ==>
      var a := s.active.value;
      && (a.input.id in v.told <==> a.done || a.seen)
      && (a.input.id in v.told ==> v.told[a.input.id] == (a.result, a.err))
      && (a.input.id in v.observed <==> a.seen)
  }

  /** Nothing given so far settles it: at most the end of a call that the ordered stream has yet to report. */
  predicate Waits(s: State, v: Evidence) {
    MustHold(s) ==>
      var a := s.active.value;
      && a.input.id !in v.clocked && !a.seen
      && (a.done ==> !Conclusive(a.result, a.err) && !s.terminal)
  }

  ghost predicate Ruled(s: State, v: Evidence) {
    && (forall id, k :: Ruling(s.log, id) == Some(k) ==> Justifies(v, id, k))
    && (Faultless(s.log) ==> Waits(s, v))
    && (Faultless(s.log) ==> forall id :: id in Granted(s.log) ==>
          if Ruling(s.log, id).Some? then Demands(v, id, Ruling(s.log, id).value)
          else MustHold(s) && s.active.value.input.id == id)
  }

  ghost predicate Known(s: State, v: Evidence) {
    && Named(s) && Holds(s, v) && Ruled(s, v)
    && (forall id :: id in v.told ==> id in Granted(s.log))
    && (forall id :: id in v.observed || id in v.clocked ==> id in Granted(s.log))
  }

  /** `p` is `s` with the evidence of an event recorded. */
  predicate Recorded(s: State, p: State) {
    && p.log == s.log && p.pending == s.pending && p.hasHook == s.hasHook
    && (s.active.Some? <==> p.active.Some?)
    && (s.active.Some? ==>
          p.active.value.input == s.active.value.input && p.active.value.resolved == s.active.value.resolved)
  }

  /** The evidence changes only for the active, undecided request. */
  ghost predicate Grows(s: State, v: Evidence, u: Evidence) {
    && (forall id :: !(MustHold(s) && id == s.active.value.input.id) ==>
          && (id in u.told <==> id in v.told) && (id in u.told ==> u.told[id] == v.told[id])
          && (id in u.clocked <==> id in v.clocked) && (id in u.observed <==> id in v.observed))
    && (MustHold(s) && s.active.value.input.id in v.clocked ==> s.active.value.input.id in u.clocked)
  }

  /** What an event decides about the active request, if it is undecided. */
  predicate Settles(p: State, t: State, u: Evidence, k: Option<Verdict>) {
    MustHold(p) ==>
      var a := p.active.value;
      if k.Some? then Justifies(u, a.input.id, k.value) && (Faultless(t.log) ==> Demands(u, a.input.id, k.value))
      else Faultless(t.log) ==> !a.seen && (a.done ==> !Conclusive(a.result, a.err) && !t.terminal)
  }

  /** An event, from the state with its evidence recorded to the state after it. */
  ghost predicate Happens(s: State, p: State, t: State, v: Evidence, u: Evidence, k: Option<Verdict>) {
    && Known(s, v) && Recorded(s, p) && Moves(p, t, k) && Holds(p, u) && Grows(s, v, u) && Settles(p, t, u, k)
    && (MustHold(s) ==> Ruling(s.log, s.active.value.input.id) == None)
    && (MustHold(t) ==> Ruling(t.log, t.active.value.input.id) == None)
    && (k.None? && MustHold(s) && s.active.value.input.id in u.clocked ==> s.active.value.input.id in v.clocked)
  }

  lemma StaysNamed(s: State, p: State)
    requires Named(s) && Recorded(s, p)
    ensures Named(p)
  {
  }

  lemma HoldsStep(s: State, p: State, t: State, v: Evidence, u: Evidence, k: Option<Verdict>)
    requires Happens(s, p, t, v, u, k)
    ensures Named(t) && Holds(t, u)
    ensures forall id :: id in u.told ==> id in Granted(t.log)
    ensures forall id :: id in u.observed || id in u.clocked ==> id in Granted(t.log)
  {
    StaysNamed(s, p);
    hide Ruling, Faultless, Due, Conclusive;
    if MustHold(t) && !(p.active.Some? && Same(p.active.value, t.active.value)) {
      var id := t.active.value.input.id;
      assert id !in Granted(s.log) && (s.active.Some? ==> id != s.active.value.input.id);
      assert id !in v.told && id !in v.observed;
      assert id !in u.told && id !in u.observed;
    }
    hide Granted;
  }

  lemma JustifiesStep(s: State, p: State, t: State, v: Evidence, u: Evidence, k: Option<Verdict>)
    requires Happens(s, p, t, v, u, k)
    ensures forall id, x :: Ruling(t.log, id) == Some(x) ==> Justifies(u, id, x)
  {
    StaysNamed(s, p);
    hide Ruling, Faultless, Due, Conclusive, Granted, Named;
    forall id, x | Ruling(t.log, id) == Some(x) ensures Justifies(u, id, x) {
      if Ruling(s.log, id) == Some(x) {
        assert Justifies(v, id, x);
      }
    }
  }

  lemma WaitsStep(s: State, p: State, t: State, v: Evidence, u: Evidence, k: Option<Verdict>)
    requires Happens(s, p, t, v, u, k) && Faultless(t.log)
    ensures Waits(t, u)
  {
    StaysNamed(s, p);
    HoldsStep(s, p, t, v, u, k);
    hide Ruling, Faultless, Due, Conclusive, Granted, Named;
  }

  lemma DemandsStep(s: State, p: State, t: State, v: Evidence, u: Evidence, k: Option<Verdict>, id: nat)
    requires Happens(s, p, t, v, u, k) && Faultless(t.log) && id in Granted(t.log)
    ensures if Ruling(t.log, id).Some? then Demands(u, id, Ruling(t.log, id).value)
            else MustHold(t) && t.active.value.input.id == id
  {
    StaysNamed(s, p);
    assert id in Granted(s.log) && Ruling(s.log, id).Some? ==> Demands(v, id, Ruling(s.log, id).value);
    assert id in Granted(s.log) && Ruling(s.log, id).None? ==> MustHold(s) && s.active.value.input.id == id;
    hide Ruled, Waits, Ruling, Faultless, Due, Conclusive, Granted, Named;
    if id in Granted(s.log) {
      if MustHold(s) && s.active.value.input.id == id {
      } else {
        assert Ruling(t.log, id) == Ruling(s.log, id);
      }
    } else {
      assert MustHold(t) && t.active.value.input.id == id;
    }
  }

  lemma KnownStep(s: State, p: State, t: State, v: Evidence, u: Evidence, k: Option<Verdict>)
    requires Happens(s, p, t, v, u, k)
    ensures Known(t, u)
  {
    HoldsStep(s, p, t, v, u, k);
    JustifiesStep(s, p, t, v, u, k);
    if Faultless(t.log) {
      WaitsStep(s, p, t, v, u, k);
      forall id | id in Granted(t.log)
        ensures if Ruling(t.log, id).Some? then Demands(u, id, Ruling(t.log, id).value)
                else MustHold(t) && t.active.value.input.id == id
      {
        DemandsStep(s, p, t, v, u, k, id);
      }
    }
    hide Happens, Holds, Waits, Named, Ruling, Granted, Faultless, Justifies, Demands;
  }

  // ---------------------------------------------------------------- the events

  lemma {:induction false} RulingDecides(log: Log, id: nat)
    ensures Ruling(log, id).Some? ==> id in Decided(log) && id in Granted(log)
  {
    if log.Then? {
      RulingDecides(log.past, id);
    }
  }

  /** An undecided attempt has no ruling. */
  lemma Unruled(s: State, m: Memory)
    requires Core(s, m)
    ensures MustHold(s) ==> Ruling(s.log, s.active.value.input.id) == None && s.ordered
  {
    if MustHold(s) {
      RulingDecides(s.log, s.active.value.input.id);
    }
    hide Ruling, Granted, Decided, Protocol;
  }

  /** Names that come now follow all that were given. */
  lemma NewerInput(s: State, m: Memory, input: Input)
    requires Core(s, m) && input.id >= m.n
    ensures Newer(s, input)
  {
    hide Granted, Decided, Protocol, Asked;
  }

  /** Events that give no evidence and decide nothing. */
  lemma IdleStep(s: State, t: State, v: Evidence)
    requires Known(s, v) && Moves(s, t, None) && (t.terminal ==> s.terminal)
    requires MustHold(s) ==> Ruling(s.log, s.active.value.input.id) == None
    requires MustHold(t) ==> Ruling(t.log, t.active.value.input.id) == None
    ensures Known(t, v)
  {
    assert Happens(s, s, t, v, v, None) by {
      hide Ruling, Granted, Conclusive, Due;
    }
    hide Happens, Known, Moves;
    KnownStep(s, s, t, v, v, None);
  }

  lemma OfferTerminal(w: World, s: State, input: Input)
    ensures Offer(w, s, input).ret.s.terminal == s.terminal
  {
  }

  lemma SetStreamTerminal(w: World, s: State, ordered: bool)
    ensures SetStream(w, s, ordered).s.terminal == s.terminal
  {
    var t := s.(ordered := ordered, streamKnown := true);
    QueuePendingTerminal(w, t);
  }

  lemma {:induction false} QueuePendingTerminal(w: World, s: State)
    ensures QueuePending(w, s).s.terminal == s.terminal
    decreases |s.pending|
  {
    if s.pending != [] {
      var r := QueueFallback(w, s.(pending := s.pending[1..]), s.pending[0]);
      FallbackPending(w, s.(pending := s.pending[1..]), s.pending[0]);
      if !r.err {
        QueuePendingTerminal(w, r.s);
      }
    }
  }

  /** The prompt's end: what is known of the attempt decides, and nothing if nothing is. */
  lemma PromptStep(w: World, s: State, v: Evidence)
    requires Known(s, v)
    requires MustHold(s) ==> Ruling(s.log, s.active.value.input.id) == None
    requires
      var t := ObservePrompt(w, s).s;
      MustHold(t) ==> Ruling(t.log, t.active.value.input.id) == None
    ensures Known(ObservePrompt(w, s).s, v)
  {
    var late := MustHold(s) && (s.active.value.done || s.active.value.seen);
    var k := if late then Some(Due(s.active.value.result)) else None;
    var t := ObservePrompt(w, s).s;
    PromptMoves(w, s);
    assert Happens(s, s, t, v, v, k) by {
      hide Ruling, Granted, Conclusive, Due, ObservePrompt;
    }
    hide Happens, Known, Moves, ObservePrompt;
    KnownStep(s, s, t, v, v, k);
  }

  lemma ObserveStep(w: World, s: State, v: Evidence, tag: nat, result: SteerResult, err: CallError)
    requires Known(s, v) && MustHold(s) && Ruling(s.log, s.active.value.input.id) == None
    requires
      var t := ObserveSteer(w, s, result, err).s;
      MustHold(t) ==> Ruling(t.log, t.active.value.input.id) == None
    ensures Known(ObserveSteer(w, s, result, err).s, Noted(v, s, SteerSeen(tag, result, err)))
  {
    var p := s.(active := Some(WithObservation(s.active.value, result, err)));
    var t, u := ObserveSteer(w, s, result, err).s, Noted(v, s, SteerSeen(tag, result, err));
    ObserveMoves(w, s, result, err);
    assert Happens(s, p, t, v, u, Some(Due(result))) by {
      hide Ruling, Granted, Conclusive, Due, ObserveSteer;
    }
    hide Happens, Known, Moves, ObserveSteer;
    KnownStep(s, p, t, v, u, Some(Due(result)));
  }

  lemma CompleteTerminal(w: World, s: State, serial: nat, result: SteerResult, err: CallError)
    requires s.active.Some? && s.active.value.serial == serial
    requires !s.active.value.seen && !Conclusive(result, err) && s.ordered && !s.terminal
    ensures !Complete(w, s, serial, result, err).s.terminal
  {
  }

  lemma CompletionRecorded(s: State, v: Evidence, serial: nat, result: SteerResult, err: CallError)
    requires Known(s, v) && s.active.Some? && s.active.value.serial == serial
    ensures
      var p := s.(active := Some(WithCompletion(s.active.value, result, err)));
      var u := Noted(v, s, Completion(serial, result, err));
      Recorded(s, p) && Holds(p, u) && Grows(s, v, u)
  {
    hide Ruling, Granted, Named, Ruled;
  }

  lemma CompleteStep(w: World, s: State, v: Evidence, serial: nat, result: SteerResult, err: CallError)
    requires Known(s, v) && s.active.Some? && s.active.value.serial == serial
    requires MustHold(s) ==> Ruling(s.log, s.active.value.input.id) == None
    requires
      var t := Complete(w, s, serial, result, err).s;
      MustHold(t) ==> Ruling(t.log, t.active.value.input.id) == None
    ensures Known(Complete(w, s, serial, result, err).s, Noted(v, s, Completion(serial, result, err)))
  {
    var p := s.(active := Some(WithCompletion(s.active.value, result, err)));
    var waits := !p.active.value.seen && !Conclusive(result, err) && s.ordered && !s.terminal;
    var k := if waits then None else Some(Due(result));
    var t, u := Complete(w, s, serial, result, err).s, Noted(v, s, Completion(serial, result, err));
    CompleteMoves(w, s, serial, result, err);
    if waits {
      CompleteTerminal(w, s, serial, result, err);
    }
    CompletionRecorded(s, v, serial, result, err);
    assert Happens(s, p, t, v, u, k) by {
      hide Ruling, Granted, Conclusive, Due, Complete, Recorded, Grows, Moves;
    }
    hide Happens, Known, Moves, Complete;
    KnownStep(s, p, t, v, u, k);
  }

  /** A clock or the shutdown. */
  lemma ClockStep(s: State, t: State, v: Evidence, u: Evidence)
    requires Known(s, v) && Moves(s, t, if MustHold(s) then Some(Doubtful) else None) && (MustHold(s) || u == v)
    requires MustHold(s) ==> u == v.(clocked := v.clocked + {s.active.value.input.id})
    requires MustHold(s) ==> Ruling(s.log, s.active.value.input.id) == None
    requires MustHold(t) ==> Ruling(t.log, t.active.value.input.id) == None
    ensures Known(t, u)
  {
    var k := if MustHold(s) then Some(Doubtful) else None;
    assert Happens(s, s, t, v, u, k) by {
      hide Ruling, Granted, Conclusive, Due;
    }
    hide Happens, Known, Moves;
    KnownStep(s, s, t, v, u, k);
  }

  lemma StepKnown(w: World, r: Run, e: Event)
    requires Inv(r) && Enabled(r, e) && Known(r.s, r.evidence)
    ensures Known(Step(w, r, e).s, Step(w, r, e).evidence)
  {
    var s, v, t := r.s, r.evidence, StepRet(w, r.s, e).s;
    StepKeeps(w, r, e);
    Unruled(s, MemoryOf(r));
    Unruled(t, MemoryOf(Step(w, r, e)));
    UntouchedMoves(s, s);
    hide Inv, Core, Known, Moves, Ruling, Granted;
    match e {
      case StreamReady(ordered) =>
        SetStreamMoves(w, s, ordered);
        SetStreamTerminal(w, s, ordered);
        IdleStep(s, t, v);
      case InputOffered(input) =>
        OfferedIsNewer(r, input);
        OfferMoves(w, s, input);
        OfferTerminal(w, s, input);
        IdleStep(s, t, v);
      case SteerSeen(tag, result, err) =>
        if MustHold(s) {
          ObserveStep(w, s, v, tag, result, err);
        }
      case PromptSeen => PromptStep(w, s, v);
      case TerminalEvent => PromptStep(w, s, v);
      case Completion(serial, result, err) =>
        if s.active.Some? && s.active.value.serial == serial {
          CompleteStep(w, s, v, serial, result, err);
        }
      case TerminalClock =>
        if MustHold(s) && s.terminal {
          TimeoutMoves(w, s);
          ClockStep(s, t, v, Noted(v, s, e));
        }
      case DeadlineClock =>
        if s.active.Some? {
          DeadlineMoves(w, s);
          ClockStep(s, t, v, Noted(v, s, e));
        }
      case ShuttingDown =>
        ShutdownMoves(w, s);
        ClockStep(s, t, v, Noted(v, s, e));
      case UpdateSeen =>
      case QueueAppend(_) =>
        UntouchedMoves(s, t);
        IdleStep(s, t, v);
      case QueueRemove(_) =>
        UntouchedMoves(s, t);
        IdleStep(s, t, v);
    }
  }

  lemma OfferedIsNewer(r: Run, input: Input)
    requires Inv(r) && Enabled(r, InputOffered(input))
    ensures Newer(r.s, input)
  {
    hide Core;
    NewerInput(r.s, MemoryOf(r), input);
  }

  lemma {:induction false} RunKnown(w: World, r: Run, events: seq<Event>)
    requires Inv(r) && Known(r.s, r.evidence) && Possible(w, r, events)
    ensures Known(RunOf(w, r, events).s, RunOf(w, r, events).evidence)
    decreases |events|
  {
    hide Inv, Known, Step, Enabled;
    if events != [] {
      StepKnown(w, r, events[0]);
      StepKeeps(w, r, events[0]);
      RunKnown(w, Step(w, r, events[0]), events[1..]);
    }
  }

  lemma TurnKnown(w: World, hasHook: bool, hasSteerer: bool, queued: seq<Input>, events: seq<Event>)
    requires TurnPossible(w, hasHook, hasSteerer, queued, events)
    ensures
      var r := Turn(w, hasHook, hasSteerer, queued, events);
      Known(r.s, r.evidence) && Protocol(r.s.log)
  {
    var r0 := Initial(hasHook, hasSteerer, queued);
    InitialInv(hasHook, hasSteerer, queued);
    assert Known(r0.s, r0.evidence);
    RunKnown(w, r0, events);
    DeliveryProtocol(w, hasHook, hasSteerer, queued, events);
    hide Known, Inv;
  }

  // ---------------------------------------------------------------- what the results mean

  /**
    In every run, failures included: a reserved request is resolved injected only if the result last
    given for it is valid and says injected, sent to the queue only if it is valid and safe to retry,
    resolved untrackable only if it is valid and says so; and resolved unknown only if it is none of
    these, or a clock or the shutdown caught the request undecided.
   */
  lemma EvidenceDecides(w: World, hasHook: bool, hasSteerer: bool, queued: seq<Input>, events: seq<Event>, id: nat)
    requires TurnPossible(w, hasHook, hasSteerer, queued, events)
    ensures
      var r := Turn(w, hasHook, hasSteerer, queued, events);
      var log, v := r.s.log, r.evidence;
      var given := id in v.told && v.told[id].0.Valid();
      && (Made(log, ResolveInjected(id, true)) ==> given && v.told[id].0.outcome.Injected?)
      && (Made(log, Fallback(id, true)) && id in Granted(log) ==> given && v.told[id].0.outcome.RetrySafe())
      && (Made(log, ResolveOther(id, Resolution.Untrackable, true)) ==>
            given && v.told[id].0.outcome.DeliveredUntrackable?)
      && (Made(log, ResolveOther(id, Resolution.Unknown, true)) ==>
            || id in v.clocked
            || (id in v.told && (given ==> v.told[id].0.outcome in {AdmissionUnknown, DeliveryUnknown})))
  {
    hide Turn, Made, Ruling, Granted, Protocol, Named, Holds, Waits, TurnPossible;
    TurnKnown(w, hasHook, hasSteerer, queued, events);
    var log := Turn(w, hasHook, hasSteerer, queued, events).s.log;
    RulingIsCall(log, id, Folded);
    RulingIsCall(log, id, Requeued);
    RulingIsCall(log, id, Doubtful);
    RulingIsCall(log, id, Untracked);
    OnlyReserved(log, id);
  }

  lemma {:induction false} OnlyReserved(log: Log, id: nat)
    requires Protocol(log)
    ensures Made(log, ResolveInjected(id, true)) ==> id in Granted(log)
    ensures Made(log, ResolveOther(id, Resolution.Untrackable, true)) ==> id in Granted(log)
    ensures Made(log, ResolveOther(id, Resolution.Unknown, true)) ==> id in Granted(log)
  {
    if log.Then? {
      OnlyReserved(log.past, id);
    }
  }

  /**
    And in a run whose calls succeed it is: every reserved request but the active one that waits is
    decided, as unknown if a clock or the shutdown caught it undecided, and otherwise as the result
    last given for it calls for. It waits at most for the ordered stream, after the end of its call,
    before the prompt's, and without a result that is conclusive by itself.
   */
  lemma EvidenceIsHeeded(w: World, hasHook: bool, hasSteerer: bool, queued: seq<Input>, events: seq<Event>, id: nat)
    requires TurnPossible(w, hasHook, hasSteerer, queued, events)
    ensures
      var r := Turn(w, hasHook, hasSteerer, queued, events);
      var log, v := r.s.log, r.evidence;
      Faultless(log) && id in Granted(log) ==>
        if MustHold(r.s) && id == r.s.active.value.input.id then
          && id !in Decided(log) && id !in v.clocked && id !in v.observed
          && (id in v.told ==> !r.s.terminal && !Conclusive(v.told[id].0, v.told[id].1))
        else if id in v.clocked then Made(log, ResolveOther(id, Resolution.Unknown, true))
        else id in v.told && Made(log, CallFor(id, Due(v.told[id].0)))
  {
    TurnKnown(w, hasHook, hasSteerer, queued, events);
    TurnInv(w, hasHook, hasSteerer, queued, events);
    var r := Turn(w, hasHook, hasSteerer, queued, events);
    var log, v := r.s.log, r.evidence;
    UndecidedActive(r.s, MemoryOf(r));
    if Faultless(log) && id in Granted(log) && Ruling(log, id).Some? {
      RulingIsCall(log, id, Ruling(log, id).value);
    }
    hide Turn, Made, Granted, Protocol, Named, Core, Conclusive, Due;
  }

  lemma UndecidedActive(s: State, m: Memory)
    requires Core(s, m)
    ensures MustHold(s) ==> s.active.value.input.id !in Decided(s.log)
  {
  }
}
