/**
  Which durable decision a reserved request gets: the one its result calls for, or `unknown` if a
  clock or the shutdown came first.
 */
module SteeringVerdicts {
  import opened Options
  import opened DriverContract
  import opened Calls
  import opened SteeringModel
  import opened SteeringRuns
  import opened SteeringInvariant
  import opened SteeringTheorems

  /** Folded into the turn, sent to the normal queue, unknown, or delivered where nothing can tell. */
  datatype Verdict = Folded | Requeued | Doubtful | Untracked

  /** What the provider's result calls for. */
  function Due(result: SteerResult): Verdict {
    if !result.Valid() then Doubtful
    else if result.outcome.Injected? then Folded
    else if result.outcome.RetrySafe() then Requeued
    else if result.outcome.DeliveredUntrackable? then Untracked
    else Doubtful
  }

  /** The call that makes the decision. */
  function CallFor(id: nat, v: Verdict): Call {
    match v
    case Folded => ResolveInjected(id, true)
    case Requeued => Fallback(id, true)
    case Doubtful => ResolveOther(id, Resolution.Unknown, true)
    case Untracked => ResolveOther(id, Resolution.Untrackable, true)
  }

  predicate Made(log: Log, c: Call) {
    log.Then? && (log.call == c || Made(log.past, c))
  }

  /** The decision about a request that had been reserved, if there is one. */
  function Ruling(log: Log, id: nat): Option<Verdict> {
    if log.Start? then None
    else if id in Granted(log.past) && id in Decides(log.call) then
      Some(match log.call
           case Fallback(_, _) => Requeued
           case ResolveInjected(_, _) => Folded
           case ResolveOther(_, state, _) => if state.Unknown? then Doubtful else Untracked)
    else Ruling(log.past, id)
  }

  lemma {:induction false} RulingIsCall(log: Log, id: nat, v: Verdict)
    requires Protocol(log)
    ensures Ruling(log, id).Some? ==> id in Granted(log) && id in Decided(log)
    ensures Ruling(log, id) == Some(v) <==> id in Granted(log) && Made(log, CallFor(id, v))
    ensures Made(log, CallFor(id, v)) ==> id in Decided(log)
  {
    if log.Then? {
      RulingIsCall(log.past, id, v);
    }
  }

  // ---------------------------------------------------------------- calls

  predicate Decisive(c: Call) {
    c.Fallback? || c.ResolveInjected? || c.ResolveOther?
  }

  lemma OtherCall(log: Log, c: Call)
    requires !Decisive(c)
    ensures forall id :: Ruling(Then(log, c), id) == Ruling(log, id)
    ensures !c.Reserve? ==> Granted(Then(log, c)) == Granted(log) && Asked(Then(log, c)) == Asked(log)
    ensures Granted(log) <= Granted(Then(log, c)) && (Faultless(Then(log, c)) ==> Faultless(log))
  {
  }

  lemma DecisiveCall(log: Log, c: Call)
    requires Decisive(c)
    ensures forall id :: id != c.id || c.id !in Granted(log) || !c.ok ==> Ruling(Then(log, c), id) == Ruling(log, id)
    ensures Granted(Then(log, c)) == Granted(log) && Asked(Then(log, c)) == Asked(log)
    ensures Faultless(Then(log, c)) ==> Faultless(log) && c.ok
  {
    assert Decides(c) == if c.ok then {c.id} else {};
    hide Decides;
  }

  lemma DecisiveOwn(log: Log, c: Call, v: Verdict)
    requires Decisive(c) && c.id in Granted(log) && c == CallFor(c.id, v)
    ensures Ruling(Then(log, c), c.id) == Some(v)
  {
  }

  // ---------------------------------------------------------------- what operations decide

  /** Those who wait were not reserved, and the active attempt was. */
  predicate Named(s: State) {
    && Ascending(s.pending)
    && (forall id, k :: id in Asked(s.log) && 0 <= k < |s.pending| ==> id < s.pending[k].id)
    && Granted(s.log) <= Asked(s.log)
    && (s.active.Some? ==> s.active.value.input.id in Granted(s.log))
    && (s.active.Some? || s.pending != [] ==> s.hasHook)
  }

  /** The same attempt, with the same evidence. */
  predicate Same(a: Attempt, b: Attempt) {
    b.input == a.input && b.done == a.done && b.seen == a.seen && b.result == a.result && b.err == a.err
  }

  /** The attempt active afterwards is the one before, or a new one. */
  predicate Follows(s: State, t: State) {
    t.active.Some? ==>
      || (s.active.Some? && Same(s.active.value, t.active.value)
          && (s.active.value.resolved ==> t.active.value.resolved))
      || (t.active.value.input.id !in Granted(s.log) && !t.active.value.done && !t.active.value.seen)
  }

  /** The only decision about a reserved request is `k`, about the active one; it is made unless a call fails. */
  ghost predicate Rules(s: State, t: State, k: Option<Verdict>) {
    && (forall id :: Ruling(t.log, id) == Ruling(s.log, id)
                     || (MustHold(s) && k.Some? && id == s.active.value.input.id && Ruling(t.log, id) == k))
    && (MustHold(s) ==>
          if k.None? then MustHold(t) && Same(s.active.value, t.active.value)
          else Faultless(t.log) ==> Ruling(t.log, s.active.value.input.id) == k)
  }

  ghost predicate Moves(s: State, t: State, k: Option<Verdict>) {
    Named(s) ==>
      && Named(t) && Follows(s, t) && Rules(s, t, k)
      && Granted(s.log) <= Granted(t.log) && (Faultless(t.log) ==> Faultless(s.log))
      && (forall id :: id in Granted(t.log) && id !in Granted(s.log) ==> MustHold(t) && t.active.value.input.id == id)
  }

  /** One operation after the other, the second of which decides nothing. */
  lemma MovesOn(s: State, t: State, u: State, k: Option<Verdict>)
    requires Moves(s, t, k) && Moves(t, u, None)
    ensures Moves(s, u, k)
  {
  }

  /** Fields change that no decision depends on. */
  predicate Untouched(s: State, t: State) {
    && t.log == s.log && t.pending == s.pending && t.hasHook == s.hasHook
    && (s.active.Some? <==> t.active.Some?)
    && (s.active.Some? ==>
          Same(s.active.value, t.active.value) && t.active.value.resolved == s.active.value.resolved)
  }

  lemma UntouchedMoves(s: State, t: State)
    requires Untouched(s, t)
    ensures Moves(s, t, None)
  {
  }

  lemma UntouchedFirst(s: State, t: State, u: State, k: Option<Verdict>)
    requires Untouched(s, t) && Moves(t, u, k)
    ensures Moves(s, u, k)
  {
  }

  lemma UntouchedLast(s: State, t: State, u: State, k: Option<Verdict>)
    requires Moves(s, t, k) && Untouched(t, u)
    ensures Moves(s, u, k)
  {
  }

  lemma NoteMoves(s: State, c: Call)
    requires !Decisive(c) && !c.Reserve?
    ensures Moves(s, Note(s, c), None)
  {
    OtherCall(s.log, c);
    hide Ruling, Granted, Asked, Faultless;
  }

  /** A request that was never reserved goes to the queue. */
  lemma FallbackMoves(w: World, s: State, input: Input)
    requires Named(s) ==> input.id !in Granted(s.log)
    ensures Moves(s, QueueFallback(w, s, input).s, None)
  {
    if s.hasHook {
      var c := Fallback(input.id, w(s.log));
      DecisiveCall(s.log, c);
      OtherCall(Then(s.log, c), PublishQueued(input.id));
    }
    hide Ruling, Granted, Asked, Faultless;
  }

  lemma PopMoves(w: World, s: State)
    requires s.pending != []
    ensures Moves(s, QueueFallback(w, s.(pending := s.pending[1..]), s.pending[0]).s, None)
  {
    if Named(s) {
      var t, head := s.(pending := s.pending[1..]), s.pending[0];
      assert head.id !in Granted(s.log) && Moves(s, t, None);
      FallbackMoves(w, t, head);
      hide Moves, QueueFallback, Named;
      MovesOn(s, t, QueueFallback(w, t, head).s, None);
    } else {
      hide Named;
    }
  }

  lemma {:induction false} QueuePendingMoves(w: World, s: State)
    ensures Moves(s, QueuePending(w, s).s, None)
    decreases |s.pending|
  {
    if s.pending == [] {
      UntouchedMoves(s, s);
    } else {
      var t := s.(pending := s.pending[1..]);
      var r := QueueFallback(w, t, s.pending[0]);
      PopMoves(w, s);
      FallbackPending(w, t, s.pending[0]);
      hide Moves, QueueFallback;
      if !r.err {
        QueuePendingMoves(w, r.s);
        MovesOn(s, r.s, QueuePending(w, r.s).s, None);
      }
    }
  }

  lemma FallbackPending(w: World, s: State, input: Input)
    ensures QueueFallback(w, s, input).s.pending == s.pending
  {
  }

  lemma FaultedMoves(s: State, r: Ret, k: Option<Verdict>)
    requires Moves(s, r.s, k)
    ensures Moves(s, Faulted(r).s, k)
  {
    if r.err {
      assert Untouched(r.s, Faulted(r).s);
      hide Moves;
      UntouchedLast(s, r.s, Faulted(r).s, k);
    }
  }

  /** The log of a granted reservation. */
  lemma GrantCalls(log: Log, id: nat, serial: nat)
    ensures
      var l := Then(Then(log, Reserve(id, true)), StartSteer(id, serial));
      && Granted(l) == Granted(log) + {id} && Asked(l) == Asked(log) + {id}
      && (forall k :: Ruling(l, k) == Ruling(log, k)) && (Faultless(l) ==> Faultless(log))
  {
    OtherCall(log, Reserve(id, true));
    OtherCall(Then(log, Reserve(id, true)), StartSteer(id, serial));
  }

  lemma BeginMoves(s: State)
    requires s.pending != [] && s.active.None?
    ensures Moves(s, Begin(s), None)
  {
    GrantCalls(s.log, s.pending[0].id, s.started);
    hide Ruling, Granted, Asked, Faultless, DeadlineOf, TimersWith;
    assert Named(s) ==> s.pending[0].id !in Granted(s.log);
    assert Named(s) ==> Named(Begin(s));
  }

  lemma RefuseMoves(s: State)
    requires s.pending != [] && s.active.None?
    ensures Moves(s, Refuse(s), None)
  {
    var c := Reserve(s.pending[0].id, false);
    OtherCall(s.log, c);
    assert Granted(Then(s.log, c)) == Granted(s.log) && Asked(Then(s.log, c)) == Asked(s.log) + {s.pending[0].id};
    assert Named(s) ==> Named(Refuse(s)) by {
      hide Granted, Asked;
    }
    hide Ruling, Granted, Asked, Faultless, Named;
  }

  lemma PumpMoves(w: World, s: State)
    ensures Moves(s, Pump(w, s).s, None)
  {
    UntouchedMoves(s, s);
    if Blocked(s) || s.active.Some? || s.pending == [] {
    } else {
      BeginMoves(s);
      RefuseMoves(s);
    }
    hide Moves, Begin, Refuse, Blocked;
  }

  lemma LeftMoves(s: State)
    requires !MustHold(s)
    ensures Moves(s, s.(timer := None, deadlineTimer := None, active := None), None)
  {
  }

  lemma RetireMoves(w: World, s: State, serial: nat)
    ensures Moves(s, Retire(w, s, serial).s, None)
  {
    UntouchedMoves(s, s);
    if s.active.None? || s.active.value.serial != serial || !s.active.value.resolved
       || (!s.active.value.done && !s.active.value.deadlineExpired) {
    } else {
      var t := s.(timer := None, deadlineTimer := None, active := None);
      var u := Note(t, CancelSteer(serial));
      LeftMoves(s);
      NoteMoves(t, CancelSteer(serial));
      PumpMoves(w, u);
      hide Moves, Pump, Note;
      MovesOn(s, t, u, None);
      MovesOn(s, u, Pump(w, u).s, None);
    }
  }

  /** The decision is durable, and the attempt is marked; what follows decides nothing. */
  lemma ResolvedMoves(s: State, t: State, k: Verdict)
    requires SameInput(s, t) && Moves(s, t, Some(k))
    ensures Moves(s, MarkResolved(t), Some(k))
  {
    hide Ruling, Granted, Asked, Faultless;
  }

  /** The same attempt is active. */
  predicate SameInput(s: State, t: State) {
    s.active.Some? && t.active.Some? && t.active.value.input == s.active.value.input
  }

  lemma DecideSame(w: World, s: State, d: Disposition)
    requires s.active.Some?
    ensures SameInput(s, Decide(w, s, d).s)
  {
    if d.AsFallback? {
      var t := s.(fallbackBarrier := true);
      RequeueSame(w, t, s.active.value.input);
      hide QueueFallback;
    } else if d.AsInjected? {
      FoldSame(w, s);
      hide Decide;
    } else if d.AsUnknown? {
      UnknownSame(w, s);
      hide Decide;
    } else {
      UntrackableSame(w, s);
      hide Decide;
    }
  }

  lemma FaultedBySame(s: State, c: Call)
    requires s.active.Some?
    ensures SameInput(s, FaultedBy(s, c).s)
  {
  }

  lemma NoteSame(s: State, c: Call)
    requires s.active.Some?
    ensures SameInput(s, Note(s, c))
  {
  }

  lemma UnknownSame(w: World, s: State)
    requires s.active.Some?
    ensures SameInput(s, Decide(w, s, AsUnknown).s)
  {
    var id := s.active.value.input.id;
    FaultedBySame(s, ResolveOther(id, Resolution.Unknown, false));
    NoteSame(s, ResolveOther(id, Resolution.Unknown, true));
    hide FaultedBy, Note;
  }

  lemma UntrackableSame(w: World, s: State)
    requires s.active.Some?
    ensures SameInput(s, Decide(w, s, AsUntrackable).s)
  {
    var id := s.active.value.input.id;
    FaultedBySame(s, ResolveOther(id, Resolution.Untrackable, false));
    NoteSame(s, ResolveOther(id, Resolution.Untrackable, true));
    hide FaultedBy, Note;
  }

  lemma FoldSame(w: World, s: State)
    requires s.active.Some?
    ensures SameInput(s, Decide(w, s, AsInjected).s)
  {
    var id := s.active.value.input.id;
    var s1 := Note(s, PublishFold(id, true));
    NoteSame(s, PublishFold(id, true));
    NoteSame(s1, ResolveInjected(id, true));
    FaultedBySame(s, PublishFold(id, false));
    FaultedBySame(s1, ResolveInjected(id, false));
    hide FaultedBy, Note;
  }

  lemma RequeueSame(w: World, s: State, input: Input)
    ensures QueueFallback(w, s, input).s.active == s.active
  {
    if !s.hasHook {
      assert QueueFallback(w, s, input).s == s;
    } else if w(s.log) {
      assert QueueFallback(w, s, input).s.active == s.active;
    } else {
      assert QueueFallback(w, s, input).s.active == s.active;
    }
  }

  lemma AfterDecisionMoves(w: World, s: State, t: State, d: Disposition, k: Verdict)
    requires SameInput(s, t) && Moves(s, t, Some(k))
    ensures Moves(s, AfterDecision(w, t, d).s, Some(k))
  {
    if t.active.Some? {
      var serial := t.active.value.serial;
      var s1 := MarkResolved(t);
      ResolvedMoves(s, t, k);
      QueuePendingMoves(w, s1);
      FaultedMoves(s1, QueuePending(w, s1), None);
      UntouchedMoves(s1, s1);
      var r := if d.AsFallback? || d.AsUnknown? then Faulted(QueuePending(w, s1)) else Ret(s1, false);
      var s2 := if !d.AsInjected? then Note(r.s, CancelSteer(serial)) else r.s;
      NoteMoves(r.s, CancelSteer(serial));
      UntouchedMoves(r.s, r.s);
      RetireMoves(w, s2, serial);
      hide Moves, QueuePending, Retire, Note, Faulted, MarkResolved;
      MovesOn(s, s1, r.s, Some(k));
      MovesOn(s, r.s, s2, Some(k));
      MovesOn(s, s2, Retire(w, s2, serial).s, Some(k));
    }
  }

  // ---------------------------------------------------------------- the decision itself

  function Of(d: Disposition): Verdict {
    match d
    case AsInjected => Folded
    case AsFallback => Requeued
    case AsUnknown => Doubtful
    case AsUntrackable => Untracked
  }

  lemma ClassifyIsDue(result: SteerResult, err: CallError)
    ensures Of(Classify(result, err)) == Due(result)
  {
  }

  /** A decisive call about the active attempt, and a change of flags. */
  lemma DecideCall(s: State, c: Call, t: State, v: Verdict)
    requires MustHold(s) && Decisive(c) && c.id == s.active.value.input.id && (c.ok ==> c == CallFor(c.id, v))
    requires t.log == Then(s.log, c) && t.pending == s.pending && t.hasHook == s.hasHook
    requires t.active.Some? && Same(s.active.value, t.active.value)
    ensures Moves(s, t, Some(v))
  {
    DecisiveCall(s.log, c);
    if c.ok && c.id in Granted(s.log) {
      DecisiveOwn(s.log, c, v);
    }
    hide Ruling, Granted, Asked, Faultless;
  }

  lemma DecideMoves(w: World, s: State, d: Disposition)
    requires MustHold(s)
    ensures Moves(s, Decide(w, s, d).s, Some(Of(d)))
  {
    match d {
      case AsInjected => InjectMoves(w, s);
      case AsFallback => RequeueMoves(w, s);
      case AsUnknown => UnknownMoves(w, s);
      case AsUntrackable => UntrackableMoves(w, s);
    }
    hide Moves, Decide;
  }

  lemma DecideNote(s: State, c: Call, v: Verdict)
    requires MustHold(s) && Decisive(c) && c.id == s.active.value.input.id && (c.ok ==> c == CallFor(c.id, v))
    ensures Moves(s, Note(s, c), Some(v))
  {
    DecideCall(s, c, Note(s, c), v);
  }

  lemma UnknownMoves(w: World, s: State)
    requires MustHold(s)
    ensures Moves(s, Decide(w, s, AsUnknown).s, Some(Doubtful))
  {
    var c := ResolveOther(s.active.value.input.id, Resolution.Unknown, w(s.log));
    var t := Note(s, c);
    DecideNote(s, c, Doubtful);
    DisabledMoves(s, t, Doubtful);
    FaultMoves(s, t, Doubtful);
    hide Moves, Note;
  }

  lemma DisabledMoves(s: State, t: State, v: Verdict)
    requires Moves(s, t, Some(v))
    ensures Moves(s, t.(disabled := true), Some(v))
  {
    assert Untouched(t, t.(disabled := true));
    hide Moves, Untouched;
    UntouchedLast(s, t, t.(disabled := true), Some(v));
  }

  lemma FaultMoves(s: State, t: State, v: Verdict)
    requires Moves(s, t, Some(v))
    ensures Moves(s, t.(fault := true), Some(v))
  {
    assert Untouched(t, t.(fault := true));
    hide Moves, Untouched;
    UntouchedLast(s, t, t.(fault := true), Some(v));
  }

  lemma UntrackableMoves(w: World, s: State)
    requires MustHold(s)
    ensures Moves(s, Decide(w, s, AsUntrackable).s, Some(Untracked))
  {
    var c := ResolveOther(s.active.value.input.id, Resolution.Untrackable, w(s.log));
    var t := Note(s, c);
    DecideNote(s, c, Untracked);
    if c.ok {
      ResolvedMoves(s, t, Untracked);
      FlaggedMoves(s, MarkResolved(t), Untracked);
      hide Moves, Note, MarkResolved;
      assert Decide(w, s, AsUntrackable).s == MarkResolved(t).(disabled := true, fault := true);
    } else {
      FaultMoves(s, t, Untracked);
      hide Moves, Note;
    }
  }

  lemma FlaggedMoves(s: State, t: State, v: Verdict)
    requires Moves(s, t, Some(v))
    ensures Moves(s, t.(disabled := true, fault := true), Some(v))
  {
    assert Untouched(t, t.(disabled := true, fault := true));
    hide Moves, Untouched;
    UntouchedLast(s, t, t.(disabled := true, fault := true), Some(v));
  }

  lemma FailedFold(s: State)
    requires MustHold(s)
    ensures Moves(s, FaultedBy(s, PublishFold(s.active.value.input.id, false)).s, Some(Folded))
  {
    OtherCall(s.log, PublishFold(s.active.value.input.id, false));
    hide Ruling, Granted, Asked;
  }

  lemma InjectMoves(w: World, s: State)
    requires MustHold(s)
    ensures Moves(s, Decide(w, s, AsInjected).s, Some(Folded))
  {
    if w(s.log) {
      FoldedMoves(w, s);
    } else {
      FailedFold(s);
      assert Decide(w, s, AsInjected).s == FaultedBy(s, PublishFold(s.active.value.input.id, false)).s;
    }
    hide Moves, Decide;
  }

  lemma FoldedMoves(w: World, s: State)
    requires MustHold(s) && w(s.log)
    ensures Moves(s, Decide(w, s, AsInjected).s, Some(Folded))
  {
    var id := s.active.value.input.id;
    var s1 := Note(s, PublishFold(id, true));
    var c := ResolveInjected(id, w(s1.log));
    var t := Note(s1, c);
    NoteMoves(s, PublishFold(id, true));
    DecideNote(s1, c, Folded);
    assert Untouched(t, t.(fault := true)) && MustHold(s1);
    hide Moves, Note, Untouched;
    MovesThen(s, s1, t, Folded);
    if !c.ok {
      UntouchedLast(s, t, t.(fault := true), Some(Folded));
    }
  }

  lemma MovesThen(s: State, t: State, u: State, v: Verdict)
    requires Moves(s, t, None) && Moves(t, u, Some(v)) && MustHold(s)
    ensures Moves(s, u, Some(v))
  {
  }

  lemma RequeueMoves(w: World, s: State)
    requires MustHold(s)
    ensures Moves(s, Decide(w, s, AsFallback).s, Some(Requeued))
  {
    var input, t := s.active.value.input, s.(fallbackBarrier := true);
    var r := QueueFallback(w, t, input);
    RequeueCall(w, t, input);
    UntouchedFirst(s, t, r.s, Some(Requeued));
    hide Moves, QueueFallback;
    FaultedMoves(s, r, Some(Requeued));
  }

  lemma RequeueCall(w: World, s: State, input: Input)
    requires MustHold(s) && input == s.active.value.input
    ensures Moves(s, QueueFallback(w, s, input).s, Some(Requeued))
  {
    var c := Fallback(input.id, w(s.log));
    var t := Note(s, c).(fallbackBarrier := true);
    if s.hasHook {
      DecideCall(s, c, t, Requeued);
      assert Note(s.(fallbackBarrier := true), c) == t;
      if w(s.log) {
        var t1 := t.(loopPending := t.loopPending + [input]);
        NoteMoves(t1, PublishQueued(input.id));
        UntouchedLast(s, t, t1, Some(Requeued));
        hide Moves;
        MovesOn(s, t1, Note(t1, PublishQueued(input.id)), Some(Requeued));
      }
    } else {
    }
  }

  lemma ResolveDispositionMoves(w: World, s: State, d: Disposition)
    requires s.active.Some?
    ensures Moves(s, ResolveDisposition(w, s, d).s, Some(Of(d)))
  {
    if s.active.value.resolved {
      SettledMoves(s, Of(d));
    } else {
      var r := Decide(w, s, d);
      DecideMoves(w, s, d);
      DecideSame(w, s, d);
      hide Moves, Decide, AfterDecision, SameInput;
      AfterDecisionMoves(w, s, r.s, d, Of(d));
    }
  }

  lemma SettledMoves(s: State, v: Verdict)
    requires !MustHold(s)
    ensures Moves(s, s, Some(v))
  {
  }

  lemma ResolveAttemptMoves(w: World, s: State)
    requires s.active.Some?
    ensures Moves(s, ResolveAttempt(w, s).s, Some(Due(s.active.value.result)))
  {
    ClassifyIsDue(s.active.value.result, s.active.value.err);
    ResolveDispositionMoves(w, s, Classify(s.active.value.result, s.active.value.err));
    hide Moves, ResolveDisposition, Classify, Due;
    if s.active.value.resolved {
      SettledMoves(s, Due(s.active.value.result));
    }
  }

  // ---------------------------------------------------------------- the events

  /** An input comes with a name that follows all names given so far. */
  predicate Newer(s: State, input: Input) {
    && (forall id :: id in Asked(s.log) ==> id < input.id)
    && (forall k :: 0 <= k < |s.pending| ==> s.pending[k].id < input.id)
  }

  lemma AppendMoves(s: State, input: Input)
    requires Newer(s, input) && s.hasHook
    ensures Moves(s, s.(pending := s.pending + [input]), None)
  {
  }

  lemma OfferMoves(w: World, s: State, input: Input)
    requires Newer(s, input)
    ensures Moves(s, Offer(w, s, input).ret.s, None)
  {
    var t := s.(pending := s.pending + [input]);
    UntouchedMoves(s, s);
    assert Named(s) ==> input.id !in Granted(s.log);
    FallbackMoves(w, s, input);
    PumpMoves(w, t);
    hide Newer, Named, Pump, QueueFallback;
    if s.hasHook {
      AppendMoves(s, input);
      MovesOn(s, t, Pump(w, t).s, None);
    }
    hide Moves;
  }

  lemma SetStreamMoves(w: World, s: State, ordered: bool)
    ensures Moves(s, SetStream(w, s, ordered).s, None)
  {
    var t := s.(ordered := ordered, streamKnown := true);
    QueuePendingMoves(w, t);
    FaultedMoves(t, QueuePending(w, t), None);
    PumpMoves(w, t);
    UntouchedFirst(s, t, SetStream(w, s, ordered).s, None);
    hide Moves, QueuePending, Pump, Faulted;
  }

  lemma TimerUntouched(s: State)
    ensures Untouched(s, StartTerminalTimer(s))
  {
  }

  /** The prompt's end settles an attempt of which something is known. */
  lemma ResolvePendingMoves(w: World, s: State)
    ensures
      var late := MustHold(s) && (s.active.value.done || s.active.value.seen);
      Moves(s, ResolvePendingBeforeTerminal(w, s).s, if late then Some(Due(s.active.value.result)) else None)
  {
    var late := MustHold(s) && (s.active.value.done || s.active.value.seen);
    var k := if late then Some(Due(s.active.value.result)) else None;
    var r := if late then ResolveAttempt(w, s) else Ret(s, false);
    UntouchedMoves(s, s);
    if late {
      ResolveAttemptMoves(w, s);
    }
    var t := StartTerminalTimer(r.s);
    TimerUntouched(r.s);
    QueuePendingMoves(w, r.s);
    QueuePendingMoves(w, t);
    hide Moves, ResolveAttempt, QueuePending, StartTerminalTimer, Due;
    UntouchedLast(s, r.s, t, k);
    MovesOn(s, r.s, QueuePending(w, r.s).s, k);
    MovesOn(s, t, QueuePending(w, t).s, k);
  }

  lemma PromptMoves(w: World, s: State)
    ensures
      var late := MustHold(s) && (s.active.value.done || s.active.value.seen);
      Moves(s, ObservePrompt(w, s).s, if late then Some(Due(s.active.value.result)) else None)
  {
    var t := s.(terminal := true);
    ResolvePendingMoves(w, t);
    var late := MustHold(s) && (s.active.value.done || s.active.value.seen);
    hide Moves, ResolvePendingBeforeTerminal, Due;
    UntouchedFirst(s, t, ObservePrompt(w, s).s, if late then Some(Due(s.active.value.result)) else None);
  }

  /** A completion settles the attempt unless the ordered stream has yet to say something. */
  lemma CompleteMoves(w: World, s: State, serial: nat, result: SteerResult, err: CallError)
    requires s.active.Some? && s.active.value.serial == serial
    ensures
      var t := s.(active := Some(WithCompletion(s.active.value, result, err)));
      var waits := !t.active.value.seen && !Conclusive(result, err) && s.ordered && !s.terminal;
      Moves(t, Complete(w, s, serial, result, err).s, if waits then None else Some(Due(result)))
  {
    var t := s.(active := Some(WithCompletion(s.active.value, result, err)));
    UntouchedMoves(t, t);
    ResolveAttemptMoves(w, t);
    var r := ResolveAttempt(w, t);
    RetireMoves(w, r.s, serial);
    hide Moves, ResolveAttempt, Retire, Due, Conclusive;
    MovesOn(t, r.s, Retire(w, r.s, serial).s, Some(Due(result)));
  }

  lemma ObserveMoves(w: World, s: State, result: SteerResult, err: CallError)
    requires MustHold(s)
    ensures
      var t := s.(active := Some(WithObservation(s.active.value, result, err)));
      Moves(t, ObserveSteer(w, s, result, err).s, Some(Due(result)))
  {
    ResolveAttemptMoves(w, s.(active := Some(WithObservation(s.active.value, result, err))));
    hide Moves, ResolveAttempt, Due;
  }

  lemma TimeoutMoves(w: World, s: State)
    requires MustHold(s) && s.terminal
    ensures Moves(s, Timeout(w, s).s, Some(Doubtful))
  {
    var t := s.(timer := None);
    var r := ResolveDisposition(w, t, AsUnknown);
    ResolveDispositionMoves(w, t, AsUnknown);
    UntouchedFirst(s, t, r.s, Some(Doubtful));
    if r.s.active.Some? {
      RetireMoves(w, r.s, r.s.active.value.serial);
      hide Moves, ResolveDisposition, Retire;
      MovesOn(s, r.s, Retire(w, r.s, r.s.active.value.serial).s, Some(Doubtful));
    }
    hide Moves, ResolveDisposition, Retire;
  }

  lemma DeadlineMoves(w: World, s: State)
    requires s.active.Some?
    ensures Moves(s, DeadlineTimeout(w, s).s, if MustHold(s) then Some(Doubtful) else None)
  {
    var t := Expire(s.(deadlineTimer := None));
    ResolveDispositionMoves(w, t, AsUnknown);
    RetireMoves(w, t, s.active.value.serial);
    assert Untouched(s, t);
    hide Moves, ResolveDisposition, Retire, Expire;
    UntouchedFirst(s, t, DeadlineTimeout(w, s).s, if MustHold(s) then Some(Doubtful) else None);
  }

  lemma ShutdownMoves(w: World, s: State)
    ensures Moves(s, Shutdown(w, s).s, if MustHold(s) then Some(Doubtful) else None)
  {
    if s.active.None? {
      IdleShutdownMoves(w, s);
    } else if s.active.value.resolved {
      ResolvedShutdownMoves(w, s);
    } else {
      BusyShutdownMoves(w, s);
    }
    hide Moves, Shutdown;
  }

  lemma IdleShutdownMoves(w: World, s: State)
    requires s.active.None?
    ensures Moves(s, Shutdown(w, s).s, None)
  {
    var s1 := s.(terminal := true);
    UntouchedMoves(s, s1);
    QueuePendingMoves(w, s1);
    hide Moves, QueuePending;
    MovesOn(s, s1, QueuePending(w, s1).s, None);
  }

  lemma ResolvedShutdownMoves(w: World, s: State)
    requires s.active.Some? && s.active.value.resolved
    ensures Moves(s, Shutdown(w, s).s, None)
  {
    var s2 := Expire(s.(terminal := true));
    var r := Retire(w, s2, s.active.value.serial);
    RetireMoves(w, s2, s.active.value.serial);
    assert Untouched(s, s2) && s2.active.Some? && s2.active.value.resolved;
    assert s2.active.value.serial == s.active.value.serial;
    QueuePendingMoves(w, r.s);
    hide Moves, QueuePending, Retire, Untouched;
    UntouchedFirst(s, s2, r.s, None);
    MovesOn(s, r.s, QueuePending(w, r.s).s, None);
  }

  lemma BusyShutdownMoves(w: World, s: State)
    requires MustHold(s)
    ensures Moves(s, Shutdown(w, s).s, Some(Doubtful))
  {
    var s2 := Expire(s.(terminal := true));
    var r := ResolveDisposition(w, s2, AsUnknown);
    ResolveDispositionMoves(w, s2, AsUnknown);
    assert Untouched(s, s2) && s2.active.Some? && !s2.active.value.resolved;
    QueuePendingMoves(w, r.s);
    hide Moves, QueuePending, ResolveDisposition, Untouched;
    UntouchedFirst(s, s2, r.s, Some(Doubtful));
    MovesOn(s, r.s, QueuePending(w, r.s).s, Some(Doubtful));
  }
}
