/**
  The steering machine as the object the actor owns (backend/steering.go). Every method is
  verified to take the machine from its old state to exactly the state, and to return exactly the
  error, that the function of the same name in `SteeringModel` gives.
 */
module SteeringMachine {
  import opened Options
  import opened DriverContract
  import opened Calls
  import opened S = SteeringModel

  /** The part of the loop the machine touches: its queue, and the environment it calls. */
  class Loop {
    const world: World
    var pending: seq<Input>
    var calls: Log

    constructor (world: World, queued: seq<Input>)
      ensures this.world == world && pending == queued && calls == Start
    {
      this.world := world;
      pending := queued;
      calls := Start;
    }

    /** An unchecked effect. */
    method Record(c: Call)
      modifies this`calls
      ensures calls == Then(old(calls), c)
    {
      calls := Then(calls, c);
    }
  }

  class Machine {
    const loop: Loop
    const hasHook: bool
    const hasSteerer: bool
    var ordered: bool
    var streamKnown: bool
    var active: Option<Attempt>
    var pending: seq<Input>
    var terminal: bool
    var disabled: bool
    var fallbackBarrier: bool
    var fault: bool
    var timer: Option<Timer>
    var deadlineTimer: Option<Timer>
    var timersMade: nat
    var started: nat

    constructor (loop: Loop, hasHook: bool, hasSteerer: bool)
      ensures this.loop == loop
      ensures loop.calls == Start ==> Abs() == Fresh(hasHook, hasSteerer, loop.pending)
    {
      this.loop := loop;
      this.hasHook := hasHook;
      this.hasSteerer := hasSteerer;
      ordered, streamKnown := false, false;
      active, pending := None, [];
      terminal, disabled, fallbackBarrier, fault := false, false, false, false;
      timer, deadlineTimer := None, None;
      timersMade, started := 0, 0;
    }

    function Abs(): State
      reads this, loop
    {
      State(hasHook, hasSteerer, ordered, streamKnown, active, pending, terminal, disabled, fallbackBarrier, fault,
            timer, deadlineTimer, timersMade, started, loop.pending, loop.calls)
    }

    /** What the abstraction shows of the fields. */
    lemma Shows()
      ensures Abs().active == active && Abs().pending == pending && Abs().fault == fault
      ensures Abs().terminal == terminal && Abs().ordered == ordered
    {
    }

    method Note(c: Call)
      modifies loop`calls
      ensures Abs() == S.Note(old(Abs()), c)
    {
      loop.Record(c);
    }

    method Fail()
      modifies this`fault
      ensures Abs() == old(Abs()).(fault := true)
    {
      fault := true;
    }

    method Terminate()
      modifies this`terminal
      ensures Abs() == old(Abs()).(terminal := true)
    {
      terminal := true;
    }

    method Learn(isOrdered: bool)
      modifies this`ordered, this`streamKnown
      ensures Abs() == old(Abs()).(ordered := isOrdered, streamKnown := true)
    {
      ordered, streamKnown := isOrdered, true;
    }

    /** The fields of the active attempt change. */
    method Update(attempt: Attempt)
      modifies this`active
      ensures active == Some(attempt) && Abs() == old(Abs()).(active := Some(attempt))
    {
      active := Some(attempt);
    }

    method SetStream(isOrdered: bool) returns (err: bool)
      modifies this, loop
      ensures Ret(Abs(), err) == S.SetStream(loop.world, old(Abs()), isOrdered)
    {
      hide Abs, S.QueuePending, S.Pump;
      Learn(isOrdered);
      if !isOrdered {
        err := QueuePendingFallbacks();
        if err {
          Fail();
        }
      } else {
        err := Pump();
      }
    }

    method Offer(input: Input) returns (handled: bool, err: bool)
      modifies this, loop
      ensures Offered(handled, Ret(Abs(), err)) == S.Offer(loop.world, old(Abs()), input)
    {
      if !IsCandidate(Abs(), input) {
        return false, false;
      }
      handled := true;
      if loop.pending != [] || terminal || disabled || fallbackBarrier || !hasSteerer {
        err := QueueFallback(input);
        return;
      }
      if !input.blocksValid {
        err := QueueFallback(input);
        return;
      }
      pending := pending + [input];
      if !streamKnown {
        return true, false;
      }
      if !ordered {
        pending := pending[..|pending| - 1];
        err := QueueFallback(input);
      } else {
        err := Pump();
      }
    }

    method Pump() returns (err: bool)
      modifies this, loop
      ensures Ret(Abs(), err) == S.Pump(loop.world, old(Abs()))
    {
      hide S.Begin;
      if fault || disabled || fallbackBarrier || terminal || active.Some? || pending == [] {
        return fault;
      }
      if loop.world(loop.calls) {
        Begin();
        err := false;
      } else {
        loop.Record(Reserve(pending[0].id, false));
        pending := pending[1..];
        fault := true;
        err := true;
      }
    }

    /** The reservation is granted: the attempt becomes active and the provider is called. */
    method Begin()
      requires pending != []
      modifies this, loop
      ensures Abs() == S.Begin(old(Abs()))
    {
      var next, serial := pending[0], started;
      Activate();
      hide Abs, DeadlineOf, TimersWith;
      Note(Reserve(next.id, true));
      ArmDeadline();
      Note(StartSteer(next.id, serial));
    }

    /** The next attempt becomes the active one. */
    method Activate()
      requires pending != []
      modifies this`pending, this`active, this`started
      ensures
        var s := old(Abs());
        Abs() == s.(pending := s.pending[1..], active := Some(NewAttempt(s, s.pending[0])), started := s.started + 1)
    {
      active := Some(Attempt(pending[0], started, false, false, false, false, false, Local(Absent), NoError));
      pending := pending[1..];
      started := started + 1;
    }

    method ArmDeadline()
      modifies this`deadlineTimer, this`timersMade
      ensures Abs() == old(Abs()).(deadlineTimer := DeadlineOf(old(Abs())), timersMade := TimersWith(old(Abs())))
    {
      if deadlineTimer.None? {
        deadlineTimer := Some(Timer(timersMade, CallTimeout));
        timersMade := timersMade + 1;
      }
    }

    method QueueFallback(input: Input) returns (err: bool)
      modifies this`fallbackBarrier, loop
      ensures Ret(Abs(), err) == S.QueueFallback(loop.world, old(Abs()), input)
    {
      if !hasHook {
        return true;
      }
      fallbackBarrier := true;
      var ok := loop.world(loop.calls);
      loop.Record(Fallback(input.id, ok));
      if !ok {
        return true;
      }
      loop.pending := loop.pending + [input];
      loop.Record(PublishQueued(input.id));
      err := false;
    }

    method QueuePendingFallbacks() returns (err: bool)
      modifies this`pending, this`fallbackBarrier, loop
      ensures Ret(Abs(), err) == S.QueuePending(loop.world, old(Abs()))
    {
      hide S.QueueFallback;
      while pending != []
        invariant S.QueuePending(loop.world, Abs()) == S.QueuePending(loop.world, old(Abs()))
        decreases |pending|
      {
        var attempt := pending[0];
        pending := pending[1..];
        err := QueueFallback(attempt);
        if err {
          return;
        }
      }
      err := false;
    }

    method ObserveSteer(result: SteerResult, err: CallError) returns (failed: bool)
      modifies this, loop
      ensures Ret(Abs(), failed) == S.ObserveSteer(loop.world, old(Abs()), result, err)
    {
      if active.None? || active.value.resolved {
        return false;
      }
      var admitted := active.value.writerAdmitted || result.writeAdmitted;
      active := Some(active.value.(seen := true, writerAdmitted := admitted, result := result, err := err));
      failed := ResolveAttempt();
    }

    method ObservePrompt() returns (err: bool)
      modifies this, loop
      ensures Ret(Abs(), err) == S.ObservePrompt(loop.world, old(Abs()))
    {
      terminal := true;
      err := ResolvePendingBeforeTerminal();
    }

    method BeforeTerminal() returns (hold: bool, err: bool)
      modifies this, loop
      ensures Ret(Abs(), err) == S.BeforeTerminal(loop.world, old(Abs()))
      ensures hold == (!err && MustHold(Abs()))
    {
      terminal := true;
      err := ResolvePendingBeforeTerminal();
      hold := !err && active.Some? && !active.value.resolved;
    }

    method Complete(serial: nat, result: SteerResult, err: CallError) returns (failed: bool)
      modifies this, loop
      ensures Ret(Abs(), failed) == S.Complete(loop.world, old(Abs()), serial, result, err)
    {
      hide Abs, S.Settle, Conclusive, WithCompletion;
      Shows();
      if active.None? || active.value.serial != serial {
        return false;
      }
      MarkDone(result, err);
      if !active.value.seen && !Conclusive(result, err) && ordered && !terminal {
        return false;
      }
      failed := Settle(serial);
    }

    /** The provider call returned. */
    method MarkDone(result: SteerResult, err: CallError)
      requires active.Some?
      modifies this`active
      ensures old(Abs()).active == old(active)
      ensures Abs() == old(Abs()).(active := Some(WithCompletion(old(active.value), result, err)))
      ensures Abs().active == active && Abs().ordered == ordered && Abs().terminal == terminal
    {
      var admitted := active.value.writerAdmitted || result.writeAdmitted;
      active := Some(active.value.(done := true, writerAdmitted := admitted, result := result, err := err));
    }

    /** Decides the active attempt, and retires it if its call is over. */
    method Settle(serial: nat) returns (err: bool)
      requires active.Some?
      modifies this, loop
      ensures Ret(Abs(), err) == S.Settle(loop.world, old(Abs()), serial)
    {
      hide Abs, S.ResolveAttempt, S.Retire;
      err := ResolveAttempt();
      if !err {
        err := RetireIfDone(serial);
      }
    }

    method ResolveAttempt() returns (err: bool)
      requires active.Some?
      modifies this, loop
      ensures Ret(Abs(), err) == S.ResolveAttempt(loop.world, old(Abs()))
    {
      if active.value.resolved {
        return false;
      }
      err := ResolveDisposition(Classify(active.value.result, active.value.err));
    }

    method FoldAndResolve(id: nat) returns (err: bool)
      requires active.Some? && active.value.input.id == id
      modifies this`fault, loop
      ensures Ret(Abs(), err) == S.Decide(loop.world, old(Abs()), AsInjected)
    {
      var ok := loop.world(loop.calls);
      loop.Record(PublishFold(id, ok));
      if ok {
        ok := loop.world(loop.calls);
        loop.Record(ResolveInjected(id, ok));
      }
      if !ok {
        fault := true;
      }
      err := !ok;
    }

    method ToQueue() returns (err: bool)
      requires active.Some?
      modifies this, loop
      ensures Ret(Abs(), err) == S.Decide(loop.world, old(Abs()), AsFallback)
    {
      hide S.QueueFallback;
      fallbackBarrier := true;
      assert Abs() == old(Abs()).(fallbackBarrier := true);
      err := QueueFallback(active.value.input);
      if err {
        fault := true;
      } else {
      }
    }

    method ResolveUnknown() returns (err: bool)
      requires active.Some?
      modifies this, loop
      ensures Ret(Abs(), err) == S.Decide(loop.world, old(Abs()), AsUnknown)
    {
      var ok := loop.world(loop.calls);
      loop.Record(ResolveOther(active.value.input.id, Resolution.Unknown, ok));
      if ok {
        disabled := true;
      } else {
        fault := true;
      }
      err := !ok;
    }

    method ResolveUntrackable() returns (err: bool)
      requires active.Some?
      modifies this, loop
      ensures Ret(Abs(), err) == S.Decide(loop.world, old(Abs()), AsUntrackable)
    {
      var ok := loop.world(loop.calls);
      loop.Record(ResolveOther(active.value.input.id, Resolution.Untrackable, ok));
      if ok {
        active := Some(active.value.(resolved := true));
        disabled := true;
      }
      fault := true;
      err := true;
    }

    /** The durable calls of a disposition. */
    method Decide(d: Disposition) returns (err: bool)
      requires active.Some?
      modifies this, loop
      ensures Ret(Abs(), err) == S.Decide(loop.world, old(Abs()), d)
    {
      hide S.Decide;
      match d {
        case AsInjected => err := FoldAndResolve(active.value.input.id);
        case AsFallback => err := ToQueue();
        case AsUnknown => err := ResolveUnknown();
        case AsUntrackable => err := ResolveUntrackable();
      }
    }

    method ResolveDisposition(d: Disposition) returns (err: bool)
      requires active.Some?
      modifies this, loop
      ensures Ret(Abs(), err) == S.ResolveDisposition(loop.world, old(Abs()), d)
    {
      hide S.Decide, S.AfterDecision;
      if active.value.resolved {
        return false;
      }
      err := Decide(d);
      if !err {
        err := AfterDecision(d);
      }
    }

    method AfterDecision(d: Disposition) returns (err: bool)
      modifies this, loop
      ensures Ret(Abs(), err) == S.AfterDecision(loop.world, old(Abs()), d)
    {
      hide Abs, S.QueuePending, S.Retire;
      Shows();
      if active.None? {
        return false;
      }
      var serial := active.value.serial;
      Update(active.value.(resolved := true));
      if d.AsFallback? || d.AsUnknown? {
        err := QueuePendingFallbacks();
        if err {
          Fail();
          return;
        }
      }
      if !d.AsInjected? {
        Note(CancelSteer(serial));
      }
      err := RetireIfDone(serial);
    }

    method ResolvePendingBeforeTerminal() returns (err: bool)
      modifies this, loop
      ensures Ret(Abs(), err) == S.ResolvePendingBeforeTerminal(loop.world, old(Abs()))
    {
      hide S.QueuePending, S.ResolveDisposition;
      if active.Some? && !active.value.resolved {
        if active.value.done || active.value.seen {
          err := ResolveAttempt();
          if err {
            return;
          }
        }
        if active.Some? && !active.value.resolved {
          StartTerminalTimer();
        }
      }
      err := QueuePendingFallbacks();
    }

    method StartTerminalTimer()
      modifies this`timer, this`timersMade
      ensures Abs() == S.StartTerminalTimer(old(Abs()))
    {
      if timer.None? {
        var bound := if active.Some? && active.value.writerAdmitted then AckTimeout else CallTimeout;
        timer := Some(Timer(timersMade, bound));
        timersMade := timersMade + 1;
      }
    }

    method Timeout() returns (err: bool)
      modifies this, loop
      ensures Ret(Abs(), err) == S.Timeout(loop.world, old(Abs()))
    {
      hide S.Retire, S.ResolveDisposition;
      if !terminal || active.None? || active.value.resolved {
        return false;
      }
      timer := None;
      err := ResolveDisposition(AsUnknown);
      if !err {
        if active.None? {
          err := fault;
        } else {
          err := RetireIfDone(active.value.serial);
        }
      }
    }

    method DeadlineTimeout() returns (err: bool)
      modifies this, loop
      ensures Ret(Abs(), err) == S.DeadlineTimeout(loop.world, old(Abs()))
    {
      hide S.Retire, S.ResolveDisposition;
      if active.None? {
        return false;
      }
      deadlineTimer := None;
      active := Some(active.value.(deadlineExpired := true));
      if active.value.resolved {
        err := RetireIfDone(active.value.serial);
        return;
      }
      err := ResolveDisposition(AsUnknown);
      if !err {
        err := fault;
      }
    }

    method Shutdown() returns (err: bool)
      modifies this, loop
      ensures Ret(Abs(), err) == S.Shutdown(loop.world, old(Abs()))
    {
      hide Abs, S.QueuePending, S.Retire, S.ResolveDisposition;
      Terminate();
      Shows();
      if active.Some? {
        Update(active.value.(deadlineExpired := true));
        if !active.value.resolved {
          err := ResolveDisposition(AsUnknown);
        } else {
          err := RetireIfDone(active.value.serial);
        }
        if err {
          return;
        }
      }
      Shows();
      if active.None? {
        err := QueuePendingFallbacks();
        if err {
          return;
        }
      }
      Shows();
      err := fault;
    }

    method Cleanup()
      modifies this, loop
      ensures Abs() == S.Cleanup(old(Abs()))
    {
      if active.Some? {
        loop.Record(CancelSteer(active.value.serial));
      }
      timer, deadlineTimer := None, None;
      active, pending := None, [];
    }

    method RetireIfDone(serial: nat) returns (err: bool)
      modifies this, loop
      ensures Ret(Abs(), err) == S.Retire(loop.world, old(Abs()), serial)
    {
      hide S.Pump;
      if active.None? || active.value.serial != serial || !active.value.resolved
         || (!active.value.done && !active.value.deadlineExpired) {
        return fault;
      }
      loop.Record(CancelSteer(serial));
      timer, deadlineTimer := None, None;
      active := None;
      if !terminal {
        err := Pump();
      } else {
        err := fault;
      }
    }
  }
}
