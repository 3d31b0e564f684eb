/**
  What the actor promises over every turn, whatever the provider, the publisher, the clocks and
  the commands do: a terminal is published only when steering is settled, and the queue bound holds.
 */
module TurnActorTheorems {
  import opened Options
  import opened DriverContract
  import opened Calls
  import opened TurnActorModel
  import opened SteeringLoad
  import S = SteeringModel
  import R = SteeringRuns

  /** Every terminal published, or tried, found no reserved request unresolved and nobody pending. */
  predicate Orderly(ps: seq<Publication>) {
    forall i :: 0 <= i < |ps| && ps[i].event.Terminal() ==> ps[i].settled
  }

  /** The steering machine after a series of its events. */
  function MachineRun(w: World, m: S.State, es: seq<R.Event>): S.State
    decreases |es|
  {
    if es == [] then m else MachineRun(w, R.StepRet(w, m, es[0]).s, es[1..])
  }

  lemma {:induction false} RunTwice(w: World, m: S.State, a: seq<R.Event>, b: seq<R.Event>)
    ensures MachineRun(w, m, a + b) == MachineRun(w, MachineRun(w, m, a), b)
    decreases |a|
  {
    hide R.StepRet;
    if a == [] {
      assert a + b == b;
    } else {
      assert (a + b)[1..] == a[1..] + b;
      RunTwice(w, R.StepRet(w, m, a[0]).s, a[1..], b);
    }
  }

  /** The actor touches the machine only through its events. */
  predicate Follows(w: World, m0: S.State, s: State) {
    s.m == MachineRun(w, m0, s.events)
  }

  lemma FollowsOn(w: World, m0: S.State, s: State, t: State, e: R.Event)
    requires Follows(w, m0, s) && t.events == s.events + [e] && t.m == R.StepRet(w, s.m, e).s
    ensures Follows(w, m0, t)
  {
    hide R.StepRet;
    RunTwice(w, m0, s.events, [e]);
    assert [e][1..] == [];
    assert MachineRun(w, s.m, [e]) == MachineRun(w, R.StepRet(w, s.m, e).s, []);
  }

  /** What holds of a turn under way that began with the machine `m0`. */
  predicate Steady(env: Env, m0: S.State, s: State) {
    && Orderly(s.published)
    && Load(s.m) <= env.capacity
    && Follows(env.world, m0, s)
    && s.exit == None
  }

  /** What every operation of a running turn keeps. */
  predicate Kept(env: Env, m0: S.State, s: State, d: Did) {
    && Steady(env, m0, d.s)
    && (!s.m.fault && !d.err ==> !d.s.m.fault)
    && (Quiet(s.m) ==> Quiet(d.s.m))
    && d.s.cut == s.cut
  }

  lemma KeptSelf(env: Env, m0: S.State, s: State)
    requires Steady(env, m0, s)
    ensures Kept(env, m0, s, Did(s, false))
  {
  }

  lemma KeptTwice(env: Env, m0: S.State, s: State, d: Did, e: Did)
    requires Kept(env, m0, s, d) && !d.err && Kept(env, m0, d.s, e)
    ensures Kept(env, m0, s, e)
  {
  }

  lemma KeptIsSteady(env: Env, m0: S.State, s: State, d: Did)
    requires Kept(env, m0, s, d)
    ensures Steady(env, m0, d.s)
  {
  }

  lemma LiftKept(env: Env, m0: S.State, s: State, e: R.Event)
    requires Steady(env, m0, s) && BringsNothing(e)
    ensures Kept(env, m0, s, Lift(env, s, e))
  {
    hide R.StepRet, Follows, Load, Quiet, Orderly;
    StepTame(env.world, s.m, e);
    TameFacts(s.m, R.StepRet(env.world, s.m, e));
    FollowsOn(env.world, m0, s, Lift(env, s, e).s, e);
  }

  lemma TameFacts(m: S.State, r: S.Ret)
    requires Tame(m, r)
    ensures (!m.fault && !r.err ==> !r.s.fault) && Load(r.s) <= Load(m) && (Quiet(m) ==> Quiet(r.s))
  {
  }

  lemma PublishKept(env: Env, m0: S.State, s: State, ev: Ev)
    requires Steady(env, m0, s) && (ev.Terminal() ==> Settled(s.m))
    ensures forall origin :: Kept(env, m0, s, Publish(env, s, ev, origin)) && Publish(env, s, ev, origin).s.m == s.m
  {
  }

  /** Which channels are open, the outcome, the held terminal and the book are nobody's concern here. */
  lemma BookKept(env: Env, m0: S.State, s: State, hold: Option<Ev>, book: Book)
    requires Steady(env, m0, s)
    ensures Kept(env, m0, s, Did(s.(hold := hold, book := book), false))
  {
  }

  lemma ChannelsKept(
    env: Env, m0: S.State, s: State, hold: Option<Ev>, outcome: Option<TurnOutcome>, resultOpen: bool,
    mailboxOpen: bool)
    requires Steady(env, m0, s)
    ensures Kept(env, m0, s,
                 Did(s.(hold := hold, outcome := outcome, resultOpen := resultOpen, mailboxOpen := mailboxOpen), false))
  {
  }

  lemma {:induction false} CancelPendingKept(env: Env, m0: S.State, s: State)
    requires Steady(env, m0, s)
    ensures Kept(env, m0, s, CancelPending(env, s))
    decreases |s.m.loopPending|
  {
    hide Kept, Steady;
    KeptSelf(env, m0, s);
    if s.m.loopPending != [] {
      var d := Publish(env, s, Cancelled(s.m.loopPending[0].id), Own);
      PublishKept(env, m0, s, Cancelled(s.m.loopPending[0].id));
      KeptIsSteady(env, m0, s, d);
      if !d.err {
        var t := Lift(env, d.s, R.QueueRemove(0));
        LiftKept(env, m0, d.s, R.QueueRemove(0));
        KeptIsSteady(env, m0, d.s, t);
        CancelPendingKept(env, m0, t.s);
        KeptTwice(env, m0, s, d, t);
        KeptTwice(env, m0, s, t, CancelPending(env, t.s));
      }
    }
  }

  lemma ObserveKept(env: Env, m0: S.State, s: State, raw: Raw)
    requires Steady(env, m0, s)
    ensures Kept(env, m0, s, Observe(env, s, raw))
  {
    hide Kept, Steady, Lift;
    KeptSelf(env, m0, s);
    match raw {
      case RawSteer(tag, result, err) => LiftKept(env, m0, s, R.SteerSeen(tag, result, err));
      case RawPrompt => LiftKept(env, m0, s, R.PromptSeen);
      case _ =>
    }
  }

  lemma TerminalDrains(env: Env, s: State)
    ensures
      var d := Lift(env, s, R.TerminalEvent);
      d.s.m.terminal && (!d.err ==> d.s.m.pending == [])
  {
    hide S.BeforeTerminal, Tame;
    BeforeTerminalTame(env.world, s.m);
  }

  lemma ProcessTerminalKept(env: Env, m0: S.State, s: State, ev: Ev, publish: bool)
    requires Steady(env, m0, s)
    ensures Kept(env, m0, s, ProcessTerminal(env, s, ev, publish))
  {
    hide Kept, Steady, Lift;
    var d := Lift(env, s, R.TerminalEvent);
    TerminalDrains(env, s);
    LiftKept(env, m0, s, R.TerminalEvent);
    KeptIsSteady(env, m0, s, d);
    if !d.err {
      if S.MustHold(d.s.m) {
        BookKept(env, m0, d.s, Some(ev), Hold(d.s, ev).book);
        KeptTwice(env, m0, s, d, Did(Hold(d.s, ev), false));
      } else {
        PublishKept(env, m0, d.s, ev);
        KeptTwice(env, m0, s, d, Publish(env, d.s, ev, FromTurn));
      }
    }
  }

  lemma ProcessKept(env: Env, m0: S.State, s: State, o: Observation, publish: bool)
    requires Steady(env, m0, s)
    ensures Kept(env, m0, s, Process(env, s, o, publish))
  {
    hide Kept, Steady, Observe, ProcessTerminal, Publish;
    var s0 := s.(book := Booked(s.book, o.event, publish));
    assert s0 == s.(hold := s.hold, book := s0.book);
    BookKept(env, m0, s, s.hold, s0.book);
    KeptIsSteady(env, m0, s, Did(s0, false));
    var d := Observe(env, s0, o.raw);
    ObserveKept(env, m0, s0, o.raw);
    KeptTwice(env, m0, s, Did(s0, false), d);
    KeptIsSteady(env, m0, s, d);
    if !d.err && o.event.Some? {
      if o.event.value.Terminal() {
        ProcessTerminalKept(env, m0, d.s, o.event.value, publish);
        KeptTwice(env, m0, s, d, ProcessTerminal(env, d.s, o.event.value, publish));
      } else {
        PublishKept(env, m0, d.s, o.event.value);
        KeptTwice(env, m0, s, d, Publish(env, d.s, o.event.value, if publish then FromTurn else FromDrain));
      }
    }
  }

  lemma {:induction false} ProcessAllKept(env: Env, m0: S.State, s: State, os: seq<Observation>)
    requires Steady(env, m0, s)
    ensures Kept(env, m0, s, ProcessAll(env, s, os))
    decreases |os|
  {
    hide Kept, Steady, Process;
    KeptSelf(env, m0, s);
    if os != [] {
      var d := Process(env, s, os[0], true);
      ProcessKept(env, m0, s, os[0], true);
      KeptIsSteady(env, m0, s, d);
      if !d.err {
        ProcessAllKept(env, m0, d.s, os[1..]);
        KeptTwice(env, m0, s, d, ProcessAll(env, d.s, os[1..]));
      }
    }
  }

  lemma TakeKept(env: Env, m0: S.State, s: State, e: Evidence, publish: bool, capture: bool)
    requires Steady(env, m0, s)
    ensures Kept(env, m0, s, Take(env, s, e, publish, capture))
  {
    hide Kept, Steady, Process, Lift;
    KeptSelf(env, m0, s);
    match e {
      case ResultArrives(outcome) =>
        ChannelsKept(env, m0, s, s.hold, Some(outcome), false, s.mailboxOpen);
        ChannelsKept(env, m0, s, s.hold, s.outcome, false, s.mailboxOpen);
      case MailboxCloses => ChannelsKept(env, m0, s, s.hold, s.outcome, s.resultOpen, false);
      case Seen(o) => ProcessKept(env, m0, s, o, publish);
      case Completes(serial, result, err) => LiftKept(env, m0, s, R.Completion(serial, result, err));
    }
  }

  lemma {:induction false} TakeAllKept(env: Env, m0: S.State, s: State, es: seq<Evidence>, publish: bool, capture: bool)
    requires Steady(env, m0, s)
    ensures Kept(env, m0, s, TakeAll(env, s, es, publish, capture))
    decreases |es|
  {
    hide Kept, Steady, Take;
    KeptSelf(env, m0, s);
    if es != [] {
      var d := Take(env, s, es[0], publish, capture);
      TakeKept(env, m0, s, es[0], publish, capture);
      KeptIsSteady(env, m0, s, d);
      if !d.err {
        TakeAllKept(env, m0, d.s, es[1..], publish, capture);
        KeptTwice(env, m0, s, d, TakeAll(env, d.s, es[1..], publish, capture));
      }
    }
  }

  /** Evidence first, then a clock. */
  lemma ClockKept(env: Env, m0: S.State, s: State, ready: seq<Evidence>, publish: bool, capture: bool)
    requires Steady(env, m0, s)
    ensures
      var d := TakeAll(env, s, ready, publish, capture);
      && Kept(env, m0, s, d)
      && (!d.err ==> Kept(env, m0, s, Lift(env, d.s, R.TerminalClock)))
      && (!d.err ==> Kept(env, m0, s, Lift(env, d.s, R.DeadlineClock)))
  {
    hide Kept, Steady, TakeAll, Lift;
    var d := TakeAll(env, s, ready, publish, capture);
    TakeAllKept(env, m0, s, ready, publish, capture);
    KeptIsSteady(env, m0, s, d);
    LiftKept(env, m0, d.s, R.TerminalClock);
    LiftKept(env, m0, d.s, R.DeadlineClock);
    if !d.err {
      KeptTwice(env, m0, s, d, Lift(env, d.s, R.TerminalClock));
      KeptTwice(env, m0, s, d, Lift(env, d.s, R.DeadlineClock));
    }
  }

  lemma FireKept(env: Env, m0: S.State, s: State, ready: seq<Evidence>, deadline: bool)
    requires Steady(env, m0, s)
    ensures Kept(env, m0, s, Fire(env, s, ready, deadline))
  {
    hide Kept, Steady, TakeAll, Lift;
    ClockKept(env, m0, s, ready, true, true);
  }

  // ---------------------------------------------------------------- the cancellation drain

  lemma AwaitKept(env: Env, m0: S.State, s: State, next: Wait, capture: bool)
    requires Steady(env, m0, s)
    ensures Kept(env, m0, s, Await(env, s, next, capture))
  {
    hide Kept, Steady, Take, TakeAll, Lift;
    KeptSelf(env, m0, s);
    match next {
      case Fact(e) => TakeKept(env, m0, s, e, false, capture);
      case OutcomeWaitFires =>
      case TerminalFires(ready) => ClockKept(env, m0, s, ready, false, capture);
      case DeadlineFires(ready) => ClockKept(env, m0, s, ready, false, capture);
    }
  }

  /** A drain that returns without an error has settled steering, whichever way it returns. */
  predicate DrainKept(env: Env, m0: S.State, s: State, d: Drained) {
    && Kept(env, m0, s, Did(d.s, d.err))
    && (!s.m.fault && d.returned && !d.err ==> Settled(d.s.m))
  }

  lemma KeptSettles(env: Env, m0: S.State, s: State, d: Did)
    requires Kept(env, m0, s, d)
    ensures Quiet(s.m) ==> Quiet(d.s.m) && Settled(d.s.m)
    ensures !s.m.fault && !d.err ==> !d.s.m.fault && (S.TerminalReady(d.s.m) ==> Settled(d.s.m))
  {
  }

  lemma {:induction false} RoundsKept(env: Env, m0: S.State, s: State, rounds: seq<Round>, wait: bool, capture: bool)
    requires Steady(env, m0, s) && (wait ==> Quiet(s.m))
    ensures DrainKept(env, m0, s, Rounds(env, s, rounds, wait, capture))
    decreases |rounds|
  {
    hide Kept, Steady, TakeAll, Await;
    KeptSelf(env, m0, s);
    if rounds != [] {
      var d := TakeAll(env, s, rounds[0].ready, false, capture);
      TakeAllKept(env, m0, s, rounds[0].ready, false, capture);
      KeptIsSteady(env, m0, s, d);
      KeptSettles(env, m0, s, d);
      if !d.err && !DrainDone(d.s, wait) {
        var a := Await(env, d.s, rounds[0].next, capture);
        AwaitKept(env, m0, d.s, rounds[0].next, capture);
        KeptTwice(env, m0, s, d, a);
        KeptIsSteady(env, m0, s, a);
        KeptSettles(env, m0, s, a);
        if !a.err {
          RoundsKept(env, m0, a.s, rounds[1..], wait, capture);
          var rest := Rounds(env, a.s, rounds[1..], wait, capture);
          KeptTwice(env, m0, s, a, Did(rest.s, rest.err));
        }
      }
    }
  }

  lemma DrainIsKept(env: Env, m0: S.State, s: State, rounds: seq<Round>, capture: bool)
    requires Steady(env, m0, s)
    ensures DrainKept(env, m0, s, Drain(env, s, rounds, capture))
  {
    hide Kept, Steady, Lift, Rounds;
    var s0 := s.(book := s.book.(drained := true));
    assert s0 == s.(hold := s.hold, book := s0.book);
    BookKept(env, m0, s, s.hold, s0.book);
    KeptIsSteady(env, m0, s, Did(s0, false));
    var d := Lift(env, s0, R.TerminalEvent);
    TerminalDrains(env, s0);
    LiftKept(env, m0, s0, R.TerminalEvent);
    KeptTwice(env, m0, s, Did(s0, false), d);
    KeptIsSteady(env, m0, s, d);
    KeptSettles(env, m0, s, d);
    if !d.err {
      var wait := d.s.m.active.None? && !d.s.m.disabled;
      RoundsKept(env, m0, d.s, rounds, wait, capture);
      var rest := Rounds(env, d.s, rounds, wait, capture);
      KeptTwice(env, m0, s, d, Did(rest.s, rest.err));
    }
  }

  // ---------------------------------------------------------------- the invariant

  /** The turn returned: its machine went through its events, the last of them its shutdown, and was cleaned up. */
  predicate Returned(env: Env, m0: S.State, s: State) {
    && s.exit.Some?
    && Orderly(s.published)
    && Load(s.m) <= env.capacity
    && s.events != [] && s.events[|s.events| - 1] == R.ShuttingDown
    && s.m == S.Cleanup(MachineRun(env.world, m0, s.events))
  }

  predicate Inv(env: Env, m0: S.State, s: State) {
    if s.exit.None? then Steady(env, m0, s) && (!s.cut ==> !s.m.fault) else Returned(env, m0, s)
  }

  lemma CleanupLoad(m: S.State)
    ensures Load(S.Cleanup(m)) <= Load(m)
  {
    if m.active.Some? {
    } else {
    }
  }

  lemma LeaveKeeps(env: Env, m0: S.State, s: State, exit: bool)
    requires Steady(env, m0, s)
    ensures Inv(env, m0, Leave(env, s, exit)) && Leave(env, s, exit).exit == Some(exit)
  {
    hide Orderly, Lift, S.Cleanup, Load, Kept, MachineRun;
    var d := Lift(env, s, R.ShuttingDown);
    LiftKept(env, m0, s, R.ShuttingDown);
    KeptIsSteady(env, m0, s, d);
    CleanupLoad(d.s.m);
    LiftAppends(env, s, R.ShuttingDown);
  }

  lemma LiftAppends(env: Env, s: State, e: R.Event)
    ensures Lift(env, s, e).s.events == s.events + [e]
  {
  }

  lemma OrLeaveKeeps(env: Env, m0: S.State, s: State, d: Did)
    requires Inv(env, m0, s) && s.exit.None? && !s.cut && Kept(env, m0, s, d)
    ensures Inv(env, m0, OrLeave(env, d))
  {
    KeptIsSteady(env, m0, s, d);
    hide Steady, Leave, Returned;
    if d.err {
      LeaveKeeps(env, m0, d.s, true);
    }
  }

  lemma ConcludeKeeps(env: Env, m0: S.State, s: State, o: TurnOutcome)
    requires Steady(env, m0, s) && Settled(s.m)
    ensures Inv(env, m0, Conclude(env, s, o))
  {
    hide Kept, Steady, Inv, Leave, CancelPending, Lift, Publish;
    KeptSelf(env, m0, s);
    var d := if o.interrupted then Publish(env, s, Interrupted, Own) else Did(s, false);
    PublishKept(env, m0, s, Interrupted);
    KeptIsSteady(env, m0, s, d);
    if d.err {
      LeaveKeeps(env, m0, d.s, true);
    } else {
      var c := if !o.success && !o.interrupted then CancelPending(env, d.s) else d;
      CancelPendingKept(env, m0, d.s);
      KeptIsSteady(env, m0, d.s, CancelPending(env, d.s));
      var r := Lift(env, c.s, R.ShuttingDown);
      LiftKept(env, m0, c.s, R.ShuttingDown);
      KeptIsSteady(env, m0, c.s, r);
      LeaveKeeps(env, m0, r.s, c.err || r.err);
    }
  }

  lemma HeadKeeps(env: Env, m0: S.State, s: State)
    requires Inv(env, m0, s) && s.exit.None? && !s.cut
    ensures Inv(env, m0, Head(env, s))
  {
    if S.TerminalReady(s.m) {
      assert Settled(s.m);
      var d := if s.hold.Some? then Publish(env, s, s.hold.value, FromTurn) else Did(s, false);
      KeptSelf(env, m0, s);
      if s.hold.Some? {
        PublishKept(env, m0, s, s.hold.value);
      }
      KeptIsSteady(env, m0, s, d);
      ChannelsKept(env, m0, d.s, None, d.s.outcome, d.s.resultOpen, d.s.mailboxOpen);
      var t := d.s.(hold := None);
      KeptIsSteady(env, m0, d.s, Did(t, false));
      hide Conclude, Leave, Steady, Returned, Kept;
      if d.err {
        LeaveKeeps(env, m0, d.s, true);
      } else if t.outcome.Some? {
        ConcludeKeeps(env, m0, t, t.outcome.value);
      }
    }
  }

  // ---------------------------------------------------------------- commands

  /** An offered input adds at most one to the load; one the machine does not handle adds nothing yet. */
  lemma OfferKept(env: Env, m0: S.State, s: State, input: S.Input)
    requires Steady(env, m0, s) && Load(s.m) + 1 <= env.capacity
    ensures
      var d := Lift(env, s, R.InputOffered(input));
      && Steady(env, m0, d.s) && (!s.m.fault && !d.err ==> !d.s.m.fault) && d.s.cut == s.cut
      && (!S.IsCandidate(s.m, input) ==> d.s.m == s.m)
  {
    hide S.Offer, Follows, Orderly, Load;
    OfferLoad(env.world, s.m, input);
    FollowsOn(env.world, m0, s, Lift(env, s, R.InputOffered(input)).s, R.InputOffered(input));
    NotHandled(env.world, s.m, input);
  }

  lemma NotHandled(w: World, m: S.State, input: S.Input)
    ensures !S.IsCandidate(m, input) ==> S.Offer(w, m, input) == S.Offered(false, S.Ret(m, false))
  {
  }

  lemma AppendKept(env: Env, m0: S.State, s: State, input: S.Input)
    requires Steady(env, m0, s) && Load(s.m) + 1 <= env.capacity
    ensures
      var d := Lift(env, s, R.QueueAppend(input));
      Steady(env, m0, d.s) && d.s.m.fault == s.m.fault && d.s.cut == s.cut
  {
    hide Follows, Orderly;
    FollowsOn(env.world, m0, s, Lift(env, s, R.QueueAppend(input)).s, R.QueueAppend(input));
  }

  lemma RoomForOne(env: Env, m: S.State)
    requires |m.loopPending| + S.PendingCount(m) < env.capacity
    ensures Load(m) + 1 <= env.capacity
  {
  }

  lemma AcceptInputKeeps(env: Env, m0: S.State, s: State, input: S.Input, prepared: bool)
    requires Inv(env, m0, s) && s.exit.None? && !s.cut
    ensures Inv(env, m0, AcceptInput(env, s, input, prepared))
  {
    hide Steady, Returned, Lift, Leave, Publish, Kept;
    if |s.m.loopPending| + S.PendingCount(s.m) >= env.capacity {
      PublishKept(env, m0, s, Rejected(input.id));
      OrLeaveKeeps(env, m0, s, Publish(env, s, Rejected(input.id), Own));
    } else if prepared {
      RoomForOne(env, s.m);
      OfferKept(env, m0, s, input);
      var d := Lift(env, s, R.InputOffered(input));
      if S.IsCandidate(s.m, input) {
        if d.err {
          LeaveKeeps(env, m0, d.s, true);
        } else {
          StillRunning(env, m0, d.s);
        }
      } else {
        AppendKept(env, m0, d.s, input);
        StillRunning(env, m0, Lift(env, d.s, R.QueueAppend(input)).s);
      }
    }
  }

  lemma StillRunning(env: Env, m0: S.State, s: State)
    requires Steady(env, m0, s) && !s.m.fault
    ensures Inv(env, m0, s)
  {
  }

  lemma KeptRuns(env: Env, m0: S.State, s: State, d: Did)
    requires Inv(env, m0, s) && s.exit.None? && !s.cut && Kept(env, m0, s, d) && !d.err
    ensures Inv(env, m0, d.s)
  {
  }

  lemma CancelQueuedKeeps(env: Env, m0: S.State, s: State, i: nat)
    requires Inv(env, m0, s) && s.exit.None? && !s.cut && i < |s.m.loopPending|
    ensures Inv(env, m0, CancelQueued(env, s, i))
  {
    assert Steady(env, m0, s);
    hide Steady, Kept, Inv, Lift, Leave;
    var d := Publish(env, s, Cancelled(s.m.loopPending[i].id), Own);
    PublishKept(env, m0, s, Cancelled(s.m.loopPending[i].id));
    KeptIsSteady(env, m0, s, d);
    if d.err {
      LeaveKeeps(env, m0, d.s, true);
    } else {
      LiftKept(env, m0, d.s, R.QueueRemove(i));
      KeptTwice(env, m0, s, d, Lift(env, d.s, R.QueueRemove(i)));
      RemoveSucceeds(env, d.s, i);
      KeptRuns(env, m0, s, Lift(env, d.s, R.QueueRemove(i)));
    }
  }

  lemma RemoveSucceeds(env: Env, s: State, i: nat)
    ensures !Lift(env, s, R.QueueRemove(i)).err
  {
  }

  lemma CutKeeps(env: Env, m0: S.State, s: State)
    requires Steady(env, m0, s)
    ensures Inv(env, m0, s.(cut := true))
  {
  }

  lemma CancelTurnKeeps(env: Env, m0: S.State, s: State, rounds: seq<Round>, queueToo: bool)
    requires Inv(env, m0, s) && s.exit.None? && !s.cut
    ensures Inv(env, m0, CancelTurn(env, s, rounds, queueToo))
  {
    DrainIsKept(env, m0, s, rounds, true);
    var d := Drain(env, s, rounds, true);
    KeptIsSteady(env, m0, s, Did(d.s, d.err));
    assert d.returned && !d.err ==> Settled(d.s.m);
    hide Kept, Steady, Inv, Leave, CancelPending, Drain, Publish;
    if !d.returned {
      CutKeeps(env, m0, d.s);
    } else if d.err {
      LeaveKeeps(env, m0, d.s, true);
    } else {
      var p := Publish(env, d.s, Interrupted, Own);
      PublishKept(env, m0, d.s, Interrupted);
      KeptIsSteady(env, m0, d.s, p);
      if p.err {
        LeaveKeeps(env, m0, p.s, true);
      } else {
        var c := if queueToo then CancelPending(env, p.s) else p;
        CancelPendingKept(env, m0, p.s);
        KeptIsSteady(env, m0, p.s, CancelPending(env, p.s));
        LeaveKeeps(env, m0, c.s, c.err);
      }
    }
  }

  lemma StopTurnKeeps(env: Env, m0: S.State, s: State, rounds: seq<Round>, queueToo: bool)
    requires Inv(env, m0, s) && s.exit.None? && !s.cut
    ensures Inv(env, m0, StopTurn(env, s, rounds, queueToo))
  {
    DrainIsKept(env, m0, s, rounds, false);
    var d := Drain(env, s, rounds, false);
    KeptIsSteady(env, m0, s, Did(d.s, d.err));
    hide Kept, Steady, Inv, Leave, CancelPending, Drain, Lift;
    if !d.returned {
      CutKeeps(env, m0, d.s);
    } else if d.err {
      LeaveKeeps(env, m0, d.s, true);
    } else {
      var r := Lift(env, d.s, R.ShuttingDown);
      LiftKept(env, m0, d.s, R.ShuttingDown);
      KeptIsSteady(env, m0, d.s, r);
      if r.err || !queueToo {
        LeaveKeeps(env, m0, r.s, true);
      } else {
        CancelPendingKept(env, m0, r.s);
        KeptIsSteady(env, m0, r.s, CancelPending(env, r.s));
        LeaveKeeps(env, m0, CancelPending(env, r.s).s, true);
      }
    }
  }

  lemma HandleKeeps(env: Env, m0: S.State, s: State, c: Command)
    requires Inv(env, m0, s) && s.exit.None? && !s.cut
    ensures Inv(env, m0, Handle(env, s, c))
  {
    hide Inv, AcceptInput, CancelQueued, CancelTurn, StopTurn;
    match c {
      case UserInput(input, prepared) => AcceptInputKeeps(env, m0, s, input, prepared);
      case CancelDelegate(target, rounds) =>
        var i := Find(s.m.loopPending, target);
        if i < |s.m.loopPending| {
          CancelQueuedKeeps(env, m0, s, i);
        } else if target == env.active {
          CancelTurnKeeps(env, m0, s, rounds, false);
        }
      case Interrupt(rounds) => CancelTurnKeeps(env, m0, s, rounds, true);
      case ShutDown(rounds) => StopTurnKeeps(env, m0, s, rounds, true);
      case OtherCommand =>
    }
  }

  // ---------------------------------------------------------------- the loop

  lemma ResultKeeps(env: Env, m0: S.State, s: State, outcome: TurnOutcome, rest: seq<Observation>)
    requires Inv(env, m0, s) && s.exit.None? && !s.cut
    ensures Inv(env, m0, Select(env, s, Result(outcome, rest)))
  {
    ChannelsKept(env, m0, s, s.hold, Some(outcome), false, s.mailboxOpen);
    ChannelsKept(env, m0, s, s.hold, Some(outcome), false, false);
    var t := s.(outcome := Some(outcome), resultOpen := false);
    var u := t.(mailboxOpen := false);
    KeptRuns(env, m0, s, Did(t, false));
    KeptRuns(env, m0, s, Did(u, false));
    KeptIsSteady(env, m0, s, Did(u, false));
    ProcessAllKept(env, m0, u, rest);
    hide Inv, Steady, Kept, ProcessAll, OrLeave;
    OrLeaveKeeps(env, m0, u, ProcessAll(env, u, rest));
  }

  lemma SelectKeeps(env: Env, m0: S.State, s: State, p: Pick)
    requires Inv(env, m0, s) && s.exit.None? && !s.cut
    ensures Inv(env, m0, Select(env, s, p))
  {
    assert Steady(env, m0, s);
    hide Inv, Steady, Kept, Lift, Take, Fire, Handle, StopTurn, OrLeave, ProcessAll;
    match p {
      case Result(outcome, rest) => ResultKeeps(env, m0, s, outcome, rest);
      case StreamReady(ordered) =>
        LiftKept(env, m0, s, R.StreamReady(ordered));
        OrLeaveKeeps(env, m0, s, Lift(env, s, R.StreamReady(ordered)));
      case Arrives(e) =>
        TakeKept(env, m0, s, e, true, true);
        OrLeaveKeeps(env, m0, s, Take(env, s, e, true, true));
      case TerminalClock(ready) =>
        FireKept(env, m0, s, ready, false);
        OrLeaveKeeps(env, m0, s, Fire(env, s, ready, false));
      case DeadlineClock(ready) =>
        FireKept(env, m0, s, ready, true);
        OrLeaveKeeps(env, m0, s, Fire(env, s, ready, true));
      case Ordered(c) => HandleKeeps(env, m0, s, c);
      case LoopDone(rounds) => StopTurnKeeps(env, m0, s, rounds, false);
    }
  }

  lemma HeadStays(env: Env, s: State)
    ensures Head(env, s).cut == s.cut
  {
    hide S.Cleanup, S.TerminalReady, Lift;
    if S.TerminalReady(s.m) {
      var d := if s.hold.Some? then Publish(env, s, s.hold.value, FromTurn) else Did(s, false);
      LiftStays(env, d.s, R.ShuttingDown);
      if s.outcome.Some? {
        ConcludeStays(env, d.s.(hold := None), s.outcome.value);
      }
    }
  }

  lemma LiftStays(env: Env, s: State, e: R.Event)
    ensures Lift(env, s, e).s.cut == s.cut
  {
  }

  lemma {:induction false} CancelPendingStays(env: Env, s: State)
    ensures CancelPending(env, s).s.cut == s.cut
    decreases |s.m.loopPending|
  {
    if s.m.loopPending != [] {
      var d := Publish(env, s, Cancelled(s.m.loopPending[0].id), Own);
      if !d.err {
        CancelPendingStays(env, Lift(env, d.s, R.QueueRemove(0)).s);
      }
    }
  }

  lemma ConcludeStays(env: Env, s: State, o: TurnOutcome)
    ensures Conclude(env, s, o).cut == s.cut
  {
    hide S.Cleanup, CancelPending, Lift;
    var d := if o.interrupted then Publish(env, s, Interrupted, Own) else Did(s, false);
    CancelPendingStays(env, d.s);
    LiftStays(env, d.s, R.ShuttingDown);
    var c := if !o.success && !o.interrupted then CancelPending(env, d.s) else d;
    LiftStays(env, c.s, R.ShuttingDown);
    LiftStays(env, Lift(env, c.s, R.ShuttingDown).s, R.ShuttingDown);
  }

  lemma TripKeeps(env: Env, m0: S.State, s: State, p: Pick)
    requires Inv(env, m0, s)
    ensures Inv(env, m0, Trip(env, s, p))
  {
    if s.exit.None? && !s.cut {
      HeadKeeps(env, m0, s);
      HeadStays(env, s);
      hide Inv, Head, Select;
      var t := Head(env, s);
      if t.exit.None? {
        SelectKeeps(env, m0, t, p);
      }
    }
  }

  lemma {:induction false} RunKeeps(env: Env, m0: S.State, s: State, picks: seq<Pick>)
    requires Inv(env, m0, s)
    ensures Inv(env, m0, RunOf(env, s, picks))
    decreases |picks|
  {
    hide Inv, Trip;
    if picks != [] {
      TripKeeps(env, m0, s, picks[0]);
      RunKeeps(env, m0, Trip(env, s, picks[0]), picks[1..]);
    }
  }

  /** One turn of the actor, from its start with `queued` inputs waiting. */
  function Turn(env: Env, hasHook: bool, hasSteerer: bool, queued: seq<S.Input>, picks: seq<Pick>): State {
    RunOf(env, Begin(hasHook, hasSteerer, queued), picks)
  }

  lemma TurnInv(env: Env, hasHook: bool, hasSteerer: bool, queued: seq<S.Input>, picks: seq<Pick>)
    requires |queued| <= env.capacity
    ensures Inv(env, S.Fresh(hasHook, hasSteerer, queued), Turn(env, hasHook, hasSteerer, queued, picks))
  {
    hide S.TerminalReady;
    var m0 := S.Fresh(hasHook, hasSteerer, queued);
    assert MachineRun(env.world, m0, []) == m0;
    RunKeeps(env, m0, Begin(hasHook, hasSteerer, queued), picks);
  }

  /**
    Terminal hold: on the ordinary path and on every cancellation, interrupt and shutdown path, a
    turn's terminal is published only in a state where no reserved request is unresolved and
    nobody is pending in the machine.
   */
  lemma TerminalHold(env: Env, hasHook: bool, hasSteerer: bool, queued: seq<S.Input>, picks: seq<Pick>, i: nat)
    requires |queued| <= env.capacity
    ensures
      var ps := Turn(env, hasHook, hasSteerer, queued, picks).published;
      i < |ps| && ps[i].event.Terminal() ==> ps[i].settled
  {
    TurnInv(env, hasHook, hasSteerer, queued, picks);
  }

  /** Queue bound: queued inputs and unresolved steering requests never exceed the capacity together. */
  lemma QueueBound(env: Env, hasHook: bool, hasSteerer: bool, queued: seq<S.Input>, picks: seq<Pick>)
    requires |queued| <= env.capacity
    ensures
      var m := Turn(env, hasHook, hasSteerer, queued, picks).m;
      |m.loopPending| + |m.pending| + (if S.MustHold(m) then 1 else 0) <= env.capacity
  {
    TurnInv(env, hasHook, hasSteerer, queued, picks);
  }

  /** One turn of the actor's life: what surrounds it and what happens in it. */
  datatype Plan = Plan(env: Env, hasHook: bool, hasSteerer: bool, picks: seq<Pick>)

  /** What is queued after a series of turns; each takes its input from the head of the queue if there is one. */
  function QueueAfter(queued: seq<S.Input>, plans: seq<Plan>): seq<S.Input>
    decreases |plans|
  {
    if plans == [] then queued
    else
      var p, left := plans[0], if queued == [] then [] else queued[1..];
      QueueAfter(Turn(p.env, p.hasHook, p.hasSteerer, left, p.picks).m.loopPending, plans[1..])
  }

  /** The queue bound holds over the actor's whole life. */
  lemma {:induction false} QueueBoundForLife(queued: seq<S.Input>, plans: seq<Plan>, capacity: nat)
    requires |queued| <= capacity && forall p :: p in plans ==> p.env.capacity == capacity
    ensures |QueueAfter(queued, plans)| <= capacity
    decreases |plans|
  {
    if plans != [] {
      var p, left := plans[0], if queued == [] then [] else queued[1..];
      assert p in plans;
      QueueBound(p.env, p.hasHook, p.hasSteerer, left, p.picks);
      QueueBoundForLife(Turn(p.env, p.hasHook, p.hasSteerer, left, p.picks).m.loopPending, plans[1..], capacity);
    }
  }

  // ---------------------------------------------------------------- cancelPending

  /** The cancellations published, in order. */
  function Cancellations(ps: seq<Publication>): seq<nat> {
    if ps == [] then []
    else if ps[|ps| - 1].event.Cancelled? && ps[|ps| - 1].ok
      then Cancellations(ps[..|ps| - 1]) + [ps[|ps| - 1].event.id]
    else Cancellations(ps[..|ps| - 1])
  }

  function Names(q: seq<S.Input>): seq<nat> {
    if q == [] then [] else [q[0].id] + Names(q[1..])
  }

  /** The state after the head's cancellation was published. */
  function Popped(env: Env, s: State): State
    requires s.m.loopPending != []
  {
    var t := Publish(env, s, Cancelled(s.m.loopPending[0].id), Own).s;
    Lift(env, t, R.QueueRemove(0)).s
  }

  lemma PoppedShape(env: Env, s: State)
    requires s.m.loopPending != [] && env.pubs(|s.published|)
    ensures
      var t := Popped(env, s);
      && t.m.loopPending == s.m.loopPending[1..]
      && t.m.log == s.m.log && t.m.pending == s.m.pending && t.m.active == s.m.active
      && CancelPending(env, s) == CancelPending(env, t)
  {
  }

  lemma PoppedCancels(env: Env, s: State)
    requires s.m.loopPending != [] && env.pubs(|s.published|)
    ensures Cancellations(Popped(env, s).published) == Cancellations(s.published) + [s.m.loopPending[0].id]
  {
    var ps := Popped(env, s).published;
    assert ps[..|ps| - 1] == s.published;
  }

  lemma RefusedCancels(env: Env, s: State)
    requires s.m.loopPending != [] && !env.pubs(|s.published|)
    ensures
      var d := CancelPending(env, s);
      d.err && d.s.m == s.m && Cancellations(d.s.published) == Cancellations(s.published)
  {
    var ps := CancelPending(env, s).s.published;
    assert ps[..|ps| - 1] == s.published;
  }

  /** From the queue `q` to its rest, each input between the two canceled in order; `err` if there is a rest. */
  predicate Canceled(before: seq<nat>, q: seq<S.Input>, after: seq<nat>, rest: seq<S.Input>, err: bool) {
    && after + Names(rest) == before + Names(q)
    && |rest| <= |q| && rest == q[|q| - |rest|..]
    && (err <==> rest != [])
  }

  lemma NamesNext(before: seq<nat>, q: seq<S.Input>)
    requires q != []
    ensures (before + [q[0].id]) + Names(q[1..]) == before + Names(q)
  {
    assert Names(q) == [q[0].id] + Names(q[1..]);
  }

  lemma CanceledNext(before: seq<nat>, q: seq<S.Input>, after: seq<nat>, rest: seq<S.Input>, err: bool)
    requires q != [] && Canceled(before + [q[0].id], q[1..], after, rest, err)
    ensures Canceled(before, q, after, rest, err)
  {
    NamesNext(before, q);
    hide Names;
  }

  /**
    cancelPending publishes one cancellation per queued input, in order, and on a failure keeps
    exactly the inputs whose cancellation was not published.
   */
  lemma {:induction false} CancelPendingIsExact(env: Env, s: State)
    ensures
      var d := CancelPending(env, s);
      Canceled(Cancellations(s.published), s.m.loopPending, Cancellations(d.s.published), d.s.m.loopPending, d.err)
    decreases |s.m.loopPending|
  {
    if s.m.loopPending == [] {
    } else if env.pubs(|s.published|) {
      PoppedShape(env, s);
      PoppedCancels(env, s);
      hide CancelPending, Popped, Cancellations, Names, Canceled;
      CancelPendingIsExact(env, Popped(env, s));
      var d := CancelPending(env, s);
      CanceledNext(Cancellations(s.published), s.m.loopPending, Cancellations(d.s.published), d.s.m.loopPending, d.err);
    } else {
      RefusedCancels(env, s);
      hide CancelPending, Cancellations;
    }
  }

  /** It makes no steering call. */
  lemma {:induction false} CancelPendingIsSilent(env: Env, s: State)
    ensures
      var m := CancelPending(env, s).s.m;
      m.log == s.m.log && m.pending == s.m.pending && m.active == s.m.active
    decreases |s.m.loopPending|
  {
    if s.m.loopPending == [] {
    } else if env.pubs(|s.published|) {
      PoppedShape(env, s);
      hide CancelPending, Popped;
      CancelPendingIsSilent(env, Popped(env, s));
    } else {
      RefusedCancels(env, s);
      hide CancelPending;
    }
  }
}
