/**
  What the actor says of its own accord: how a turn that ends without an error ends, what becomes of
  an input that arrives during it, and that a clock which is not stale is heard.
 */
module TurnActorWord {
  import opened Options
  import opened DriverContract
  import opened TurnActorModel
  import opened TurnActorTheorems
  import opened Relay = TurnActorRelay
  import S = SteeringModel
  import R = SteeringRuns

  /** The actor's own publications, in order. */
  function Said(s: State): seq<Ev> {
    From(s.published, Own)
  }

  /** One cancellation for each queued input, in order. */
  function Cancels(q: seq<S.Input>): seq<Ev> {
    seq(|q|, i requires 0 <= i < |q| => Cancelled(q[i].id))
  }

  /** The publication, the rest as it was. */
  lemma PublishSays(env: Env, s: State, ev: Ev, origin: Source)
    ensures
      var t := Publish(env, s, ev, origin).s;
      && Said(t) == Said(s) + (if origin.Own? then [ev] else [])
      && t.m == s.m && t.outcome == s.outcome && t.hold == s.hold && t.events == s.events && t.exit == s.exit
  {
    Relay.SnocOf(s.published, Publication(ev, env.pubs(|s.published|), Settled(s.m), origin));
    hide Settled;
  }

  lemma LiftSays(env: Env, s: State, e: R.Event)
    ensures
      var t := Lift(env, s, e).s;
      && Said(t) == Said(s) && t.outcome == s.outcome && t.hold == s.hold && t.events == s.events + [e]
      && t.exit == s.exit
  {
    hide From, R.StepRet;
  }

  lemma CancelsNext(q: seq<S.Input>)
    requires q != []
    ensures Cancels(q) == [Cancelled(q[0].id)] + Cancels(q[1..])
  {
  }

  lemma {:induction false} CancelPendingSays(env: Env, s: State)
    ensures
      var d := CancelPending(env, s);
      !d.err ==> Said(d.s) == Said(s) + Cancels(s.m.loopPending) && d.s.m.loopPending == []
    decreases |s.m.loopPending|
  {
    var q := s.m.loopPending;
    if q == [] {
      assert Said(s) + Cancels([]) == Said(s);
    } else {
      var ev := Cancelled(q[0].id);
      var d := Publish(env, s, ev, Own);
      PublishSays(env, s, ev, Own);
      LiftSays(env, d.s, R.QueueRemove(0));
      CancelsNext(q);
      var t := Lift(env, d.s, R.QueueRemove(0)).s;
      assert t.m.loopPending == q[1..];
      hide Said, Cancels, Publish, Lift;
      if !d.err {
        CancelPendingSays(env, t);
        assert Said(s) + [ev] + Cancels(q[1..]) == Said(s) + ([ev] + Cancels(q[1..]));
      }
    }
  }

  lemma LeaveSays(env: Env, s: State, exit: bool)
    ensures Said(Leave(env, s, exit)) == Said(s) && Leave(env, s, exit).exit == Some(exit)
  {
    LiftSays(env, s, R.ShuttingDown);
    hide From, Lift, S.Cleanup;
  }

  // ---------------------------------------------------------------- the end of a turn

  /** What is said at the end of a turn that ran to its outcome. */
  function Finale(o: TurnOutcome, q: seq<S.Input>): seq<Ev> {
    if o.interrupted then [Interrupted] else if o.success then [] else Cancels(q)
  }

  lemma ConcludeSays(env: Env, s: State, o: TurnOutcome)
    ensures
      var t := Conclude(env, s, o);
      && t.exit.Some?
      && (t.exit == Some(false) ==> Said(t) == Said(s) + Finale(o, s.m.loopPending))
  {
    var d := if o.interrupted then Publish(env, s, Interrupted, Own) else Did(s, false);
    PublishSays(env, s, Interrupted, Own);
    LeaveSays(env, d.s, true);
    hide Said, Cancels, Publish, CancelPending, Lift, Leave;
    if !d.err {
      var c := if !o.success && !o.interrupted then CancelPending(env, d.s) else d;
      CancelPendingSays(env, d.s);
      var r := Lift(env, c.s, R.ShuttingDown);
      LiftSays(env, c.s, R.ShuttingDown);
      LeaveSays(env, r.s, c.err || r.err);
      assert Said(s) + [] == Said(s);
    }
  }

  /** Steering is settled, or a call of it failed. */
  predicate SteeringOver(m: S.State) {
    m.fault || ((m.active.None? || m.active.value.resolved) && m.pending == [])
  }

  lemma {:induction false} ProcessAllKeepsOutcome(env: Env, s: State, os: seq<Observation>)
    ensures ProcessAll(env, s, os).s.outcome == s.outcome && ProcessAll(env, s, os).s.exit == s.exit
    decreases |os|
  {
    hide Process, Said;
    if os != [] {
      ProcessSays(env, s, os[0], true);
      ProcessAllKeepsOutcome(env, Process(env, s, os[0], true).s, os[1..]);
    }
  }

  /** The producer's outcome is kept, once. */
  lemma OutcomeIsKept(env: Env, s: State, outcome: TurnOutcome, rest: seq<Observation>)
    requires s.exit.None?
    ensures
      var t := Select(env, s, Result(outcome, rest));
      t.exit.None? ==> t.outcome == if s.resultOpen then Some(outcome) else s.outcome
  {
    var u := s.(outcome := Some(outcome), resultOpen := false, mailboxOpen := false);
    ProcessAllKeepsOutcome(env, u, rest);
    OrLeaveSays(env, ProcessAll(env, u, rest));
    hide ProcessAll, OrLeave, Said;
  }

  /** A turn whose outcome is there ends as soon as its steering is over. */
  lemma TurnConcludes(env: Env, s: State, p: Pick)
    requires s.exit.None? && !s.cut && SteeringOver(s.m) && s.outcome.Some?
    ensures
      var t := Trip(env, s, p);
      && t.exit.Some?
      && (t.exit == Some(false) ==> Said(t) == Said(s) + Finale(s.outcome.value, s.m.loopPending))
  {
    var d := if s.hold.Some? then Publish(env, s, s.hold.value, FromTurn) else Did(s, false);
    if s.hold.Some? {
      PublishSays(env, s, s.hold.value, FromTurn);
      assert Said(s) + [] == Said(s);
    }
    LeaveSays(env, d.s, true);
    var t := d.s.(hold := None);
    assert Said(t) == Said(d.s) && t.m == s.m && t.outcome == s.outcome;
    ConcludeSays(env, t, s.outcome.value);
    assert Head(env, s).exit.Some? by {
      hide Publish, Leave, Conclude, Said, From;
    }
    hide Publish, Leave, Conclude, Said, Finale, Select;
  }

  /** A canceled turn is interrupted, then, if asked for, everything queued after the drain is canceled. */
  lemma CancelTurnSays(env: Env, s: State, rounds: seq<Round>, queueToo: bool)
    ensures
      var t, d := CancelTurn(env, s, rounds, queueToo), Drain(env, s, rounds, true);
      t.exit == Some(false) && !s.exit.Some? && d.s.exit.None? ==>
        Said(t) == Said(d.s) + [Interrupted] + if queueToo then Cancels(d.s.m.loopPending) else []
  {
    var d := Drain(env, s, rounds, true);
    hide Said, Cancels, Publish, CancelPending, Drain, Leave;
    PublishSays(env, d.s, Interrupted, Own);
    var p := Publish(env, d.s, Interrupted, Own);
    LeaveSays(env, d.s, true);
    LeaveSays(env, p.s, true);
    CancelPendingSays(env, p.s);
    var c := if queueToo then CancelPending(env, p.s) else p;
    LeaveSays(env, c.s, c.err);
    assert Said(d.s) + [Interrupted] + [] == Said(d.s) + [Interrupted];
    CutSays(d.s);
  }

  lemma CutSays(s: State)
    ensures s.(cut := true).exit == s.exit
  {
  }

  // ---------------------------------------------------------------- the drain says nothing

  lemma ProcessSays(env: Env, s: State, o: Observation, publish: bool)
    ensures Said(Process(env, s, o, publish).s) == Said(s) && Process(env, s, o, publish).s.exit == s.exit
    ensures Process(env, s, o, publish).s.outcome == s.outcome
  {
    var s0 := s.(book := Booked(s.book, o.event, publish));
    assert Said(s0) == Said(s);
    var d := Observe(env, s0, o.raw);
    ObserveSays(env, s0, o.raw);
    hide Said, Observe, ProcessTerminal, Publish, Booked;
    if !d.err && o.event.Some? {
      ProcessTerminalSays(env, d.s, o.event.value, publish);
      PublishSays(env, d.s, o.event.value, if publish then FromTurn else FromDrain);
      assert Said(d.s) + [] == Said(d.s);
    }
  }

  lemma ObserveSays(env: Env, s: State, raw: Raw)
    ensures Said(Observe(env, s, raw).s) == Said(s) && Observe(env, s, raw).s.exit == s.exit
    ensures Observe(env, s, raw).s.outcome == s.outcome
  {
    hide Said, Lift;
    match raw {
      case RawSteer(tag, result, err) => LiftSays(env, s, R.SteerSeen(tag, result, err));
      case RawPrompt => LiftSays(env, s, R.PromptSeen);
      case _ =>
    }
  }

  lemma ProcessTerminalSays(env: Env, s: State, ev: Ev, publish: bool)
    ensures
      Said(ProcessTerminal(env, s, ev, publish).s) == Said(s) && ProcessTerminal(env, s, ev, publish).s.exit == s.exit
    ensures ProcessTerminal(env, s, ev, publish).s.outcome == s.outcome
  {
    var d := Lift(env, s, R.TerminalEvent);
    LiftSays(env, s, R.TerminalEvent);
    assert Said(Hold(d.s, ev)) == Said(d.s) && Hold(d.s, ev).exit == d.s.exit && Hold(d.s, ev).outcome == d.s.outcome;
    PublishSays(env, d.s, ev, FromTurn);
    assert Said(d.s) + [] == Said(d.s);
    hide Said, Lift, Hold, Publish;
  }

  lemma TakeSays(env: Env, s: State, e: Evidence, publish: bool, capture: bool)
    ensures Said(Take(env, s, e, publish, capture).s) == Said(s) && Take(env, s, e, publish, capture).s.exit == s.exit
  {
    hide Process, Lift, From;
    match e {
      case Seen(o) => ProcessSays(env, s, o, publish);
      case Completes(serial, result, err) => LiftSays(env, s, R.Completion(serial, result, err));
      case _ =>
    }
  }

  lemma {:induction false} TakeAllSays(env: Env, s: State, es: seq<Evidence>, publish: bool, capture: bool)
    ensures
      Said(TakeAll(env, s, es, publish, capture).s) == Said(s) && TakeAll(env, s, es, publish, capture).s.exit == s.exit
    decreases |es|
  {
    hide Said, Take;
    if es != [] {
      TakeSays(env, s, es[0], publish, capture);
      TakeAllSays(env, Take(env, s, es[0], publish, capture).s, es[1..], publish, capture);
    }
  }

  lemma AwaitSays(env: Env, s: State, next: Wait, capture: bool)
    ensures Said(Await(env, s, next, capture).s) == Said(s) && Await(env, s, next, capture).s.exit == s.exit
  {
    hide Said, Take, TakeAll, Lift;
    match next {
      case Fact(e) => TakeSays(env, s, e, false, capture);
      case TerminalFires(ready) =>
        TakeAllSays(env, s, ready, false, capture);
        LiftSays(env, TakeAll(env, s, ready, false, capture).s, R.TerminalClock);
      case DeadlineFires(ready) =>
        TakeAllSays(env, s, ready, false, capture);
        LiftSays(env, TakeAll(env, s, ready, false, capture).s, R.DeadlineClock);
      case OutcomeWaitFires =>
    }
  }

  lemma {:induction false} RoundsSay(env: Env, s: State, rounds: seq<Round>, wait: bool, capture: bool)
    ensures
      Said(Rounds(env, s, rounds, wait, capture).s) == Said(s) && Rounds(env, s, rounds, wait, capture).s.exit == s.exit
    decreases |rounds|
  {
    hide Said, TakeAll, Await, DrainDone;
    if rounds != [] {
      var d := TakeAll(env, s, rounds[0].ready, false, capture);
      TakeAllSays(env, s, rounds[0].ready, false, capture);
      AwaitSays(env, d.s, rounds[0].next, capture);
      RoundsSay(env, Await(env, d.s, rounds[0].next, capture).s, rounds[1..], wait, capture);
    }
  }

  lemma DrainSays(env: Env, s: State, rounds: seq<Round>, capture: bool)
    ensures Said(Drain(env, s, rounds, capture).s) == Said(s) && Drain(env, s, rounds, capture).s.exit == s.exit
  {
    var s0 := s.(book := s.book.(drained := true));
    assert Said(s0) == Said(s);
    hide Said, Lift, Rounds;
    LiftSays(env, s0, R.TerminalEvent);
    var d := Lift(env, s0, R.TerminalEvent);
    RoundsSay(env, d.s, rounds, d.s.m.active.None? && !d.s.m.disabled, capture);
  }

  /**
    A command that cancels the running turn, if nothing fails: the turn is over, and what was said on
    the way is that it was interrupted, then the cancellation of each input that was queued when its
    steering had drained, if the whole queue was to be canceled.
   */
  lemma CancellationIsSaid(env: Env, s: State, rounds: seq<Round>, queueToo: bool)
    requires s.exit.None?
    ensures
      var t, d := CancelTurn(env, s, rounds, queueToo), Drain(env, s, rounds, true);
      && (d.returned ==> t.exit.Some?)
      && (t.exit == Some(false) ==>
            Said(t) == Said(s) + [Interrupted] + if queueToo then Cancels(d.s.m.loopPending) else [])
  {
    DrainSays(env, s, rounds, true);
    CancelTurnSays(env, s, rounds, queueToo);
    var d := Drain(env, s, rounds, true);
    LeaveSays(env, d.s, true);
    hide Said, Cancels, Publish, CancelPending, Drain, Lift, S.Cleanup;
  }

  // ---------------------------------------------------------------- an input during the turn

  /** The inputs that wait or are with the provider fill the actor's capacity. */
  predicate Full(env: Env, m: S.State) {
    |m.loopPending| + |m.pending| + (if m.active.Some? then 1 else 0) >= env.capacity
  }

  /**
    An input is rejected, and that is said, exactly if the capacity is reached; otherwise it is offered
    to the steering machine, if it could be prepared, and appended to the queue exactly if it is not
    for the machine.
   */
  lemma InputIsAnswered(env: Env, s: State, input: S.Input, prepared: bool)
    requires s.exit.None?
    ensures
      var t := AcceptInput(env, s, input, prepared);
      var own := s.m.hasHook && input.machineAgency && input.targetsLoop && input.deliveryIntent;
      && Said(t) == Said(s) + (if Full(env, s.m) then [Rejected(input.id)] else [])
      && (t.exit.None? ==>
            t.events == s.events +
              if Full(env, s.m) || !prepared then []
              else if own then [R.InputOffered(input)]
              else [R.InputOffered(input), R.QueueAppend(input)])
  {
    if Full(env, s.m) {
      var d := Publish(env, s, Rejected(input.id), Own);
      PublishSays(env, s, Rejected(input.id), Own);
      OrLeaveSays(env, d);
      hide Said, Publish, OrLeave;
      assert s.events + [] == s.events;
    } else if prepared {
      var d := Lift(env, s, R.InputOffered(input));
      LiftSays(env, s, R.InputOffered(input));
      LiftSays(env, d.s, R.QueueAppend(input));
      OrLeaveSays(env, d);
      hide Said, Lift, OrLeave;
      assert Said(s) + [] == Said(s);
    } else {
      assert Said(s) + [] == Said(s) && s.events + [] == s.events;
      hide Said;
    }
  }

  lemma OrLeaveSays(env: Env, d: Did)
    ensures Said(OrLeave(env, d)) == Said(d.s) && (OrLeave(env, d).exit.None? ==> OrLeave(env, d) == d.s)
  {
    LeaveSays(env, d.s, true);
    hide Said, Leave;
  }

  // ---------------------------------------------------------------- the clocks

  /**
    A clock that fires reaches the machine, unless what was already there failed or made it stale:
    another attempt is active, or the timer is not the one that fired.
   */
  lemma ClockIsHeard(env: Env, s: State, ready: seq<Evidence>, deadline: bool)
    ensures
      var d, e := Fire(env, s, ready, deadline), TakeAll(env, s, ready, true, true);
      if e.err || ActiveSerial(e.s.m) != ActiveSerial(s.m)
         || (if deadline then e.s.m.deadlineTimer != s.m.deadlineTimer else e.s.m.timer != s.m.timer)
      then d == e
      else d.s.events == e.s.events + [if deadline then R.DeadlineClock else R.TerminalClock]
  {
    var e := TakeAll(env, s, ready, true, true);
    LiftSays(env, e.s, R.DeadlineClock);
    LiftSays(env, e.s, R.TerminalClock);
    hide Said, TakeAll, Lift, ActiveSerial;
  }
}
