/**
  What becomes of the events that the producer hands to the actor: while the turn runs each is
  published, but for a terminal that is held or that a later one replaced; during a drain only
  session bindings are.
 */
module TurnActorRelay {
  import opened Options
  import opened DriverContract
  import opened TurnActorModel
  import opened TurnActorTheorems
  import S = SteeringModel
  import R = SteeringRuns

  /** The events published from one source, in order. */
  function From(ps: seq<Publication>, origin: Source): seq<Ev> {
    if ps == [] then []
    else From(ps[..|ps| - 1], origin) + if ps[|ps| - 1].origin == origin then [ps[|ps| - 1].event] else []
  }

  /** The events that are no terminal, in order. */
  function Plain(es: seq<Ev>): seq<Ev> {
    if es == [] then [] else Plain(es[..|es| - 1]) + if es[|es| - 1].Terminal() then [] else [es[|es| - 1]]
  }

  function Bindings(es: seq<Ev>): seq<Ev> {
    if es == [] then [] else Bindings(es[..|es| - 1]) + if es[|es| - 1].Bound? then [es[|es| - 1]] else []
  }

  predicate Ended(es: seq<Ev>) {
    exists ev :: ev in es && ev.Terminal()
  }

  function HeldOf(hold: Option<Ev>): seq<Ev> {
    if hold.Some? then [hold.value] else []
  }

  /** What was published from the mailbox, what is held, and what was taken. */
  datatype View = View(turn: seq<Ev>, drain: seq<Ev>, hold: Option<Ev>, book: Book)

  function ViewOf(s: State): View {
    View(From(s.published, FromTurn), From(s.published, FromDrain), s.hold, s.book)
  }

  /**
    Everything that is no terminal was published, in order; every terminal was published, or is held,
    or was replaced, and exactly one of the three, and never were all of them replaced; without a held
    one everything was published as it came; and a drain published the bindings.
   */
  ghost predicate Relays(v: View) {
    && Plain(v.turn) == Plain(v.book.seen)
    && multiset(v.turn) + multiset(HeldOf(v.hold)) + multiset(v.book.replaced) == multiset(v.book.seen)
    && (!v.book.held ==> v.turn == v.book.seen && v.hold.None? && v.book.replaced == [])
    && (v.book.held ==> v.hold.Some? || Ended(v.turn))
    && (v.hold.Some? ==> v.hold.value.Terminal())
    && (forall e :: e in v.book.replaced ==> e.Terminal())
    && v.drain == Bindings(v.book.late)
  }

  // ---------------------------------------------------------------- one event

  lemma SnocOf<T>(q: seq<T>, x: T)
    ensures (q + [x])[..|q + [x]| - 1] == q && (q + [x])[|q + [x]| - 1] == x
  {
  }

  /** The event is published as it comes. */
  lemma PublishedNow(v: View, ev: Ev)
    requires Relays(v)
    ensures Relays(v.(turn := v.turn + [ev], book := Booked(v.book, Some(ev), true)))
  {
    SnocOf(v.turn, ev);
    SnocOf(v.book.seen, ev);
  }

  lemma HeldNow(v: View, ev: Ev)
    requires Relays(v) && ev.Terminal()
    ensures
      var b := Booked(v.book, Some(ev), true);
      Relays(v.(hold := Some(ev), book := b.(replaced := b.replaced + HeldOf(v.hold), held := true)))
  {
    var held := HeldOf(v.hold);
    SnocOf(v.book.seen, ev);
    assert Plain(v.book.seen + [ev]) == Plain(v.book.seen) + [] == Plain(v.book.seen);
    hide Plain, Bindings, Ended, HeldOf;
    HeldTallies(v.turn, held, v.book.replaced, v.book.seen, ev);
    assert HeldOf(Some(ev)) == [ev] by {
      OneHeld(ev);
    }
    forall e | e in v.book.replaced + held ensures e.Terminal() {
      HeldIsTerminal(v, e);
    }
  }

  lemma OneHeld(ev: Ev)
    ensures HeldOf(Some(ev)) == [ev]
  {
  }

  lemma HeldIsTerminal(v: View, e: Ev)
    requires Relays(v) && e in v.book.replaced + HeldOf(v.hold)
    ensures e.Terminal()
  {
    hide Plain, Bindings, Ended;
  }

  lemma HeldTallies(turn: seq<Ev>, held: seq<Ev>, replaced: seq<Ev>, seen: seq<Ev>, ev: Ev)
    requires multiset(turn) + multiset(held) + multiset(replaced) == multiset(seen)
    ensures multiset(turn) + multiset([ev]) + multiset(replaced + held) == multiset(seen + [ev])
  {
    assert multiset(turn) + multiset([ev]) + multiset(replaced + held) == multiset(seen) + multiset{ev};
  }

  lemma ReleasedNow(v: View)
    requires Relays(v) && v.hold.Some?
    ensures Relays(v.(turn := v.turn + [v.hold.value], hold := None))
  {
    SnocOf(v.turn, v.hold.value);
  }

  lemma DrainedNow(v: View, ev: Ev)
    requires Relays(v)
    ensures
      Relays(v.(drain := v.drain + (if ev.Bound? then [ev] else []), book := Booked(v.book, Some(ev), false)))
  {
    SnocOf(v.book.late, ev);
    assert v.drain + [] == v.drain;
  }

  // ---------------------------------------------------------------- operations

  lemma PublishView(env: Env, s: State, ev: Ev, origin: Source)
    ensures
      var v := ViewOf(s);
      ViewOf(Publish(env, s, ev, origin).s) ==
        v.(turn := v.turn + (if origin == FromTurn then [ev] else []),
           drain := v.drain + (if origin == FromDrain then [ev] else []))
  {
    var ok := env.pubs(|s.published|);
    SnocOf(s.published, Publication(ev, ok, Settled(s.m), origin));
    hide Settled;
  }

  lemma OwnView(env: Env, s: State, ev: Ev)
    ensures ViewOf(Publish(env, s, ev, Own).s) == ViewOf(s) && Publish(env, s, ev, Own).s.exit == s.exit
  {
    PublishView(env, s, ev, Own);
    var v := ViewOf(s);
    assert v.turn + [] == v.turn && v.drain + [] == v.drain;
    hide ViewOf, Settled;
  }

  lemma LiftView(env: Env, s: State, e: R.Event)
    ensures ViewOf(Lift(env, s, e).s) == ViewOf(s) && Lift(env, s, e).s.exit == s.exit
  {
  }

  lemma {:induction false} CancelPendingView(env: Env, s: State)
    ensures ViewOf(CancelPending(env, s).s) == ViewOf(s) && CancelPending(env, s).s.exit == s.exit
    decreases |s.m.loopPending|
  {
    if s.m.loopPending != [] {
      var d := Publish(env, s, Cancelled(s.m.loopPending[0].id), Own);
      OwnView(env, s, Cancelled(s.m.loopPending[0].id));
      assert d.s.m == s.m;
      LiftView(env, d.s, R.QueueRemove(0));
      assert |Lift(env, d.s, R.QueueRemove(0)).s.m.loopPending| < |s.m.loopPending|;
      hide ViewOf, Publish, Lift;
      if !d.err {
        CancelPendingView(env, Lift(env, d.s, R.QueueRemove(0)).s);
      }
    }
  }

  lemma LeaveView(env: Env, s: State, exit: bool)
    ensures ViewOf(Leave(env, s, exit)) == ViewOf(s) && Leave(env, s, exit).exit == Some(exit)
  {
    LiftView(env, s, R.ShuttingDown);
    hide Lift, S.Cleanup;
  }

  lemma ObserveView(env: Env, s: State, raw: Raw)
    ensures ViewOf(Observe(env, s, raw).s) == ViewOf(s) && Observe(env, s, raw).s.exit == s.exit
  {
    match raw {
      case RawSteer(tag, result, err) => LiftView(env, s, R.SteerSeen(tag, result, err));
      case RawPrompt => LiftView(env, s, R.PromptSeen);
      case _ =>
    }
    hide Lift, ViewOf;
  }

  /** A terminal is published or held while the turn runs, and neither while it is drained. */
  lemma ProcessTerminalView(env: Env, s: State, ev: Ev, publish: bool)
    ensures
      var d, v := ProcessTerminal(env, s, ev, publish), ViewOf(s);
      && d.s.exit == s.exit
      && (!d.err && publish ==>
            || ViewOf(d.s) == v.(turn := v.turn + [ev])
            || ViewOf(d.s) ==
                 v.(hold := Some(ev), book := v.book.(replaced := v.book.replaced + HeldOf(v.hold), held := true)))
      && (!d.err && !publish ==> ViewOf(d.s) == v)
  {
    var d := Lift(env, s, R.TerminalEvent);
    LiftView(env, s, R.TerminalEvent);
    PublishView(env, d.s, ev, FromTurn);
    assert ViewOf(d.s).drain + [] == ViewOf(d.s).drain;
    hide Lift, From;
  }

  /** The events are relayed, and no drain was begun. */
  ghost predicate Fair(s: State, t: State) {
    Relays(ViewOf(t)) && t.book.drained == s.book.drained
  }

  lemma FairSelf(s: State, t: State)
    requires Relays(ViewOf(s)) && ViewOf(t) == ViewOf(s)
    ensures Fair(s, t)
  {
  }

  /** An event of the running turn. */
  lemma RunningEvent(env: Env, s: State, t: State, ev: Ev)
    requires Relays(ViewOf(s)) && ViewOf(t) == ViewOf(s).(book := Booked(s.book, Some(ev), true))
    ensures
      var d := if ev.Terminal() then ProcessTerminal(env, t, ev, true) else Publish(env, t, ev, FromTurn);
      (!d.err ==> Fair(s, d.s)) && d.s.exit == t.exit
  {
    var v, u := ViewOf(s), ViewOf(t);
    PublishedNow(v, ev);
    if ev.Terminal() {
      HeldNow(v, ev);
      ProcessTerminalView(env, t, ev, true);
      hide ProcessTerminal, Relays, From;
    } else {
      PublishView(env, t, ev, FromTurn);
      assert v.drain + [] == v.drain;
      hide Relays, From, Settled;
    }
  }

  /** An event of the drain. */
  lemma DrainingEvent(env: Env, s: State, t: State, ev: Ev)
    requires Relays(ViewOf(s)) && ViewOf(t) == ViewOf(s).(book := Booked(s.book, Some(ev), false))
    ensures
      var d :=
        if ev.Terminal() then ProcessTerminal(env, t, ev, false)
        else if ev.Bound? then Publish(env, t, ev, FromDrain) else Did(t, false);
      (!d.err ==> Fair(s, d.s)) && d.s.exit == t.exit
  {
    var v, u := ViewOf(s), ViewOf(t);
    DrainedNow(v, ev);
    hide Relays;
    if ev.Terminal() {
      ProcessTerminalView(env, t, ev, false);
      assert v.drain + [] == v.drain;
      hide ProcessTerminal, From;
    } else if ev.Bound? {
      PublishView(env, t, ev, FromDrain);
      assert v.turn + [] == v.turn;
      hide From, Settled;
    } else {
      assert v.drain + [] == v.drain;
      hide From;
    }
  }

  lemma ProcessRelays(env: Env, s: State, o: Observation, publish: bool)
    requires Relays(ViewOf(s))
    ensures
      var d := Process(env, s, o, publish);
      (!d.err ==> Fair(s, d.s)) && d.s.exit == s.exit
  {
    var s0 := s.(book := Booked(s.book, o.event, publish));
    assert ViewOf(s0) == ViewOf(s).(book := s0.book);
    var d := Observe(env, s0, o.raw);
    ObserveView(env, s0, o.raw);
    hide Observe, ProcessTerminal, Publish, Relays, Booked, ViewOf;
    if !d.err {
      if o.event.None? {
        NothingBooked(s.book, publish);
        SameBook(s);
        FairSelf(s, d.s);
      } else if publish {
        RunningEvent(env, s, d.s, o.event.value);
      } else {
        DrainingEvent(env, s, d.s, o.event.value);
      }
    }
  }

  lemma SameBook(s: State)
    ensures ViewOf(s).(book := s.book) == ViewOf(s)
  {
  }

  lemma NothingBooked(b: Book, publish: bool)
    ensures Booked(b, None, publish) == b
  {
  }

  lemma {:induction false} ProcessAllRelays(env: Env, s: State, os: seq<Observation>)
    requires Relays(ViewOf(s))
    ensures
      var d := ProcessAll(env, s, os);
      (!d.err ==> Fair(s, d.s)) && d.s.exit == s.exit
    decreases |os|
  {
    FairSelf(s, s);
    hide Relays, ViewOf, Process;
    if os != [] {
      ProcessRelays(env, s, os[0], true);
      var d := Process(env, s, os[0], true);
      if !d.err {
        ProcessAllRelays(env, d.s, os[1..]);
      }
    }
  }

  lemma TakeRelays(env: Env, s: State, e: Evidence, publish: bool, capture: bool)
    requires Relays(ViewOf(s))
    ensures
      var d := Take(env, s, e, publish, capture);
      (!d.err ==> Fair(s, d.s)) && d.s.exit == s.exit
  {
    hide Relays, Process, Lift;
    match e {
      case Seen(o) => ProcessRelays(env, s, o, publish);
      case Completes(serial, result, err) => LiftView(env, s, R.Completion(serial, result, err));
      case _ => FairSelf(s, Take(env, s, e, publish, capture).s);
    }
  }

  lemma {:induction false} TakeAllRelays(env: Env, s: State, es: seq<Evidence>, publish: bool, capture: bool)
    requires Relays(ViewOf(s))
    ensures
      var d := TakeAll(env, s, es, publish, capture);
      (!d.err ==> Fair(s, d.s)) && d.s.exit == s.exit
    decreases |es|
  {
    hide Relays, ViewOf, Take;
    if es != [] {
      TakeRelays(env, s, es[0], publish, capture);
      var d := Take(env, s, es[0], publish, capture);
      if !d.err {
        TakeAllRelays(env, d.s, es[1..], publish, capture);
      }
    }
  }

  // ---------------------------------------------------------------- the drain

  lemma FairLift(env: Env, s: State, t: State, e: R.Event)
    requires Fair(s, t)
    ensures Fair(s, Lift(env, t, e).s) && Lift(env, t, e).s.exit == t.exit
  {
    LiftView(env, t, e);
    SameDrain(t, Lift(env, t, e).s);
    hide Relays, ViewOf, Lift;
  }

  lemma AwaitRelays(env: Env, s: State, next: Wait, capture: bool)
    requires Relays(ViewOf(s))
    ensures
      var d := Await(env, s, next, capture);
      (!d.err ==> Fair(s, d.s)) && d.s.exit == s.exit
  {
    hide Fair, Relays, ViewOf, Take, TakeAll, Lift;
    FairSelf(s, s);
    match next {
      case Fact(e) => TakeRelays(env, s, e, false, capture);
      case TerminalFires(ready) => ClockRelays(env, s, ready, R.TerminalClock, capture);
      case DeadlineFires(ready) => ClockRelays(env, s, ready, R.DeadlineClock, capture);
      case OutcomeWaitFires =>
    }
  }

  lemma ClockRelays(env: Env, s: State, ready: seq<Evidence>, e: R.Event, capture: bool)
    requires Relays(ViewOf(s))
    ensures
      var d := TakeAll(env, s, ready, false, capture);
      && (!d.err ==> Fair(s, d.s) && Fair(s, Lift(env, d.s, e).s) && Lift(env, d.s, e).s.exit == s.exit)
      && d.s.exit == s.exit
  {
    TakeAllRelays(env, s, ready, false, capture);
    var d := TakeAll(env, s, ready, false, capture);
    hide Fair, Relays, ViewOf, TakeAll, Lift;
    if !d.err {
      FairLift(env, s, d.s, e);
    }
  }

  lemma {:induction false} RoundsRelays(env: Env, s: State, rounds: seq<Round>, wait: bool, capture: bool)
    requires Relays(ViewOf(s))
    ensures
      var d := Rounds(env, s, rounds, wait, capture);
      (!d.err ==> Fair(s, d.s)) && d.s.exit == s.exit
    decreases |rounds|
  {
    hide Relays, ViewOf, TakeAll, Await, DrainDone;
    if rounds != [] {
      TakeAllRelays(env, s, rounds[0].ready, false, capture);
      var d := TakeAll(env, s, rounds[0].ready, false, capture);
      if !d.err {
        AwaitRelays(env, d.s, rounds[0].next, capture);
        var a := Await(env, d.s, rounds[0].next, capture);
        if !a.err {
          RoundsRelays(env, a.s, rounds[1..], wait, capture);
        }
      }
    }
  }

  /** A drain that is not cut short by a failure published the bindings, and nothing else. */
  lemma DrainRelays(env: Env, s: State, rounds: seq<Round>, capture: bool)
    requires Relays(ViewOf(s))
    ensures
      var d := Drain(env, s, rounds, capture);
      (!d.err ==> Relays(ViewOf(d.s)) && d.s.book.drained) && d.s.exit == s.exit
  {
    var s0 := s.(book := s.book.(drained := true));
    assert Relays(ViewOf(s0));
    var d := Lift(env, s0, R.TerminalEvent);
    LiftView(env, s0, R.TerminalEvent);
    SameDrain(s0, d.s);
    if !d.err {
      RoundsRelays(env, d.s, rounds, d.s.m.active.None? && !d.s.m.disabled, capture);
    }
    hide Relays, ViewOf, Lift, Rounds;
  }

  lemma SameDrain(s: State, t: State)
    requires ViewOf(t) == ViewOf(s)
    ensures t.book == s.book && t.hold == s.hold
  {
  }

  // ---------------------------------------------------------------- the turn

  /** As long as nothing failed: relayed, and at the end nothing is held unless the turn was drained. */
  ghost predicate Good(s: State) {
    s.exit != Some(true) ==> Relays(ViewOf(s)) && (s.exit == Some(false) ==> s.hold.None? || s.book.drained)
  }

  lemma GoodSame(s: State, t: State)
    requires Relays(ViewOf(s)) && ViewOf(t) == ViewOf(s) && (t.exit == Some(false) ==> s.hold.None? || s.book.drained)
    ensures Good(t)
  {
    SameDrain(s, t);
  }

  lemma LeaveGood(env: Env, s: State, exit: bool)
    requires exit || (Relays(ViewOf(s)) && (s.hold.None? || s.book.drained))
    ensures Good(Leave(env, s, exit))
  {
    LeaveView(env, s, exit);
    if !exit {
      GoodSame(s, Leave(env, s, exit));
    }
    hide Leave, Relays, ViewOf;
  }

  lemma OrLeaveGood(env: Env, s: State, d: Did)
    requires (!d.err ==> Relays(ViewOf(d.s))) && d.s.exit == s.exit && s.exit.None?
    ensures Good(OrLeave(env, d))
  {
    LeaveGood(env, d.s, true);
    hide Leave, Relays, ViewOf;
  }

  lemma ConcludeGood(env: Env, s: State, o: TurnOutcome)
    requires Relays(ViewOf(s)) && s.hold.None?
    ensures Good(Conclude(env, s, o))
  {
    var d := if o.interrupted then Publish(env, s, Interrupted, Own) else Did(s, false);
    OwnView(env, s, Interrupted);
    CancelPendingView(env, d.s);
    var c := if !o.success && !o.interrupted then CancelPending(env, d.s) else d;
    LiftView(env, c.s, R.ShuttingDown);
    var r := Lift(env, c.s, R.ShuttingDown);
    LeaveGood(env, d.s, true);
    SameDrain(s, d.s);
    SameDrain(d.s, c.s);
    SameDrain(c.s, r.s);
    LeaveGood(env, r.s, c.err || r.err);
    hide Relays, ViewOf, Publish, CancelPending, Lift, Leave;
  }

  lemma HeadGood(env: Env, s: State)
    requires Relays(ViewOf(s)) && s.exit.None?
    ensures Good(Head(env, s)) && (Head(env, s).exit.None? ==> Relays(ViewOf(Head(env, s))))
  {
    if S.TerminalReady(s.m) {
      var d := if s.hold.Some? then Publish(env, s, s.hold.value, FromTurn) else Did(s, false);
      var t := d.s.(hold := None);
      ReleaseRelays(env, s);
      hide Good, Relays, ViewOf, Publish, Leave, Conclude;
      if d.err {
        LeaveGood(env, d.s, true);
      } else if t.outcome.Some? {
        ConcludeGood(env, t, t.outcome.value);
      } else {
        GoodSame(t, t);
      }
    } else {
      GoodSame(s, s);
      hide Good, Relays, ViewOf, Publish, Leave, Conclude;
    }
  }

  lemma ReleaseRelays(env: Env, s: State)
    requires Relays(ViewOf(s)) && s.exit.None?
    ensures
      var d := if s.hold.Some? then Publish(env, s, s.hold.value, FromTurn) else Did(s, false);
      var t := d.s.(hold := None);
      Relays(ViewOf(t)) && t.exit.None?
  {
    if s.hold.Some? {
      PublishView(env, s, s.hold.value, FromTurn);
      ReleasedNow(ViewOf(s));
      assert ViewOf(s).drain + [] == ViewOf(s).drain;
    } else {
      assert s.(hold := None) == s;
    }
    hide Relays, From, Settled;
  }

  lemma CancelTurnGood(env: Env, s: State, rounds: seq<Round>, queueToo: bool)
    requires Relays(ViewOf(s)) && s.exit.None?
    ensures Good(CancelTurn(env, s, rounds, queueToo))
  {
    var d := Drain(env, s, rounds, true);
    DrainRelays(env, s, rounds, true);
    CutRelays(env, s, rounds, true);
    var p := Publish(env, d.s, Interrupted, Own);
    OwnView(env, d.s, Interrupted);
    var c := if queueToo then CancelPending(env, p.s) else p;
    CancelPendingView(env, p.s);
    SameDrain(d.s, p.s);
    SameDrain(p.s, c.s);
    LeaveGood(env, d.s, true);
    LeaveGood(env, p.s, true);
    if d.returned && !d.err {
      LeaveGood(env, c.s, c.err);
    } else if !d.returned {
      GoodSame(d.s, d.s.(cut := true));
    }
    hide Relays, ViewOf, Drain, Publish, CancelPending, Leave;
  }

  lemma CutRelays(env: Env, s: State, rounds: seq<Round>, capture: bool)
    ensures
      var d := Drain(env, s, rounds, capture);
      (!d.returned ==> !d.err) && ViewOf(d.s.(cut := true)) == ViewOf(d.s)
  {
    var d := Lift(env, s.(book := s.book.(drained := true)), R.TerminalEvent);
    if !d.err {
      RoundsReturn(env, d.s, rounds, d.s.m.active.None? && !d.s.m.disabled, capture);
    }
    hide Lift, Rounds;
  }

  lemma {:induction false} RoundsReturn(env: Env, s: State, rounds: seq<Round>, wait: bool, capture: bool)
    ensures
      var d := Rounds(env, s, rounds, wait, capture);
      !d.returned ==> !d.err
    decreases |rounds|
  {
    hide TakeAll, Await, DrainDone;
    if rounds != [] {
      var d := TakeAll(env, s, rounds[0].ready, false, capture);
      RoundsReturn(env, Await(env, d.s, rounds[0].next, capture).s, rounds[1..], wait, capture);
    }
  }

  lemma StopTurnGood(env: Env, s: State, rounds: seq<Round>, queueToo: bool)
    requires Relays(ViewOf(s)) && s.exit.None?
    ensures Good(StopTurn(env, s, rounds, queueToo))
  {
    var d := Drain(env, s, rounds, false);
    DrainRelays(env, s, rounds, false);
    CutRelays(env, s, rounds, false);
    LeaveGood(env, d.s, true);
    var r := Lift(env, d.s, R.ShuttingDown);
    LeaveGood(env, r.s, true);
    LeaveGood(env, CancelPending(env, r.s).s, true);
    if !d.returned {
      GoodSame(d.s, d.s.(cut := true));
    }
    hide Relays, ViewOf, Drain, Lift, CancelPending, Leave;
  }

  lemma HandleGood(env: Env, s: State, c: Command)
    requires Relays(ViewOf(s)) && s.exit.None?
    ensures Good(Handle(env, s, c))
  {
    GoodSame(s, s);
    match c {
      case UserInput(input, prepared) => AcceptInputGood(env, s, input, prepared);
      case CancelDelegate(target, rounds) =>
        var i := Find(s.m.loopPending, target);
        if i < |s.m.loopPending| {
          CancelQueuedGood(env, s, i);
        }
        CancelTurnGood(env, s, rounds, false);
      case Interrupt(rounds) => CancelTurnGood(env, s, rounds, true);
      case ShutDown(rounds) => StopTurnGood(env, s, rounds, true);
      case OtherCommand =>
    }
    hide Good, Relays, ViewOf, AcceptInput, CancelQueued, CancelTurn, StopTurn;
  }

  lemma AcceptInputGood(env: Env, s: State, input: S.Input, prepared: bool)
    requires Relays(ViewOf(s)) && s.exit.None?
    ensures Good(AcceptInput(env, s, input, prepared))
  {
    GoodSame(s, s);
    OwnView(env, s, Rejected(input.id));
    OrLeaveGood(env, s, Publish(env, s, Rejected(input.id), Own));
    var d := Lift(env, s, R.InputOffered(input));
    LiftView(env, s, R.InputOffered(input));
    OrLeaveGood(env, s, d);
    LiftView(env, d.s, R.QueueAppend(input));
    SameDrain(s, d.s);
    GoodSame(s, Lift(env, d.s, R.QueueAppend(input)).s);
    hide Good, Relays, ViewOf, Publish, Lift, OrLeave;
  }

  lemma CancelQueuedGood(env: Env, s: State, i: nat)
    requires Relays(ViewOf(s)) && s.exit.None? && i < |s.m.loopPending|
    ensures Good(CancelQueued(env, s, i))
  {
    var d := Publish(env, s, Cancelled(s.m.loopPending[i].id), Own);
    OwnView(env, s, Cancelled(s.m.loopPending[i].id));
    LeaveGood(env, d.s, true);
    LiftView(env, d.s, R.QueueRemove(i));
    GoodSame(s, Lift(env, d.s, R.QueueRemove(i)).s);
    hide Good, Relays, ViewOf, Publish, Lift, Leave;
  }

  lemma FireRelays(env: Env, s: State, ready: seq<Evidence>, deadline: bool)
    requires Relays(ViewOf(s))
    ensures
      var d := Fire(env, s, ready, deadline);
      (!d.err ==> Relays(ViewOf(d.s))) && d.s.exit == s.exit
  {
    TakeAllRelays(env, s, ready, true, true);
    var d := TakeAll(env, s, ready, true, true);
    LiftView(env, d.s, R.DeadlineClock);
    LiftView(env, d.s, R.TerminalClock);
    hide Relays, ViewOf, TakeAll, Lift;
  }

  lemma SelectGood(env: Env, s: State, p: Pick)
    requires Relays(ViewOf(s)) && s.exit.None?
    ensures Good(Select(env, s, p))
  {
    GoodSame(s, s);
    match p {
      case Result(outcome, rest) => ResultGood(env, s, outcome, rest);
      case StreamReady(ordered) =>
        LiftView(env, s, R.StreamReady(ordered));
        OrLeaveGood(env, s, Lift(env, s, R.StreamReady(ordered)));
      case Arrives(e) =>
        TakeRelays(env, s, e, true, true);
        OrLeaveGood(env, s, Take(env, s, e, true, true));
      case TerminalClock(ready) =>
        FireRelays(env, s, ready, false);
        OrLeaveGood(env, s, Fire(env, s, ready, false));
      case DeadlineClock(ready) =>
        FireRelays(env, s, ready, true);
        OrLeaveGood(env, s, Fire(env, s, ready, true));
      case Ordered(c) => HandleGood(env, s, c);
      case LoopDone(rounds) => StopTurnGood(env, s, rounds, false);
    }
    hide Good, Relays, ViewOf, Lift, Take, Fire, Handle, StopTurn, OrLeave;
  }

  lemma ResultGood(env: Env, s: State, outcome: TurnOutcome, rest: seq<Observation>)
    requires Relays(ViewOf(s)) && s.exit.None?
    ensures Good(Select(env, s, Result(outcome, rest)))
  {
    GoodSame(s, s);
    var t := s.(outcome := Some(outcome), resultOpen := false);
    var u := t.(mailboxOpen := false);
    assert ViewOf(t) == ViewOf(s) && ViewOf(u) == ViewOf(s);
    GoodSame(s, t);
    ProcessAllRelays(env, u, rest);
    OrLeaveGood(env, u, ProcessAll(env, u, rest));
    hide Good, Relays, ViewOf, ProcessAll, OrLeave;
  }

  lemma TripGood(env: Env, s: State, p: Pick)
    requires Good(s)
    ensures Good(Trip(env, s, p))
  {
    if s.exit.None? && !s.cut {
      HeadGood(env, s);
      var t := Head(env, s);
      if t.exit.None? {
        SelectGood(env, t, p);
      }
    }
    hide Good, Relays, ViewOf, Head, Select;
  }

  lemma {:induction false} RunGood(env: Env, s: State, picks: seq<Pick>)
    requires Good(s)
    ensures Good(RunOf(env, s, picks))
    decreases |picks|
  {
    hide Good, Trip;
    if picks != [] {
      TripGood(env, s, picks[0]);
      RunGood(env, Trip(env, s, picks[0]), picks[1..]);
    }
  }

  /**
    In every run, as long as nothing failed: the events taken from the mailbox while the turn ran are
    published, those that are no terminal in order, and all of them in order if no terminal had to
    be held; a terminal that was is published, or still held, or was replaced. When the turn returns
    to the pump nothing is held any more, unless it was canceled. A drain published exactly the
    session bindings it took.
   */
  lemma EventsAreRelayed(env: Env, hasHook: bool, hasSteerer: bool, queued: seq<S.Input>, picks: seq<Pick>)
    ensures
      var s := Turn(env, hasHook, hasSteerer, queued, picks);
      s.exit != Some(true) ==>
        Relays(ViewOf(s)) && (s.exit == Some(false) && !s.book.drained ==> s.hold.None?)
  {
    assert Good(Begin(hasHook, hasSteerer, queued));
    RunGood(env, Begin(hasHook, hasSteerer, queued), picks);
  }

  // ---------------------------------------------------------------- what is taken

  /** The events that come with some evidence. */
  function EventsIn(es: seq<Evidence>): seq<Ev> {
    if es == [] then []
    else
      (match es[0]
       case Seen(Observation(_, Some(ev))) => [ev]
       case _ => [])
      + EventsIn(es[1..])
  }

  function EventsOf(os: seq<Observation>): seq<Ev> {
    if os == [] then [] else (if os[0].event.Some? then [os[0].event.value] else []) + EventsOf(os[1..])
  }

  /** What the iteration finds in the mailbox: nothing if the case it would take is not ready. */
  function Found(s: State, p: Pick): seq<Ev> {
    match p
    case Result(_, rest) => if s.resultOpen && s.mailboxOpen then EventsOf(rest) else []
    case Arrives(e) => EventsIn([e])
    case TerminalClock(ready) => if s.m.timer.Some? then EventsIn(ready) else []
    case DeadlineClock(ready) => if s.m.deadlineTimer.Some? then EventsIn(ready) else []
    case _ => []
  }

  lemma ProcessTakes(env: Env, s: State, o: Observation)
    ensures
      var d := Process(env, s, o, true);
      d.s.book.seen == s.book.seen + if o.event.Some? then [o.event.value] else []
  {
    var s0 := s.(book := Booked(s.book, o.event, true));
    var t := Observe(env, s0, o.raw).s;
    ObserveView(env, s0, o.raw);
    SameDrain(s0, t);
    if o.event.None? {
      assert s.book.seen + [] == s.book.seen;
    } else {
      var ev := o.event.value;
      ProcessTerminalBook(env, t, ev);
      assert Publish(env, t, ev, FromTurn).s.book == t.book by {
        hide Settled;
      }
    }
    hide Observe, ViewOf, ProcessTerminal, Publish;
  }

  lemma ProcessTerminalBook(env: Env, s: State, ev: Ev)
    ensures ProcessTerminal(env, s, ev, true).s.book.seen == s.book.seen
  {
    var d := Lift(env, s, R.TerminalEvent);
    LiftView(env, s, R.TerminalEvent);
    SameDrain(s, d.s);
    hide ViewOf, Lift, Settled;
    if !d.err && S.MustHold(d.s.m) {
      assert Hold(d.s, ev).book.seen == d.s.book.seen;
      hide Hold;
    }
  }

  lemma TerminalHeldForAnAttempt(env: Env, s: State, ev: Ev)
    ensures
      var d := ProcessTerminal(env, s, ev, true);
      !d.err && d.s.hold != s.hold ==> d.s.m.active.Some? && !d.s.m.active.value.resolved
  {
    var d := Lift(env, s, R.TerminalEvent);
    LiftView(env, s, R.TerminalEvent);
    SameDrain(s, d.s);
    hide ViewOf, Lift, Settled;
    if !d.err && S.MustHold(d.s.m) {
      assert Hold(d.s, ev).m == d.s.m;
    }
    hide Hold;
  }

  /** A terminal is held only for an attempt that is not decided yet. */
  lemma HeldForAnAttempt(env: Env, s: State, o: Observation)
    ensures
      var d := Process(env, s, o, true);
      !d.err && d.s.hold != s.hold ==> d.s.m.active.Some? && !d.s.m.active.value.resolved
  {
    var s0 := s.(book := Booked(s.book, o.event, true));
    var t := Observe(env, s0, o.raw).s;
    ObserveView(env, s0, o.raw);
    SameDrain(s0, t);
    if o.event.Some? {
      TerminalHeldForAnAttempt(env, t, o.event.value);
      assert Publish(env, t, o.event.value, FromTurn).s.hold == t.hold by {
        hide Settled;
      }
    }
    hide Observe, ViewOf, ProcessTerminal, Publish, Booked;
  }

  lemma {:induction false} ProcessAllTakes(env: Env, s: State, os: seq<Observation>)
    ensures
      var d := ProcessAll(env, s, os);
      !d.err ==> d.s.book.seen == s.book.seen + EventsOf(os)
    decreases |os|
  {
    hide Process;
    if os != [] {
      ProcessTakes(env, s, os[0]);
      ProcessAllTakes(env, Process(env, s, os[0], true).s, os[1..]);
    }
  }

  lemma TakeTakes(env: Env, s: State, e: Evidence)
    ensures
      var d := Take(env, s, e, true, true);
      !d.err ==> d.s.book.seen == s.book.seen + EventsIn([e])
  {
    assert [e][1..] == [];
    match e {
      case Seen(o) => ProcessTakes(env, s, o);
      case _ =>
    }
    hide Process, R.StepRet;
  }

  lemma {:induction false} TakeAllTakes(env: Env, s: State, es: seq<Evidence>)
    ensures
      var d := TakeAll(env, s, es, true, true);
      !d.err ==> d.s.book.seen == s.book.seen + EventsIn(es)
    decreases |es|
  {
    hide Take;
    if es != [] {
      TakeTakes(env, s, es[0]);
      assert [es[0]][1..] == [];
      TakeAllTakes(env, Take(env, s, es[0], true, true).s, es[1..]);
    }
  }

  lemma FireTakes(env: Env, s: State, ready: seq<Evidence>, deadline: bool)
    ensures
      var d := Fire(env, s, ready, deadline);
      !d.err ==> d.s.book.seen == s.book.seen + EventsIn(ready)
  {
    TakeAllTakes(env, s, ready);
    hide TakeAll, R.StepRet, EventsIn;
  }

  /** Everything found in the mailbox while the turn runs is taken, and accounted for as above. */
  lemma SelectTakes(env: Env, s: State, p: Pick)
    requires !p.LoopDone? && !(p.Ordered? && (p.command.CancelDelegate? || p.command.Interrupt? || p.command.ShutDown?))
    ensures
      var t := Select(env, s, p);
      s.exit.None? && t.exit.None? ==> t.book.seen == s.book.seen + Found(s, p)
  {
    match p {
      case Result(outcome, rest) =>
        var u := s.(outcome := Some(outcome), resultOpen := false, mailboxOpen := false);
        ProcessAllTakes(env, u, rest);
      case Arrives(e) =>
        TakeTakes(env, s, e);
        assert [e][1..] == [];
      case TerminalClock(ready) => FireTakes(env, s, ready, false);
      case DeadlineClock(ready) => FireTakes(env, s, ready, true);
      case StreamReady(_) =>
      case Ordered(c) =>
    }
    hide ProcessAll, Take, Fire, R.StepRet, S.Cleanup;
  }
}
