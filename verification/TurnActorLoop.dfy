/**
  The actor as the object its goroutine runs while a turn lives (backend/turn.go), around the
  steering machine of `SteeringMachine`. Every method is verified to do exactly what the function
  of the same name in `TurnActorModel` says.
 */
module TurnActorLoop {
  import opened Options
  import opened DriverContract
  import opened Calls
  import opened T = TurnActorModel
  import S = SteeringModel
  import R = SteeringRuns
  import opened SteeringMachine

  class TurnActor {
    const machine: Machine
    const pubs: nat -> bool
    const capacity: nat
    const command: nat
    var events: seq<R.Event>
    var hold: Option<Ev>
    var outcome: Option<TurnOutcome>
    var resultOpen: bool
    var mailboxOpen: bool
    var published: seq<Publication>
    var exit: Option<bool>
    var cut: bool
    var book: Book

    constructor (machine: Machine, pubs: nat -> bool, capacity: nat, command: nat)
      ensures this.machine == machine
      ensures Abs() == State(machine.Abs(), [], None, None, true, true, [], None, false, EMPTY_BOOK)
      ensures this.pubs == pubs && this.capacity == capacity && this.command == command
    {
      this.machine, this.pubs, this.capacity, this.command := machine, pubs, capacity, command;
      events, hold, outcome, resultOpen, mailboxOpen := [], None, None, true, true;
      published, exit, cut, book := [], None, false, EMPTY_BOOK;
    }

    function Surroundings(): Env {
      Env(machine.loop.world, pubs, capacity, command)
    }

    function Abs(): State
      reads this, machine, machine.loop
    {
      State(machine.Abs(), events, hold, outcome, resultOpen, mailboxOpen, published, exit, cut, book)
    }

    /** What the abstraction shows of the fields. */
    lemma Shows()
      ensures Abs().m == machine.Abs() && Abs().hold == hold && Abs().outcome == outcome && Abs().exit == exit
      ensures Abs().cut == cut && Abs().book == book
      ensures Abs().resultOpen == resultOpen && Abs().mailboxOpen == mailboxOpen && Abs().published == published
      ensures Abs().m.loopPending == machine.loop.pending && Abs().m.active == machine.active
    {
    }

    method Publish(ev: Ev, origin: Source) returns (err: bool)
      modifies this`published
      ensures Did(Abs(), err) == T.Publish(Surroundings(), old(Abs()), ev, origin)
    {
      hide Settled;
      var ok := pubs(|published|);
      published := published + [Publication(ev, ok, Settled(machine.Abs()), origin)];
      err := !ok;
    }

    method PopQueue()
      requires machine.loop.pending != []
      modifies this`events, machine.loop`pending
      ensures Abs() == Lift(Surroundings(), old(Abs()), R.QueueRemove(0)).s
      ensures machine.loop.pending == old(machine.loop.pending)[1..]
    {
      machine.loop.pending := machine.loop.pending[1..];
      events := events + [R.QueueRemove(0)];
    }

    method CancelPending() returns (err: bool)
      modifies this`published, this`events, machine.loop`pending
      ensures Did(Abs(), err) == T.CancelPending(Surroundings(), old(Abs()))
    {
      hide Abs, T.Publish, Lift;
      err := false;
      Shows();
      while machine.loop.pending != []
        invariant !err && Abs().m.loopPending == machine.loop.pending
        invariant T.CancelPending(Surroundings(), Abs()) == T.CancelPending(Surroundings(), old(Abs()))
        decreases |machine.loop.pending|
      {
        ghost var before := Abs();
        err := Publish(Cancelled(machine.loop.pending[0].id), Own);
        PublishLeavesQueue(Surroundings(), before, Cancelled(before.m.loopPending[0].id));
        if err {
          return;
        }
        PopQueue();
        Shows();
      }
    }

    method Observe(raw: Raw) returns (err: bool)
      modifies this`events, machine, machine.loop
      ensures Did(Abs(), err) == T.Observe(Surroundings(), old(Abs()), raw)
    {
      hide S.ObserveSteer, S.ObservePrompt, Machine.Abs;
      match raw {
        case RawSteer(tag, result, error) =>
          err := machine.ObserveSteer(result, error);
          events := events + [R.SteerSeen(tag, result, error)];
        case RawPrompt =>
          err := machine.ObservePrompt();
          events := events + [R.PromptSeen];
        case _ => err := false;
      }
    }

    method SetHold(ev: Option<Ev>)
      modifies this`hold
      ensures Abs() == old(Abs()).(hold := ev)
    {
      hold := ev;
    }

    method Hold(ev: Ev)
      modifies this`hold, this`book
      ensures Abs() == T.Hold(old(Abs()), ev)
    {
      book := book.(replaced := book.replaced + (if hold.Some? then [hold.value] else []), held := true);
      hold := Some(ev);
    }

    method SetBook(b: Book)
      modifies this`book
      ensures Abs() == old(Abs()).(book := b)
    {
      book := b;
    }

    method BeforeTerminal() returns (err: bool, held: bool)
      modifies this`events, machine, machine.loop
      ensures Did(Abs(), err) == Lift(Surroundings(), old(Abs()), R.TerminalEvent)
      ensures held == (!err && S.MustHold(Abs().m))
    {
      hide S.BeforeTerminal, Machine.Abs;
      held, err := machine.BeforeTerminal();
      events := events + [R.TerminalEvent];
    }

    method ProcessTerminal(ev: Ev, publish: bool) returns (err: bool)
      modifies this`events, this`hold, this`published, this`book, machine, machine.loop
      ensures Did(Abs(), err) == T.ProcessTerminal(Surroundings(), old(Abs()), ev, publish)
    {
      hide Abs, Lift, T.Publish;
      var held;
      err, held := BeforeTerminal();
      if err {
        return;
      }
      if held {
        if publish {
          Hold(ev);
        }
      } else if publish {
        err := Publish(ev, FromTurn);
      }
    }

    /** One observation of the turn, or of its drain. */
    method Process(o: Observation, publish: bool) returns (err: bool)
      modifies this`events, this`hold, this`published, this`book, machine, machine.loop
      ensures Did(Abs(), err) == T.Process(Surroundings(), old(Abs()), o, publish)
    {
      hide Abs, T.Observe, T.ProcessTerminal, T.Publish;
      Shows();
      SetBook(Booked(book, o.event, publish));
      err := Observe(o.raw);
      if err || o.event.None? {
        return;
      }
      if o.event.value.Terminal() {
        err := ProcessTerminal(o.event.value, publish);
      } else if publish || o.event.value.Bound? {
        err := Publish(o.event.value, if publish then FromTurn else FromDrain);
      }
    }

    method ProcessAll(os: seq<Observation>) returns (err: bool)
      modifies this`events, this`hold, this`published, this`book, machine, machine.loop
      ensures Did(Abs(), err) == T.ProcessAll(Surroundings(), old(Abs()), os)
    {
      hide Abs, T.Process;
      err := false;
      var i := 0;
      assert os[0..] == os;
      while i < |os|
        invariant 0 <= i <= |os| && !err
        invariant T.ProcessAll(Surroundings(), Abs(), os[i..]) == T.ProcessAll(Surroundings(), old(Abs()), os)
      {
        assert os[i..][1..] == os[i + 1..];
        err := Process(os[i], true);
        if err {
          return;
        }
        i := i + 1;
      }
    }

    method ChannelsAre(arrived: Option<TurnOutcome>, result: bool, mailbox: bool)
      modifies this`outcome, this`resultOpen, this`mailboxOpen
      ensures Abs() == old(Abs()).(outcome := arrived, resultOpen := result, mailboxOpen := mailbox)
    {
      outcome, resultOpen, mailboxOpen := arrived, result, mailbox;
    }

    method Complete(serial: nat, result: SteerResult, error: CallError) returns (err: bool)
      modifies this`events, machine, machine.loop
      ensures Did(Abs(), err) == Lift(Surroundings(), old(Abs()), R.Completion(serial, result, error))
    {
      hide S.Complete, Machine.Abs;
      err := machine.Complete(serial, result, error);
      events := events + [R.Completion(serial, result, error)];
    }

    method Take(e: Evidence, publish: bool, capture: bool) returns (err: bool)
      modifies this, machine, machine.loop
      ensures Did(Abs(), err) == T.Take(Surroundings(), old(Abs()), e, publish, capture)
    {
      hide Abs, T.Process, Lift;
      Shows();
      err := false;
      match e {
        case ResultArrives(value) =>
          if capture {
            if publish && resultOpen && outcome.None? {
              ChannelsAre(Some(value), false, mailboxOpen);
            } else {
              ChannelsAre(outcome, false, mailboxOpen);
            }
          }
        case MailboxCloses => ChannelsAre(outcome, resultOpen, false);
        case Seen(o) => err := Process(o, publish);
        case Completes(serial, result, error) => err := Complete(serial, result, error);
      }
    }

    method TakeAll(es: seq<Evidence>, publish: bool, capture: bool) returns (err: bool)
      modifies this, machine, machine.loop
      ensures Did(Abs(), err) == T.TakeAll(Surroundings(), old(Abs()), es, publish, capture)
    {
      hide Abs, T.Take;
      err := false;
      var i := 0;
      assert es[0..] == es;
      while i < |es|
        invariant 0 <= i <= |es| && !err
        invariant
          T.TakeAll(Surroundings(), Abs(), es[i..], publish, capture) ==
            T.TakeAll(Surroundings(), old(Abs()), es, publish, capture)
      {
        assert es[i..][1..] == es[i + 1..];
        err := Take(es[i], publish, capture);
        if err {
          return;
        }
        i := i + 1;
      }
    }

    // -------------------------------------------------------------- leaving the turn

    method ShutdownMachine() returns (err: bool)
      modifies this`events, machine, machine.loop
      ensures Did(Abs(), err) == Lift(Surroundings(), old(Abs()), R.ShuttingDown)
    {
      hide S.Shutdown, Machine.Abs;
      err := machine.Shutdown();
      events := events + [R.ShuttingDown];
    }

    method CleanupMachine(how: bool)
      modifies this`exit, machine, machine.loop
      ensures Abs() == old(Abs()).(m := S.Cleanup(old(Abs()).m), exit := Some(how))
    {
      hide S.Cleanup, Machine.Abs;
      machine.Cleanup();
      exit := Some(how);
    }

    /** The deferred shutdown and cleanup, whichever way the turn returns. */
    method Leave(how: bool)
      modifies this`events, this`exit, machine, machine.loop
      ensures Abs() == T.Leave(Surroundings(), old(Abs()), how)
    {
      hide Abs, Lift, S.Cleanup;
      var ignored := ShutdownMachine();
      CleanupMachine(how);
    }

    method LeaveOnError(err: bool)
      modifies this`events, this`exit, machine, machine.loop
      ensures Abs() == OrLeave(Surroundings(), Did(old(Abs()), err))
    {
      hide Abs, T.Leave;
      if err {
        Leave(true);
      }
    }

    method Conclude(o: TurnOutcome)
      modifies this, machine, machine.loop
      ensures Abs() == T.Conclude(Surroundings(), old(Abs()), o)
    {
      hide Abs, T.Publish, T.CancelPending, T.Leave, Lift;
      var err := false;
      if o.interrupted {
        err := Publish(Interrupted, Own);
        if err {
          Leave(true);
          return;
        }
      }
      if !o.success && !o.interrupted {
        err := CancelPending();
      }
      var failed := ShutdownMachine();
      Leave(err || failed);
    }

    /** The top of the loop. */
    method Head()
      modifies this, machine, machine.loop
      ensures Abs() == T.Head(Surroundings(), old(Abs()))
    {
      hide Abs, T.Publish, T.Conclude, T.Leave, S.TerminalReady;
      Shows();
      ghost var before := Abs();
      if !S.TerminalReady(machine.Abs()) {
        return;
      }
      if hold.Some? {
        var err := Publish(hold.value, FromTurn);
        if err {
          Leave(true);
          return;
        }
      }
      SetHold(None);
      Shows();
      if outcome.Some? {
        Conclude(outcome.value);
      }
    }

    // -------------------------------------------------------------- the cancellation drain

    method Timeout() returns (err: bool)
      modifies this`events, machine, machine.loop
      ensures Did(Abs(), err) == Lift(Surroundings(), old(Abs()), R.TerminalClock)
    {
      hide S.Timeout, Machine.Abs;
      err := machine.Timeout();
      events := events + [R.TerminalClock];
    }

    method DeadlineTimeout() returns (err: bool)
      modifies this`events, machine, machine.loop
      ensures Did(Abs(), err) == Lift(Surroundings(), old(Abs()), R.DeadlineClock)
    {
      hide S.DeadlineTimeout, Machine.Abs;
      err := machine.DeadlineTimeout();
      events := events + [R.DeadlineClock];
    }

    method Await(next: Wait, capture: bool) returns (err: bool)
      modifies this, machine, machine.loop
      ensures Did(Abs(), err) == T.Await(Surroundings(), old(Abs()), next, capture)
    {
      hide Abs, T.Take, T.TakeAll, Lift;
      Shows();
      ShowsClocks();
      err := false;
      match next {
        case Fact(e) => err := Take(e, false, capture);
        case TerminalFires(ready) =>
          if machine.timer.Some? {
            err := TakeAll(ready, false, capture);
            Shows();
            if !err && machine.active.Some? {
              err := Timeout();
            }
          }
        case DeadlineFires(ready) =>
          if machine.deadlineTimer.Some? {
            err := TakeAll(ready, false, capture);
            Shows();
            if !err && machine.active.Some? {
              err := DeadlineTimeout();
            }
          }
        case OutcomeWaitFires =>
      }
    }

    lemma ShowsClocks()
      ensures Abs().m.timer == machine.timer && Abs().m.deadlineTimer == machine.deadlineTimer
      ensures Abs().m.disabled == machine.disabled
    {
    }

    method Rounds(rounds: seq<Round>, wait: bool, capture: bool) returns (err: bool, returned: bool)
      modifies this, machine, machine.loop
      ensures Drained(Abs(), err, returned) == T.Rounds(Surroundings(), old(Abs()), rounds, wait, capture)
    {
      hide Abs, T.TakeAll, T.Await, DrainDone;
      err, returned := false, false;
      var i := 0;
      assert rounds[0..] == rounds;
      while i < |rounds|
        invariant 0 <= i <= |rounds| && !err && !returned
        invariant
          T.Rounds(Surroundings(), Abs(), rounds[i..], wait, capture) ==
            T.Rounds(Surroundings(), old(Abs()), rounds, wait, capture)
      {
        assert rounds[i..][1..] == rounds[i + 1..];
        err := TakeAll(rounds[i].ready, false, capture);
        if err {
          return err, true;
        }
        if DrainDone(Abs(), wait) || (wait && rounds[i].next.OutcomeWaitFires?) {
          return false, true;
        }
        err := Await(rounds[i].next, capture);
        if err {
          return err, true;
        }
        i := i + 1;
      }
    }

    method Drain(rounds: seq<Round>, capture: bool) returns (err: bool, returned: bool)
      modifies this, machine, machine.loop
      ensures Drained(Abs(), err, returned) == T.Drain(Surroundings(), old(Abs()), rounds, capture)
    {
      hide Abs, T.Rounds, Lift;
      var held;
      Shows();
      SetBook(book.(drained := true));
      err, held := BeforeTerminal();
      if err {
        return err, true;
      }
      Shows();
      ShowsClocks();
      err, returned := Rounds(rounds, machine.active.None? && !machine.disabled, capture);
    }

    method CutShort()
      modifies this`cut
      ensures Abs() == old(Abs()).(cut := true)
    {
      cut := true;
    }

    // -------------------------------------------------------------- commands

    method Append(input: S.Input)
      modifies this`events, machine.loop`pending
      ensures Abs() == Lift(Surroundings(), old(Abs()), R.QueueAppend(input)).s
    {
      machine.loop.pending := machine.loop.pending + [input];
      events := events + [R.QueueAppend(input)];
    }

    method Offer(input: S.Input) returns (handled: bool, err: bool)
      modifies this`events, machine, machine.loop
      ensures handled == S.IsCandidate(old(Abs()).m, input)
      ensures Did(Abs(), err) == Lift(Surroundings(), old(Abs()), R.InputOffered(input))
    {
      CandidatesAreHandled(Surroundings().world, machine.Abs(), input);
      hide S.Offer, S.IsCandidate, Machine.Abs;
      handled, err := machine.Offer(input);
      events := events + [R.InputOffered(input)];
    }

    method AcceptInput(input: S.Input, prepared: bool)
      modifies this, machine, machine.loop
      ensures Abs() == T.AcceptInput(Surroundings(), old(Abs()), input, prepared)
    {
      hide Abs, T.Publish, OrLeave, Lift, S.PendingCount, S.IsCandidate;
      Shows();
      if |machine.loop.pending| + S.PendingCount(machine.Abs()) >= capacity {
        var err := Publish(Rejected(input.id), Own);
        LeaveOnError(err);
        return;
      }
      if !prepared {
        return;
      }
      var handled, err := Offer(input);
      if handled {
        LeaveOnError(err);
      } else {
        Append(input);
      }
    }

    method RemoveQueued(i: nat)
      requires i < |machine.loop.pending|
      modifies this`events, machine.loop`pending
      ensures Abs() == Lift(Surroundings(), old(Abs()), R.QueueRemove(i)).s
    {
      machine.loop.pending := machine.loop.pending[..i] + machine.loop.pending[i + 1..];
      events := events + [R.QueueRemove(i)];
    }

    method CancelQueued(i: nat)
      requires i < |machine.loop.pending|
      modifies this, machine, machine.loop
      ensures i < |old(Abs()).m.loopPending| && Abs() == T.CancelQueued(Surroundings(), old(Abs()), i)
    {
      hide Abs, T.Publish, T.Leave, Lift;
      Shows();
      ghost var before := Abs();
      var err := Publish(Cancelled(machine.loop.pending[i].id), Own);
      PublishLeavesQueue(Surroundings(), before, Cancelled(before.m.loopPending[i].id));
      if err {
        Leave(true);
        return;
      }
      RemoveQueued(i);
    }

    method FindQueued(id: nat) returns (i: nat)
      ensures i == Find(machine.loop.pending, id)
    {
      i := 0;
      var q := machine.loop.pending;
      assert q[0..] == q;
      while i < |q| && q[i].id != id
        invariant 0 <= i <= |q|
        invariant Find(q, id) == i + Find(q[i..], id)
      {
        assert q[i..][1..] == q[i + 1..];
        i := i + 1;
      }
    }

    method CancelTurn(rounds: seq<Round>, queueToo: bool)
      modifies this, machine, machine.loop
      ensures Abs() == T.CancelTurn(Surroundings(), old(Abs()), rounds, queueToo)
    {
      hide Abs, T.Drain, T.Publish, T.CancelPending, T.Leave;
      var err, returned := Drain(rounds, true);
      if !returned {
        CutShort();
        return;
      }
      if err {
        Leave(true);
        return;
      }
      err := Publish(Interrupted, Own);
      if err {
        Leave(true);
        return;
      }
      if queueToo {
        err := CancelPending();
      }
      Leave(err);
    }

    method StopTurn(rounds: seq<Round>, queueToo: bool)
      modifies this, machine, machine.loop
      ensures Abs() == T.StopTurn(Surroundings(), old(Abs()), rounds, queueToo)
    {
      hide Abs, T.Drain, T.CancelPending, T.Leave, Lift;
      var err, returned := Drain(rounds, false);
      if !returned {
        CutShort();
        return;
      }
      if err {
        Leave(true);
        return;
      }
      err := ShutdownMachine();
      if !err && queueToo {
        err := CancelPending();
      }
      Leave(true);
    }

    method Handle(c: Command)
      modifies this, machine, machine.loop
      ensures Abs() == T.Handle(Surroundings(), old(Abs()), c)
    {
      hide Abs, T.AcceptInput, T.CancelQueued, T.CancelTurn, T.StopTurn, Find;
      Shows();
      match c {
        case UserInput(input, prepared) => AcceptInput(input, prepared);
        case CancelDelegate(target, rounds) =>
          var i := FindQueued(target);
          if i < |machine.loop.pending| {
            CancelQueued(i);
          } else if target == command {
            CancelTurn(rounds, false);
          }
        case Interrupt(rounds) => CancelTurn(rounds, true);
        case ShutDown(rounds) => StopTurn(rounds, true);
        case OtherCommand =>
      }
    }

    // -------------------------------------------------------------- the loop

    method SetStream(ordered: bool) returns (err: bool)
      modifies this`events, machine, machine.loop
      ensures Did(Abs(), err) == Lift(Surroundings(), old(Abs()), R.StreamReady(ordered))
    {
      hide S.SetStream, Machine.Abs;
      err := machine.SetStream(ordered);
      events := events + [R.StreamReady(ordered)];
    }

    method Fire(ready: seq<Evidence>, deadline: bool) returns (err: bool)
      modifies this, machine, machine.loop
      ensures Did(Abs(), err) == T.Fire(Surroundings(), old(Abs()), ready, deadline)
    {
      hide Abs, T.TakeAll, Lift;
      Shows();
      ShowsClocks();
      var serial, timer, deadlineTimer := ActiveSerial(machine.Abs()), machine.timer, machine.deadlineTimer;
      err := TakeAll(ready, true, true);
      if err {
        return;
      }
      Shows();
      ShowsClocks();
      if ActiveSerial(machine.Abs()) != serial {
        return;
      }
      if deadline {
        if machine.deadlineTimer == deadlineTimer {
          err := DeadlineTimeout();
        }
      } else if machine.timer == timer {
        err := Timeout();
      }
    }

    method TakeResult(value: TurnOutcome, rest: seq<Observation>)
      modifies this, machine, machine.loop
      ensures Abs() == T.Select(Surroundings(), old(Abs()), Result(value, rest))
    {
      hide Abs, T.ProcessAll, OrLeave;
      Shows();
      if !resultOpen {
        return;
      }
      if !mailboxOpen {
        ChannelsAre(Some(value), false, false);
        return;
      }
      ChannelsAre(Some(value), false, false);
      var err := ProcessAll(rest);
      LeaveOnError(err);
    }

    method Select(p: Pick)
      modifies this, machine, machine.loop
      ensures Abs() == T.Select(Surroundings(), old(Abs()), p)
    {
      if p.Result? {
        TakeResult(p.outcome, p.rest);
        return;
      }
      hide Abs, T.Take, T.Fire, T.Handle, T.StopTurn, OrLeave, Lift;
      Shows();
      ShowsClocks();
      match p {
        case StreamReady(ordered) =>
          var err := SetStream(ordered);
          LeaveOnError(err);
        case Arrives(e) =>
          if !e.ResultArrives? {
            var err := Take(e, true, true);
            LeaveOnError(err);
          }
        case TerminalClock(ready) =>
          if machine.timer.Some? {
            var err := Fire(ready, false);
            LeaveOnError(err);
          }
        case DeadlineClock(ready) =>
          if machine.deadlineTimer.Some? {
            var err := Fire(ready, true);
            LeaveOnError(err);
          }
        case Ordered(c) =>
          if outcome.None? {
            Handle(c);
          }
        case LoopDone(rounds) => StopTurn(rounds, false);
      }
    }

    method Trip(p: Pick)
      modifies this, machine, machine.loop
      ensures Abs() == T.Trip(Surroundings(), old(Abs()), p)
    {
      hide Abs, T.Head, T.Select;
      Shows();
      if exit.Some? || cut {
        return;
      }
      Head();
      Shows();
      if exit.None? {
        Select(p);
      }
    }

    /** awaitTurn. */
    method Run(picks: seq<Pick>)
      modifies this, machine, machine.loop
      ensures Abs() == T.RunOf(Surroundings(), old(Abs()), picks)
    {
      hide Abs, T.Trip;
      var i := 0;
      assert picks[0..] == picks;
      while i < |picks|
        invariant 0 <= i <= |picks|
        invariant T.RunOf(Surroundings(), Abs(), picks[i..]) == T.RunOf(Surroundings(), old(Abs()), picks)
      {
        assert picks[i..][1..] == picks[i + 1..];
        Trip(picks[i]);
        i := i + 1;
      }
    }
  }

  lemma PublishLeavesQueue(env: Env, s: State, ev: Ev)
    ensures T.Publish(env, s, ev, Own).s.m == s.m
  {
  }

  lemma CandidatesAreHandled(w: World, m: S.State, input: S.Input)
    ensures S.Offer(w, m, input).handled == S.IsCandidate(m, input)
  {
  }
}
