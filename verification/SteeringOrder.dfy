/**
  The order in which never-reserved requests reach the normal queue: exactly when it is the order
  of their acceptance, and what breaks it.
 */
module SteeringOrder {
  import opened Options
  import opened DriverContract
  import opened Calls
  import opened SteeringModel
  import opened SteeringRuns
  import opened SteeringInvariant
  import opened SteeringBarriers
  import opened SteeringTheorems

  /** A request that jumped the queue has cost the order, or is about to. */
  ghost predicate JumpShows(r: Run) {
    r.jumped && Clean(r.s.log) ==> Overtaken(r.s)
  }

  lemma WaitingIsNamed(log: Log, n: nat, h: set<nat>, q: seq<Input>, a: Option<Attempt>, open: bool)
    requires LogInv(log, n, h, q, a, open) && q != []
    ensures q[0].id < n && q[0].id !in Asked(log)
    ensures a.Some? ==> a.value.input.id in Asked(log)
    ensures forall id :: id in Asked(log) ==> id < n
  {
  }

  /** Whoever is offered comes after everybody who waits. */
  lemma OfferedFollows(s: State, m: Memory, input: Input)
    requires Core(s, m) && input.id >= m.n
    ensures Follows(s, input)
  {
    hide LogInv;
    if s.pending != [] {
      WaitingIsNamed(s.log, m.n, m.h, s.pending, s.active, !Blocked(s));
    }
  }

  lemma JumpOvertakes(w: World, s: State, m: Memory, input: Input)
    requires Core(s, m) && input.id >= m.n && Jumps(s, input)
    ensures Overtaken(Offer(w, s, input).ret.s)
  {
    hide LogInv, FifoInv, CallInv;
    WaitingIsNamed(s.log, m.n, m.h, s.pending, s.active, !Blocked(s));
    var id := s.pending[0].id;
    var c := Fallback(input.id, w(s.log));
    var log1 := Then(s.log, c);
    assert Passed(log1, id);
    PassedForGood(log1, id, PublishQueued(input.id));
    AskedStays(s.log, c);
    AskedStays(log1, PublishQueued(input.id));
    assert Offer(w, s, input).ret == QueueFallback(w, s, input);
    hide Offer, Passed, Asked, LastUnreserved, UnreservedInOrder;
  }

  lemma StepShows(w: World, r: Run, e: Event)
    requires Inv(r) && Enabled(r, e) && JumpShows(r)
    ensures JumpShows(Step(w, r, e))
  {
    StepKeeps(w, r, e);
    StepOnward(w, r.s, e);
    hide Core, Clean, Overtaken, Barred, StepRet, Follows;
    if e.InputOffered? {
      OfferedFollows(r.s, MemoryOf(r), e.input);
      if Jumps(r.s, e.input) {
        JumpOvertakes(w, r.s, MemoryOf(r), e.input);
        OfferIsStep(w, r.s, e);
      }
    }
  }

  lemma OfferIsStep(w: World, s: State, e: Event)
    requires e.InputOffered?
    ensures StepRet(w, s, e) == Offer(w, s, e.input).ret
  {
  }

  lemma {:induction false} RunShows(w: World, r: Run, events: seq<Event>)
    requires Inv(r) && Possible(w, r, events) && JumpShows(r)
    ensures Inv(RunOf(w, r, events)) && JumpShows(RunOf(w, r, events))
    decreases |events|
  {
    hide Inv, JumpShows, Step, Enabled;
    if events != [] {
      StepKeeps(w, r, events[0]);
      StepShows(w, r, events[0]);
      RunShows(w, Step(w, r, events[0]), events[1..]);
    }
  }

  lemma OrderOf(s: State, m: Memory)
    requires Core(s, m) && Clean(s.log)
    ensures !m.jumped ==> UnreservedInOrder(s.log)
    ensures Overtaken(s) && s.pending == [] ==> !UnreservedInOrder(s.log)
  {
    hide LogInv, CallInv, Clean, UnreservedInOrder;
  }

  lemma OrderAtShutdown(w: World, r: Run)
    requires Inv(r) && JumpShows(r)
    ensures
      var t := Shutdown(w, r.s).s;
      Clean(t.log) ==> (UnreservedInOrder(t.log) <==> !r.jumped)
  {
    hide LogInv, FifoInv, CallInv, Clean, Shutdown, UnreservedInOrder, Overtaken;
    ShutdownKeeps(w, r.s, MemoryOf(r));
    StepShows(w, r, ShuttingDown);
    var t := Shutdown(w, r.s).s;
    if Clean(t.log) {
      OrderOf(t, MemoryOf(r));
    }
  }

  /**
    In a clean run that was shut down, the never-reserved requests reached the normal queue in the
    order they were accepted, exactly if no request was queued at once while another one waited.
   */
  lemma OrderKeptExactly(w: World, hasHook: bool, hasSteerer: bool, queued: seq<Input>, events: seq<Event>)
    requires TurnPossible(w, hasHook, hasSteerer, queued, events)
    ensures
      var r := Turn(w, hasHook, hasSteerer, queued, events);
      var t := Shutdown(w, r.s).s;
      Clean(t.log) ==> (UnreservedInOrder(t.log) <==> !r.jumped)
  {
    InitialInv(hasHook, hasSteerer, queued);
    RunShows(w, Initial(hasHook, hasSteerer, queued), events);
    OrderAtShutdown(w, Turn(w, hasHook, hasSteerer, queued, events));
  }

  // ---------------------------------------------------------------- an invalid prompt

  function InvalidEvents(): seq<Event> {
    [InputOffered(Steering(0)), InputOffered(Input(1, true, true, true, false)), StreamReady(false)]
  }

  lemma InvalidHalfway(w: World) returns (r: Run)
    requires forall log :: w(log)
    ensures !r.s.streamKnown && r.s.hasHook && r.s.pending == [Steering(0)] && r.s.active.None?
    ensures r.s.loopPending == [Input(1, true, true, true, false)]
    ensures r.s.log == Then(Then(Start, Fallback(1, true)), PublishQueued(1))
    ensures
      var es, r0 := InvalidEvents(), Initial(true, true, []);
      RunOf(w, r0, es) == RunOf(w, r, es[1..][1..]) && (Possible(w, r, es[1..][1..]) ==> Possible(w, r0, es))
  {
    var es, r0 := InvalidEvents(), Initial(true, true, []);
    var r1 := Step(w, r0, es[0]);
    r := Step(w, r1, es[1]);
    assert r1.s.pending == [Steering(0)] && r1.accepted == 1;
    assert RunOf(w, r0, es) == RunOf(w, r1, es[1..]);
    assert RunOf(w, r1, es[1..]) == RunOf(w, r, es[1..][1..]);
  }

  /**
    No ordinary input is needed: a steering request with an invalid prompt is queued at once, and
    the one that waits for the stream follows it.
   */
  lemma InvalidPromptOvertakes()
    ensures
      var w := (log: Log) => true;
      var r := Turn(w, true, true, [], InvalidEvents());
      && TurnPossible(w, true, true, [], InvalidEvents())
      && Clean(r.s.log)
      && r.s.loopPending == [Input(1, true, true, true, false), Steering(0)]
      && !UnreservedInOrder(r.s.log)
  {
    var w := (log: Log) => true;
    var r2 := InvalidHalfway(w);
    var e := [StreamReady(false)];
    assert InvalidEvents()[1..][1..] == e && e[1..] == [];
    OvertakeSettled(w, r2.s);
    InvalidUnordered();
    hide SetStream, Clean, UnreservedInOrder;
    assert RunOf(w, r2, e) == Step(w, r2, e[0]) && Possible(w, r2, e);
  }

  lemma InvalidUnordered()
    ensures
      var log := Then(Then(Then(Then(Start, Fallback(1, true)), PublishQueued(1)), Fallback(0, true)),
                      PublishQueued(0));
      Clean(log) && !UnreservedInOrder(log)
  {
  }
}
