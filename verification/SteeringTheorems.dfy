/**
  What the steering machine promises of every run of a turn, in every world: whatever the
  provider, the hook and the publisher do, in whatever order events arrive and clocks fire.
 */
module SteeringTheorems {
  import opened Options
  import opened DriverContract
  import opened Calls
  import opened SteeringModel
  import opened SteeringRuns
  import opened SteeringInvariant

  lemma {:induction false} RunKeeps(w: World, r: Run, events: seq<Event>)
    requires Inv(r) && Possible(w, r, events)
    ensures Inv(RunOf(w, r, events))
    ensures Clean(RunOf(w, r, events).s.log) ==> Clean(r.s.log)
    decreases |events|
  {
    hide Inv, Step, StepRet, Clean, Enabled;
    if events != [] {
      StepKeeps(w, r, events[0]);
      RunKeeps(w, Step(w, r, events[0]), events[1..]);
    }
  }

  /** The run of `events` from the start of a turn. */
  function Turn(w: World, hasHook: bool, hasSteerer: bool, queued: seq<Input>, events: seq<Event>): Run {
    RunOf(w, Initial(hasHook, hasSteerer, queued), events)
  }

  predicate TurnPossible(w: World, hasHook: bool, hasSteerer: bool, queued: seq<Input>, events: seq<Event>) {
    Possible(w, Initial(hasHook, hasSteerer, queued), events)
  }

  lemma TurnInv(w: World, hasHook: bool, hasSteerer: bool, queued: seq<Input>, events: seq<Event>)
    requires TurnPossible(w, hasHook, hasSteerer, queued, events)
    ensures Inv(Turn(w, hasHook, hasSteerer, queued, events))
  {
    hide Inv;
    InitialInv(hasHook, hasSteerer, queued);
    RunKeeps(w, Initial(hasHook, hasSteerer, queued), events);
  }

  /**
    Every call a turn makes respects the delivery protocol: one reservation at a time, none after
    a fallback, an unknown delivery or a failure, each decision about a reserved or never
    reserved request that was not decided before, the fold immediately before its resolution.
   */
  lemma DeliveryProtocol(w: World, hasHook: bool, hasSteerer: bool, queued: seq<Input>, events: seq<Event>)
    requires TurnPossible(w, hasHook, hasSteerer, queued, events)
    ensures Protocol(Turn(w, hasHook, hasSteerer, queued, events).s.log)
  {
    TurnInv(w, hasHook, hasSteerer, queued, events);
  }

  lemma {:induction false} DecidedOnce(log: Log, id: nat)
    requires Protocol(log)
    ensures Decisions(log, id) == if id in Decided(log) then 1 else 0
  {
    if log.Then? {
      DecidedOnce(log.past, id);
    }
  }

  /** No request is ever durably decided twice, even in runs with failures. */
  lemma AtMostOneDecision(w: World, hasHook: bool, hasSteerer: bool, queued: seq<Input>, events: seq<Event>, id: nat)
    requires TurnPossible(w, hasHook, hasSteerer, queued, events)
    ensures Decisions(Turn(w, hasHook, hasSteerer, queued, events).s.log, id) <= 1
  {
    DeliveryProtocol(w, hasHook, hasSteerer, queued, events);
    DecidedOnce(Turn(w, hasHook, hasSteerer, queued, events).s.log, id);
  }

  /** Shutdown settles everything: in a clean run each handled request has then exactly one decision. */
  lemma ExactlyOneDecision(w: World, hasHook: bool, hasSteerer: bool, queued: seq<Input>, events: seq<Event>, id: nat)
    requires TurnPossible(w, hasHook, hasSteerer, queued, events)
    ensures
      var r := Turn(w, hasHook, hasSteerer, queued, events);
      var t := Shutdown(w, r.s).s;
      Clean(t.log) ==> Decisions(t.log, id) == if id in r.handled then 1 else 0
  {
    TurnInv(w, hasHook, hasSteerer, queued, events);
    var r := Turn(w, hasHook, hasSteerer, queued, events);
    ShutdownKeeps(w, r.s, MemoryOf(r));
    var t := Shutdown(w, r.s).s;
    DecidedOnce(t.log, id);
    if Clean(t.log) {
      SettledLedger(t.log, r.accepted, r.handled, t.pending, t.active, !Blocked(t));
    }
  }

  lemma SettledLedger(log: Log, n: nat, h: set<nat>, q: seq<Input>, a: Option<Attempt>, open: bool)
    requires LogInv(log, n, h, q, a, open) && Clean(log) && q == [] && a == None
    ensures h == Decided(log)
  {
  }

  /** A fold into the turn is published exactly for the requests that resolve injected. */
  lemma FoldExactlyWhenInjected(w: World, hasHook: bool, hasSteerer: bool, queued: seq<Input>, events: seq<Event>)
    requires TurnPossible(w, hasHook, hasSteerer, queued, events)
    ensures
      var log := Turn(w, hasHook, hasSteerer, queued, events).s.log;
      Clean(log) ==> FoldedIds(log) == InjectedIds(log)
  {
    TurnInv(w, hasHook, hasSteerer, queued, events);
  }

  /** In a clean run every handled request is waiting, or active and undecided, or decided: exactly one of the three. */
  lemma Conservation(w: World, hasHook: bool, hasSteerer: bool, queued: seq<Input>, events: seq<Event>)
    requires TurnPossible(w, hasHook, hasSteerer, queued, events)
    ensures
      var r := Turn(w, hasHook, hasSteerer, queued, events);
      var waiting, active, decided := Names(r.s.pending), Undecided(r.s.active), Decided(r.s.log);
      && waiting !! active !! decided
      && |waiting| == |r.s.pending|
      && (Clean(r.s.log) ==> r.handled == waiting + active + decided)
  {
    hide LogInv, FifoInv, CallInv, Clean, Names, Undecided, Decided, Turn;
    TurnInv(w, hasHook, hasSteerer, queued, events);
    var r := Turn(w, hasHook, hasSteerer, queued, events);
    LedgerParts(r.s.log, r.accepted, r.handled, r.s.pending, r.s.active, !Blocked(r.s));
  }

  lemma LedgerParts(log: Log, n: nat, h: set<nat>, q: seq<Input>, a: Option<Attempt>, open: bool)
    requires LogInv(log, n, h, q, a, open)
    ensures Names(q) !! Undecided(a) !! Decided(log)
    ensures |Names(q)| == |q|
    ensures Clean(log) ==> h == Names(q) + Undecided(a) + Decided(log)
  {
    WaitingIsApart(log, n, h, q, a, open);
    NamesCount(q);
    ActiveIsApart(log, n, h, q, a, open);
  }

  lemma ActiveIsApart(log: Log, n: nat, h: set<nat>, q: seq<Input>, a: Option<Attempt>, open: bool)
    requires LogInv(log, n, h, q, a, open)
    ensures Undecided(a) !! Decided(log)
    ensures Clean(log) ==> h == Names(q) + Undecided(a) + Decided(log)
  {
    hide Names, Decided, Asked, Granted, FoldedIds, InjectedIds, Protocol, Closed, Clean;
  }

  lemma WaitingIsApart(log: Log, n: nat, h: set<nat>, q: seq<Input>, a: Option<Attempt>, open: bool)
    requires LogInv(log, n, h, q, a, open)
    ensures Ascending(q) && Names(q) !! (Undecided(a) + Decided(log))
  {
    hide Decided, Asked, Granted, FoldedIds, InjectedIds, Protocol, Closed, Clean;
    forall id | id in Names(q) ensures id !in Decided(log) && id !in Undecided(a) {
      var input :| input in q && input.id == id;
      var k :| 0 <= k < |q| && q[k] == input;
    }
  }

  lemma {:induction false} NamesCount(q: seq<Input>)
    requires Ascending(q)
    ensures |Names(q)| == |q|
  {
    if q != [] {
      NamesOfTail(q);
      NamesCount(q[1..]);
    }
  }

  /**
    An observation is applied to the attempt whose call it reports, never to another, and a call
    is started only when every earlier one was seen on the ordered stream.
   */
  lemma NoMisattribution(w: World, hasHook: bool, hasSteerer: bool, queued: seq<Input>, events: seq<Event>)
    requires TurnPossible(w, hasHook, hasSteerer, queued, events)
    ensures
      var r := Turn(w, hasHook, hasSteerer, queued, events);
      && (forall k :: 0 <= k < |r.applied| ==> r.applied[k] == (k, k))
      && |r.applied| <= r.s.started <= |r.applied| + 1
  {
    TurnInv(w, hasHook, hasSteerer, queued, events);
  }

  /**
    When only steering requests with valid prompts arrive, nobody is left waiting behind a
    barrier or an older queued input, and the requests that were never reserved reach the normal
    queue in the order they were accepted.
   */
  lemma UnreservedFifo(w: World, hasHook: bool, hasSteerer: bool, queued: seq<Input>, events: seq<Event>)
    requires TurnPossible(w, hasHook, hasSteerer, queued, events)
    ensures
      var r := Turn(w, hasHook, hasSteerer, queued, events);
      r.tidy && Clean(r.s.log) ==>
        && UnreservedInOrder(r.s.log)
        && (r.s.fallbackBarrier || r.s.disabled || r.s.terminal || r.s.loopPending != [] ==> r.s.pending == [])
  {
    TurnInv(w, hasHook, hasSteerer, queued, events);
  }

  /**
    The order can be lost: an ordinary input accepted while a steering request waits for the
    stream lets the next steering request overtake it. `SteeringOrder` says exactly when.
   */
  lemma OrdinaryInputLetsSteeringOvertake()
    ensures
      var plain := Input(1, false, true, false, true);
      var w := (log: Log) => true;
      var r := Turn(w, true, true, [], OvertakeEvents());
      && TurnPossible(w, true, true, [], OvertakeEvents())
      && Clean(r.s.log)
      && r.s.loopPending == [plain, Steering(2), Steering(0)]
      && !UnreservedInOrder(r.s.log)
  {
    var w := (log: Log) => true;
    var r3 := OvertakeHalfway(w);
    var e := [StreamReady(false)];
    assert OvertakeEvents()[1..][1..][1..] == e && e[1..] == [];
    OvertakeSettled(w, r3.s);
    OvertakeUnordered();
    hide SetStream, Clean, UnreservedInOrder;
    assert RunOf(w, r3, e) == Step(w, r3, e[0]) && Possible(w, r3, e);
  }

  lemma OvertakeUnordered()
    ensures
      var log := Then(Then(Then(Then(Start, Fallback(2, true)), PublishQueued(2)), Fallback(0, true)),
                      PublishQueued(0));
      Clean(log) && !UnreservedInOrder(log)
  {
  }

  /** The stream turns out to be unordered, and the waiting request goes to the queue. */
  lemma OvertakeSettled(w: World, s: State)
    requires (forall log :: w(log)) && s.hasHook && s.pending == [Steering(0)] && s.active.None?
    ensures
      var t := SetStream(w, s, false).s;
      && t.loopPending == s.loopPending + [Steering(0)]
      && t.log == Then(Then(s.log, Fallback(0, true)), PublishQueued(0))
  {
    var s4 := s.(ordered := false, streamKnown := true);
    var q4 := QueueFallback(w, s4.(pending := []), Steering(0)).s;
    assert s4.pending[1..] == [] && QueuePending(w, s4) == QueuePending(w, q4) == Ret(q4, false);
  }

  function Steering(id: nat): Input {
    Input(id, true, true, true, true)
  }

  function OvertakeEvents(): seq<Event> {
    [InputOffered(Steering(0)), QueueAppend(Input(1, false, true, false, true)), InputOffered(Steering(2)),
     StreamReady(false)]
  }

  lemma OvertakeHalfway(w: World) returns (r: Run)
    requires forall log :: w(log)
    ensures !r.s.streamKnown && r.s.hasHook && r.s.pending == [Steering(0)] && r.s.active.None?
    ensures r.s.loopPending == [Input(1, false, true, false, true), Steering(2)]
    ensures r.s.log == Then(Then(Start, Fallback(2, true)), PublishQueued(2))
    ensures
      var es, r0 := OvertakeEvents(), Initial(true, true, []);
      RunOf(w, r0, es) == RunOf(w, r, es[1..][1..][1..]) && (Possible(w, r, es[1..][1..][1..]) ==> Possible(w, r0, es))
  {
    var es, r0 := OvertakeEvents(), Initial(true, true, []);
    var r1 := Step(w, r0, es[0]);
    var r2 := Step(w, r1, es[1]);
    r := Step(w, r2, es[2]);
    assert r1.s.pending == [Steering(0)] && r1.accepted == 1;
    assert RunOf(w, r0, es) == RunOf(w, r1, es[1..]);
    assert RunOf(w, r1, es[1..]) == RunOf(w, r2, es[1..][1..]);
    assert RunOf(w, r2, es[1..][1..]) == RunOf(w, r, es[1..][1..][1..]);
  }

  /** An undecided attempt always has a deadline running, and the deadline settles everything in one step. */
  lemma DeadlineProgress(w: World, hasHook: bool, hasSteerer: bool, queued: seq<Input>, events: seq<Event>)
    requires TurnPossible(w, hasHook, hasSteerer, queued, events)
    ensures
      var s := Turn(w, hasHook, hasSteerer, queued, events).s;
      var t := DeadlineTimeout(w, s).s;
      && (Clean(s.log) && MustHold(s) ==> s.deadlineTimer.Some?)
      && (Clean(t.log) && MustHold(s) ==>
            t.active.None? && t.pending == [] && s.active.value.input.id in Decided(t.log))
  {
    TurnInv(w, hasHook, hasSteerer, queued, events);
    var r := Turn(w, hasHook, hasSteerer, queued, events);
    if MustHold(r.s) {
      DeadlineSettles(w, r.s, MemoryOf(r));
    }
  }

  lemma DeadlineSettles(w: World, s: State, m: Memory)
    requires Core(s, m) && ClockInv(s) && MustHold(s)
    ensures
      var t := DeadlineTimeout(w, s).s;
      Clean(t.log) ==> t.active.None? && t.pending == [] && s.active.value.input.id in Decided(t.log)
  {
    hide Core, Clean, ResolveDisposition, Decided;
    DeadlineKeeps(w, s, m);
    ExpiredSettles(w, Expire(s.(deadlineTimer := None)));
  }

  /** A deadline on an attempt that is already resolved decides nothing about it and retires it. */
  lemma DeadlineOnResolved(w: World, s: State)
    requires s.active.Some? && s.active.value.resolved
    ensures
      var t := DeadlineTimeout(w, s).s;
      && (t.active.Some? ==> t.active.value.serial == s.started)
      && Decided(t.log) == Decided(s.log)
  {
    hide Pump;
    var s1 := Expire(s.(deadlineTimer := None));
    var s2 := Note(s1.(timer := None, active := None), CancelSteer(s.active.value.serial));
    assert Decided(s2.log) == Decided(s.log);
    PumpDecidesNothing(w, s2);
  }

  lemma PumpDecidesNothing(w: World, s: State)
    requires s.active.None?
    ensures
      var r := Pump(w, s);
      && Decided(r.s.log) == Decided(s.log)
      && (r.s.active.Some? ==> r.s.active.value.serial == s.started)
  {
    if Blocked(s) || s.pending == [] {
    } else if w(s.log) {
      assert Decided(Then(s.log, Reserve(s.pending[0].id, true))) == Decided(s.log);
    } else {
    }
  }
}
