/**
  What every step of the steering machine keeps. The first part is about the log and the queue
  alone, one lemma for each kind of call; the second part follows the machine's own functions.

  The invariant has four parts. `LogInv` says what the log has come to: every call was allowed,
  and who was asked for, granted, decided and folded fits what is active and pending. `CallInv`
  pairs provider calls with ordered observations, `FifoInv` keeps never-reserved requests in
  order while nobody jumps the queue, and `ClockInv` has a deadline running for an undecided attempt.
 */
module SteeringInvariant {
  import opened Options
  import opened DriverContract
  import opened Calls
  import opened SteeringModel
  import opened SteeringRuns

  // ---------------------------------------------------------------- the log and the queue

  predicate Ascending(q: seq<Input>) {
    forall i, j :: 0 <= i < j < |q| ==> q[i].id < q[j].id
  }

  function Names(q: seq<Input>): set<nat> {
    set input | input in q :: input.id
  }

  function Undecided(a: Option<Attempt>): set<nat> {
    if a.Some? && !a.value.resolved then {a.value.input.id} else {}
  }

  /**
    The delivery protocol was followed, the machine's queue and active attempt agree with the
    log, and as long as nothing failed every handled request is waiting, active or decided.
    `open` says that the machine may still reserve.
   */
  ghost predicate LogInv(log: Log, n: nat, handled: set<nat>, q: seq<Input>, a: Option<Attempt>, open: bool) {
    && Protocol(log)
    && Ascending(q)
    && (forall k :: 0 <= k < |q| ==> q[k].id < n && q[k].id !in Decided(log))
    && (forall id, k :: id in Asked(log) && 0 <= k < |q| ==> id < q[k].id)
    && (forall id :: id in Asked(log) ==> id < n)
    && (forall id :: id in Decided(log) ==> id < n)
    && (a.Some? ==>
          && a.value.input.id in Granted(log)
          && a.value.input.id in Asked(log)
          && (a.value.input.id in Decided(log) <==> a.value.resolved))
    && (open ==> !Closed(log) && Asked(log) <= InjectedIds(log) + Undecided(a))
    && (Clean(log) ==>
          && handled == Decided(log) + Names(q) + Undecided(a)
          && FoldedIds(log) == InjectedIds(log))
  }

  lemma NamesOfTail(q: seq<Input>)
    requires q != [] && Ascending(q)
    ensures Ascending(q[1..]) && Names(q) == Names(q[1..]) + {q[0].id} && q[0].id !in Names(q[1..])
  {
    assert q == [q[0]] + q[1..];
    forall input | input in q[1..] ensures input.id != q[0].id {
      var k :| 0 <= k < |q[1..]| && q[1..][k] == input;
      assert q[k + 1] == input;
    }
  }

  predicate Inert(c: Call) {
    c.StartSteer? || c.CancelSteer? || c.PublishQueued?
  }

  lemma InertStep(log: Log, n: nat, h: set<nat>, q: seq<Input>, a: Option<Attempt>, open: bool, c: Call)
    requires LogInv(log, n, h, q, a, open) && Inert(c) && Legal(log, c)
    ensures LogInv(Then(log, c), n, h, q, a, open)
  {
    InertFacts(log, c);
    hide Decided, Asked, Granted, InjectedIds, FoldedIds, Clean, Closed, Legal;
  }

  /** An inert call decides nothing, asks for nothing and breaks nothing. */
  lemma InertFacts(log: Log, c: Call)
    requires Inert(c)
    ensures
      var t := Then(log, c);
      && Decided(t) == Decided(log) && Asked(t) == Asked(log) && Granted(t) == Granted(log)
      && InjectedIds(t) == InjectedIds(log) && FoldedIds(t) == FoldedIds(log)
      && Clean(t) == Clean(log) && Closed(t) == Closed(log)
  {
  }

  /** Only the name and the decision of the active attempt matter to the log. */
  lemma SameAttempt(
    log: Log, n: nat, h: set<nat>, q: seq<Input>, a: Option<Attempt>, b: Option<Attempt>, open: bool,
    open': bool)
    requires LogInv(log, n, h, q, a, open) && (open' ==> open)
    requires b == a || (a.Some? && b.Some? && a.value.input == b.value.input && a.value.resolved == b.value.resolved)
    ensures LogInv(log, n, h, q, b, open')
  {
  }

  lemma GrantStep(log: Log, n: nat, h: set<nat>, q: seq<Input>, a: Attempt)
    requires LogInv(log, n, h, q, None, true) && q != [] && a.input == q[0] && !a.resolved
    ensures LogInv(Then(log, Reserve(q[0].id, true)), n, h, q[1..], Some(a), true)
  {
    var log1 := Then(log, Reserve(q[0].id, true));
    NamesOfTail(q);
    assert Legal(log, Reserve(q[0].id, true));
    assert Asked(log1) == Asked(log) + {q[0].id} && Decided(log1) == Decided(log);
    assert FoldedIds(log1) == FoldedIds(log) && InjectedIds(log1) == InjectedIds(log);
  }

  lemma RefuseStep(log: Log, n: nat, h: set<nat>, q: seq<Input>)
    requires LogInv(log, n, h, q, None, true) && q != []
    ensures LogInv(Then(log, Reserve(q[0].id, false)), n, h, q[1..], None, false)
  {
    var log1 := Then(log, Reserve(q[0].id, false));
    assert Legal(log, Reserve(q[0].id, false));
    assert Asked(log1) == Asked(log) + {q[0].id} && Decided(log1) == Decided(log);
    assert !Clean(log1);
  }

  /** A request that is neither waiting nor active goes to the normal queue. */
  lemma FallbackStep(
    log: Log, n: nat, h: set<nat>, q: seq<Input>, a: Option<Attempt>, open: bool, input: Input, ok: bool)
    requires LogInv(log, n, h, q, a, open) && input.id < n && input.id !in Decided(log)
    requires forall k :: 0 <= k < |q| ==> q[k].id != input.id
    requires a.Some? ==> a.value.input.id != input.id
    ensures LogInv(Then(log, Fallback(input.id, ok)), n, h + {input.id}, q, a, false)
  {
    var log1 := Then(log, Fallback(input.id, ok));
    assert Decided(log1) == Decided(log) + if ok then {input.id} else {};
    assert Asked(log1) == Asked(log) && Granted(log1) == Granted(log);
    assert Legal(log, Fallback(input.id, ok));
    assert Clean(log1) ==> ok;
  }

  /** The head of the queue is taken out; it is owed a decision. */
  lemma PopStep(log: Log, n: nat, h: set<nat>, q: seq<Input>, a: Option<Attempt>, open: bool)
    requires LogInv(log, n, h, q, a, open) && q != []
    ensures LogInv(log, n, h - {q[0].id}, q[1..], a, open)
    ensures q[0].id < n && q[0].id !in Decided(log)
    ensures Clean(log) ==> q[0].id in h
    ensures forall k :: 0 <= k < |q[1..]| ==> q[1..][k].id != q[0].id
    ensures a.Some? ==> a.value.input.id != q[0].id
  {
    NamesOfTail(q);
  }

  lemma AcceptStep(log: Log, n: nat, h: set<nat>, q: seq<Input>, a: Option<Attempt>, open: bool, input: Input)
    requires LogInv(log, n, h, q, a, open) && input.id >= n
    ensures LogInv(log, input.id + 1, h + {input.id}, q + [input], a, open)
  {
    NamesOfMore(q, input);
    hide Decided, Asked, Granted, InjectedIds, FoldedIds, Clean, Closed, Protocol, Names;
  }

  lemma NamesOfMore(q: seq<Input>, input: Input)
    ensures Names(q + [input]) == Names(q) + {input.id}
  {
  }

  /** One durable call about the active attempt, or its fold and the resolution that follows. */
  lemma DecideStep(log: Log, n: nat, h: set<nat>, q: seq<Input>, a: Attempt, open: bool, c: Call)
    requires LogInv(log, n, h, q, Some(a), open) && !a.resolved
    requires (c.Fallback? || c.ResolveOther?) && c.id == a.input.id
    ensures LogInv(Then(log, c), n, h, q, Some(a.(resolved := c.ok)), false)
  {
    var log1 := Then(log, c);
    assert Decides(c) == if c.ok then {a.input.id} else {};
    assert Asked(log1) == Asked(log) && Granted(log1) == Granted(log);
    assert Legal(log, c);
    assert forall k :: 0 <= k < |q| ==> a.input.id < q[k].id;
    assert Clean(log1) ==> c.ok;
  }

  lemma FoldRefusedStep(log: Log, n: nat, h: set<nat>, q: seq<Input>, a: Attempt, open: bool)
    requires LogInv(log, n, h, q, Some(a), open) && !a.resolved
    ensures LogInv(Then(log, PublishFold(a.input.id, false)), n, h, q, Some(a), false)
  {
    assert Legal(log, PublishFold(a.input.id, false));
  }

  lemma InjectStep(log: Log, n: nat, h: set<nat>, q: seq<Input>, a: Attempt, open: bool, ok: bool)
    requires LogInv(log, n, h, q, Some(a), open) && !a.resolved
    ensures LogInv(Then(Then(log, PublishFold(a.input.id, true)), ResolveInjected(a.input.id, ok)),
                   n, h, q, Some(if ok then a.(resolved := true) else a), open && ok)
  {
    var id := a.input.id;
    var log1 := Then(log, PublishFold(id, true));
    var log2 := Then(log1, ResolveInjected(id, ok));
    assert Legal(log, PublishFold(id, true)) && Legal(log1, ResolveInjected(id, ok));
    assert Decided(log1) == Decided(log) && Asked(log1) == Asked(log) && Granted(log1) == Granted(log);
    assert Decided(log2) == Decided(log) + if ok then {id} else {};
    assert Asked(log2) == Asked(log) && Granted(log2) == Granted(log);
    assert InjectedIds(log2) == InjectedIds(log) + if ok then {id} else {};
    assert FoldedIds(log2) == FoldedIds(log) + {id};
    assert forall k :: 0 <= k < |q| ==> id < q[k].id;
    assert Clean(log1) == Clean(log) && Clean(log2) == (Clean(log1) && ok);
  }

  /** Requests never reserved reach the normal queue in order, and the waiting ones come after them. */
  predicate FifoInv(log: Log, n: nat, q: seq<Input>) {
    && UnreservedInOrder(log)
    && LastUnreserved(log) < n
    && forall k :: 0 <= k < |q| ==> LastUnreserved(log) < q[k].id
  }

  /** The head of the queue goes to the normal queue. */
  lemma PopFallbackStep(log: Log, n: nat, h: set<nat>, q: seq<Input>, a: Option<Attempt>, open: bool, ok: bool)
    requires LogInv(log, n, h, q, a, open) && q != []
    ensures LogInv(Then(log, Fallback(q[0].id, ok)), n, h, q[1..], a, false)
    ensures FifoInv(log, n, q) ==> FifoInv(Then(log, Fallback(q[0].id, ok)), n, q[1..])
    ensures Clean(Then(log, Fallback(q[0].id, ok))) == (Clean(log) && ok)
  {
    var log1 := Then(log, Fallback(q[0].id, ok));
    PopStep(log, n, h, q, a, open);
    FallbackStep(log, n, h - {q[0].id}, q[1..], a, open, q[0], ok);
    assert Clean(log1) ==> Clean(log) && h - {q[0].id} + {q[0].id} == h;
    assert LastUnreserved(log1) == LastUnreserved(log) || LastUnreserved(log1) == q[0].id;
  }

  // ---------------------------------------------------------------- the machine

  /**
    What an observer remembers of the run, in the terms of `SteeringRuns.Run`: `n` bounds the
    names, `h` is what was handled, `applied` counts the observations applied.
   */
  datatype Memory = Memory(n: nat, h: set<nat>, nextTag: nat, applied: nat, tidy: bool, jumped: bool)

  /** Calls and observations pair up one to one, in order. */
  predicate CallInv(s: State, m: Memory) {
    && m.nextTag <= s.started
    && m.applied <= s.started <= m.applied + 1
    && (s.active.Some? ==>
          && s.ordered && s.streamKnown
          && s.active.value.serial + 1 == s.started
          && (s.active.value.seen ==> m.applied == m.nextTag == s.started)
          && (!s.active.value.seen && !s.active.value.resolved ==> m.applied == m.nextTag == s.started - 1)
          && (!s.active.value.seen && s.active.value.resolved ==> Blocked(s)))
    && (s.active.None? && !Blocked(s) ==> m.applied == m.nextTag == s.started)
  }

  ghost predicate Core(s: State, m: Memory) {
    && LogInv(s.log, m.n, m.h, s.pending, s.active, !Blocked(s))
    && (!m.jumped && Clean(s.log) ==> FifoInv(s.log, m.n, s.pending))
    && CallInv(s, m)
    && (s.active.None? ==> s.deadlineTimer.None?)
    && (Clean(s.log) ==> !s.fault)
    && (s.pending != [] || s.active.Some? ==> s.hasHook)
  }

  /** An undecided attempt has a deadline running. */
  predicate ClockInv(s: State) {
    Clean(s.log) && MustHold(s) ==> s.deadlineTimer.Some?
  }

  /** What an operation promises about its result: the invariant, and no failure that the log does not show. */
  ghost predicate Sound(s: State, r: Ret, m: Memory) {
    && Core(r.s, m)
    && (Clean(r.s.log) ==> Clean(s.log) && !r.err)
    && (s.terminal ==> r.s.terminal)
  }

  /** Nobody waits behind a barrier. */
  predicate Drained(s: State) {
    && Clean(s.log)
    && (s.fallbackBarrier || s.disabled || s.terminal || s.loopPending != [] || !s.hasSteerer
        || (s.streamKnown && !s.ordered))
    ==> s.pending == []
  }

  lemma InertKeepsOrder(log: Log, n: nat, q: seq<Input>, c: Call)
    requires Inert(c)
    ensures FifoInv(log, n, q) ==> FifoInv(Then(log, c), n, q)
    ensures Clean(Then(log, c)) == Clean(log)
  {
  }

  lemma QueueHeadKeeps(w: World, s: State, m: Memory)
    requires Core(s, m) && s.pending != []
    ensures
      var r := QueueFallback(w, s.(pending := s.pending[1..]), s.pending[0]);
      && Sound(s, r, m)
      && r.s.pending == s.pending[1..] && r.s.active == s.active
      && r.s.terminal == s.terminal && r.s.disabled == s.disabled && r.s.fault == s.fault
      && r.s.timer == s.timer && r.s.deadlineTimer == s.deadlineTimer
  {
    hide LogInv, FifoInv, Clean;
    var q := s.pending;
    var ok := w(s.log);
    var log1 := Then(s.log, Fallback(q[0].id, ok));
    PopFallbackStep(s.log, m.n, m.h, q, s.active, !Blocked(s), ok);
    if ok {
      assert Legal(log1, PublishQueued(q[0].id));
      InertStep(log1, m.n, m.h, q[1..], s.active, false, PublishQueued(q[0].id));
      InertKeepsOrder(log1, m.n, q[1..], PublishQueued(q[0].id));
    }
  }

  lemma {:induction false} QueuePendingKeeps(w: World, s: State, m: Memory)
    requires Core(s, m)
    ensures
      var r := QueuePending(w, s);
      && Core(r.s, m)
      && (Clean(r.s.log) ==> Clean(s.log) && !r.err && r.s.pending == [])
      && r.s.active == s.active
      && r.s.terminal == s.terminal && r.s.disabled == s.disabled && r.s.fault == s.fault
      && r.s.timer == s.timer && r.s.deadlineTimer == s.deadlineTimer
    decreases |s.pending|
  {
    hide LogInv, FifoInv;
    if s.pending != [] {
      QueueHeadKeeps(w, s, m);
      var r := QueueFallback(w, s.(pending := s.pending[1..]), s.pending[0]);
      if !r.err {
        QueuePendingKeeps(w, r.s, m);
      }
    }
  }

  lemma PumpKeeps(w: World, s: State, m: Memory)
    requires Core(s, m) && s.ordered && s.streamKnown
    ensures
      var r := Pump(w, s);
      && Sound(s, r, m)
      && (ClockInv(s) ==> ClockInv(r.s))
      && (Drained(s) ==> Drained(r.s))
  {
    if !Blocked(s) && s.active.None? && s.pending != [] {
      BeginKeeps(s, m);
      RefuseStep(s.log, m.n, m.h, s.pending);
    }
  }

  lemma BeginKeeps(s: State, m: Memory)
    requires Core(s, m) && !Blocked(s) && s.active.None? && s.pending != [] && s.ordered && s.streamKnown
    ensures Core(Begin(s), m) && Begin(s).deadlineTimer.Some? && Clean(Begin(s).log) == Clean(s.log)
  {
    var a := NewAttempt(s, s.pending[0]);
    var log1 := Then(s.log, Reserve(a.input.id, true));
    GrantStep(s.log, m.n, m.h, s.pending, a);
    InertStep(log1, m.n, m.h, s.pending[1..], Some(a), true, StartSteer(a.input.id, s.started));
    InertKeepsOrder(log1, m.n, s.pending[1..], StartSteer(a.input.id, s.started));
    assert LastUnreserved(log1) == LastUnreserved(s.log) && UnreservedInOrder(log1) == UnreservedInOrder(s.log);
    assert Clean(log1) == Clean(s.log);
  }

  lemma CleanIsFaultless(s: State, m: Memory)
    requires Core(s, m)
    ensures Clean(s.log) ==> !s.fault
  {
  }

  function Leave(s: State): State
    requires s.active.Some?
  {
    Note(s.(timer := None, deadlineTimer := None, active := None), CancelSteer(s.active.value.serial))
  }

  lemma LeaveKeeps(s: State, m: Memory)
    requires Core(s, m) && s.active.Some? && s.active.value.resolved
    ensures Core(Leave(s), m) && s.ordered && s.streamKnown
    ensures Clean(Leave(s).log) == Clean(s.log)
  {
    hide FifoInv, Clean, Asked, Decided;
    var c := CancelSteer(s.active.value.serial);
    InertStep(s.log, m.n, m.h, s.pending, s.active, !Blocked(s), c);
    InertKeepsOrder(s.log, m.n, s.pending, c);
  }

  lemma RetireKeeps(w: World, s: State, serial: nat, m: Memory)
    requires Core(s, m)
    ensures
      var r := Retire(w, s, serial);
      && Sound(s, r, m)
      && (ClockInv(s) ==> ClockInv(r.s))
      && (Drained(s) ==> Drained(r.s))
  {
    hide Core, Clean, Pump;
    CleanIsFaultless(s, m);
    if s.active.Some? && s.active.value.resolved && s.active.value.serial == serial {
      LeaveKeeps(s, m);
      PumpKeeps(w, Leave(s), m);
    }
  }

  lemma CancelKeeps(s: State, serial: nat, m: Memory)
    requires Core(s, m)
    ensures Core(Note(s, CancelSteer(serial)), m)
    ensures Clean(Then(s.log, CancelSteer(serial))) == Clean(s.log)
  {
    InertStep(s.log, m.n, m.h, s.pending, s.active, !Blocked(s), CancelSteer(serial));
  }

  /** A disposition that may keep the machine open needs an observation. */
  predicate Supported(s: State, d: Disposition)
    requires s.active.Some?
  {
    d.AsInjected? ==> s.active.value.seen || Blocked(s)
  }

  lemma AfterDecisionKeeps(w: World, s: State, d: Disposition, m: Memory)
    requires s.active.Some? && Core(MarkResolved(s), m)
    ensures
      var r := AfterDecision(w, s, d);
      && Sound(s, r, m)
      && ClockInv(r.s)
      && (Drained(s) || d.AsUnknown? || d.AsFallback? ==> Drained(r.s))
  {
    hide LogInv, FifoInv;
    var serial := s.active.value.serial;
    var s1 := MarkResolved(s);
    QueuePendingKeeps(w, s1, m);
    var q := QueuePending(w, s1);
    var r := if d.AsFallback? || d.AsUnknown? then Faulted(q) else Ret(s1, false);
    if !r.err {
      CancelKeeps(r.s, serial, m);
      var s2 := if !d.AsInjected? then Note(r.s, CancelSteer(serial)) else r.s;
      RetireKeeps(w, s2, serial, m);
    } else {
      FaultKeeps(q.s, m);
    }
  }

  /** After a failed call the machine may be faulted. */
  lemma FaultKeeps(s: State, m: Memory)
    requires Core(s, m) && !Clean(s.log)
    ensures Core(s.(fault := true), m)
  {
    SameAttempt(s.log, m.n, m.h, s.pending, s.active, s.active, !Blocked(s), false);
  }

  lemma DecideFallbackKeeps(w: World, s: State, m: Memory)
    requires Core(s, m) && MustHold(s)
    ensures
      var r := Decide(w, s, AsFallback);
      && r.s.active.Some?
      && (if r.err then Core(r.s, m) else Core(MarkResolved(r.s), m))
      && (s.terminal ==> r.s.terminal)
      && (Clean(r.s.log) ==> Clean(s.log) && !r.err)
  {
    hide LogInv, FifoInv, Clean;
    var a := s.active.value;
    var ok := w(s.log);
    var c := Fallback(a.input.id, ok);
    var log1 := Then(s.log, c);
    DecideStep(s.log, m.n, m.h, s.pending, a, !Blocked(s), c);
    DecideKeepsOrder(s.log, m.n, m.h, s.pending, a, !Blocked(s), c);
    if ok {
      assert Legal(log1, PublishQueued(a.input.id));
      InertStep(log1, m.n, m.h, s.pending, Some(a.(resolved := true)), false, PublishQueued(a.input.id));
      InertKeepsOrder(log1, m.n, s.pending, PublishQueued(a.input.id));
    }
  }

  /** Calls about a reserved request do not touch the order of the unreserved ones. */
  lemma DecideKeepsOrder(log: Log, n: nat, h: set<nat>, q: seq<Input>, a: Attempt, open: bool, c: Call)
    requires LogInv(log, n, h, q, Some(a), open)
    requires c.Fallback? || c.ResolveOther? || c.PublishFold? || c.ResolveInjected?
    requires c.id == a.input.id
    ensures FifoInv(log, n, q) ==> FifoInv(Then(log, c), n, q)
    ensures Clean(Then(log, c)) == (Clean(log) && c.ok && !(c.ResolveOther? && c.state.Untrackable?))
  {
  }

  lemma DecideUnknownKeeps(w: World, s: State, m: Memory)
    requires Core(s, m) && MustHold(s)
    ensures
      var r := Decide(w, s, AsUnknown);
      && r.s.active.Some?
      && (if r.err then Core(r.s, m) else Core(MarkResolved(r.s), m))
      && (s.terminal ==> r.s.terminal)
      && (Clean(r.s.log) ==> Clean(s.log) && !r.err)
  {
    hide LogInv, FifoInv, Clean;
    var a := s.active.value;
    var c := ResolveOther(a.input.id, Resolution.Unknown, w(s.log));
    DecideStep(s.log, m.n, m.h, s.pending, a, !Blocked(s), c);
    DecideKeepsOrder(s.log, m.n, m.h, s.pending, a, !Blocked(s), c);
  }

  lemma DecideUntrackableKeeps(w: World, s: State, m: Memory)
    requires Core(s, m) && MustHold(s)
    ensures
      var r := Decide(w, s, AsUntrackable);
      && r.s.active.Some? && r.err && Core(r.s, m) && !Clean(r.s.log)
      && (s.terminal ==> r.s.terminal)
  {
    hide LogInv, FifoInv, Clean;
    var a := s.active.value;
    var c := ResolveOther(a.input.id, Resolution.Untrackable, w(s.log));
    DecideStep(s.log, m.n, m.h, s.pending, a, !Blocked(s), c);
    DecideKeepsOrder(s.log, m.n, m.h, s.pending, a, !Blocked(s), c);
  }

  /** The log in which the active attempt's fold has just been published. */
  function FoldedLog(s: State): Log
    requires s.active.Some?
  {
    Then(s.log, PublishFold(s.active.value.input.id, true))
  }

  lemma FoldRefusedKeeps(w: World, s: State, m: Memory)
    requires Core(s, m) && MustHold(s) && !w(s.log)
    ensures var r := Decide(w, s, AsInjected); r.err && r.s.active.Some? && Core(r.s, m) && !Clean(r.s.log)
    ensures s.terminal ==> Decide(w, s, AsInjected).s.terminal
  {
    hide LogInv, FifoInv, Clean;
    var a := s.active.value;
    DecideKeepsOrder(s.log, m.n, m.h, s.pending, a, !Blocked(s), PublishFold(a.input.id, false));
    FoldRefusedStep(s.log, m.n, m.h, s.pending, a, !Blocked(s));
  }

  /** Both durable calls of an injected delivery succeeded. */
  lemma InjectedKeeps(w: World, s: State, m: Memory)
    requires Core(s, m) && MustHold(s) && Supported(s, AsInjected) && w(s.log) && w(FoldedLog(s))
    ensures
      var r := Decide(w, s, AsInjected);
      !r.err && r.s.active.Some? && Core(MarkResolved(r.s), m) && Clean(r.s.log) == Clean(s.log)
    ensures var r := Decide(w, s, AsInjected); (s.terminal ==> r.s.terminal) && (Drained(s) ==> Drained(r.s))
  {
    hide LogInv, FifoInv, Clean;
    var a := s.active.value;
    var fold := PublishFold(a.input.id, true);
    DecideKeepsOrder(s.log, m.n, m.h, s.pending, a, !Blocked(s), fold);
    InjectStep(s.log, m.n, m.h, s.pending, a, !Blocked(s), true);
    ResolvedKeepsOrder(Then(s.log, fold), m.n, s.pending, ResolveInjected(a.input.id, true));
  }

  /** The fold was published and its resolution refused. */
  lemma InjectionRefusedKeeps(w: World, s: State, m: Memory)
    requires Core(s, m) && MustHold(s) && w(s.log) && !w(FoldedLog(s))
    ensures var r := Decide(w, s, AsInjected); r.err && r.s.active.Some? && Core(r.s, m) && !Clean(r.s.log)
    ensures s.terminal ==> Decide(w, s, AsInjected).s.terminal
  {
    hide LogInv, FifoInv, Clean;
    var a := s.active.value;
    InjectStep(s.log, m.n, m.h, s.pending, a, !Blocked(s), false);
    ResolvedKeepsOrder(Then(s.log, PublishFold(a.input.id, true)), m.n, s.pending, ResolveInjected(a.input.id, false));
  }

  lemma DecideInjectedKeeps(w: World, s: State, m: Memory)
    requires Core(s, m) && MustHold(s) && Supported(s, AsInjected)
    ensures
      var r := Decide(w, s, AsInjected);
      && r.s.active.Some?
      && (if r.err then Core(r.s, m) else Core(MarkResolved(r.s), m))
      && (Clean(r.s.log) ==> Clean(s.log) && !r.err)
      && (s.terminal ==> r.s.terminal)
      && (Drained(s) ==> Drained(r.s))
  {
    hide Core, Clean, Supported, Decide;
    if !w(s.log) {
      FoldRefusedKeeps(w, s, m);
    } else if w(FoldedLog(s)) {
      InjectedKeeps(w, s, m);
    } else {
      InjectionRefusedKeeps(w, s, m);
    }
  }

  lemma ResolvedKeepsOrder(log: Log, n: nat, q: seq<Input>, c: Call)
    requires c.ResolveInjected?
    ensures FifoInv(log, n, q) ==> FifoInv(Then(log, c), n, q)
    ensures Clean(Then(log, c)) == (Clean(log) && c.ok)
  {
  }

  lemma ResolveDispositionKeeps(w: World, s: State, d: Disposition, m: Memory)
    requires Core(s, m) && s.active.Some? && Supported(s, d)
    ensures
      var r := ResolveDisposition(w, s, d);
      && Sound(s, r, m)
      && ClockInv(r.s)
      && (Drained(s) || (MustHold(s) && !d.AsInjected?) ==> Drained(r.s))
  {
    hide Core, Clean, Decide, AfterDecision;
    if MustHold(s) {
      match d {
        case AsFallback => DecideFallbackKeeps(w, s, m);
        case AsInjected => DecideInjectedKeeps(w, s, m);
        case AsUnknown => DecideUnknownKeeps(w, s, m);
        case AsUntrackable => DecideUntrackableKeeps(w, s, m);
      }
      var r := Decide(w, s, d);
      if !r.err {
        AfterDecisionKeeps(w, r.s, d, m);
      }
    }
  }

  /** Timers and the facts recorded about the active attempt are free to change. */
  lemma TweakKeeps(s: State, t: State, m: Memory)
    requires Core(s, m)
    requires t.log == s.log && t.pending == s.pending && t.hasHook == s.hasHook && t.fault == s.fault
    requires Blocked(s) ==> Blocked(t)
    requires t.active == s.active || (s.active.Some? && t.active.Some?
               && t.active.value.input == s.active.value.input && t.active.value.resolved == s.active.value.resolved)
    requires CallInv(t, m)
    requires t.active.None? ==> t.deadlineTimer.None?
    ensures Core(t, m)
  {
    hide FifoInv, Clean;
    SameAttempt(s.log, m.n, m.h, s.pending, s.active, t.active, !Blocked(s), !Blocked(t));
  }

  lemma TerminalTimerKeeps(s: State, m: Memory)
    requires Core(s, m)
    ensures Core(StartTerminalTimer(s), m)
    ensures StartTerminalTimer(s).log == s.log && StartTerminalTimer(s).terminal == s.terminal
    ensures ClockInv(s) ==> ClockInv(StartTerminalTimer(s))
  {
    hide LogInv, FifoInv, Clean;
  }

  /** The terminal fact is recorded first; afterwards nobody waits. */
  lemma ResolvePendingKeeps(w: World, s: State, m: Memory)
    requires Core(s, m) && s.terminal && ClockInv(s)
    ensures
      var r := ResolvePendingBeforeTerminal(w, s);
      && Core(r.s, m)
      && (Clean(r.s.log) ==> Clean(s.log) && !r.err && r.s.pending == [])
      && ClockInv(r.s)
      && r.s.terminal
  {
    hide Core, Clean, ResolveDisposition, QueuePending, Classify, StartTerminalTimer;
    var late := s.active.Some? && !s.active.value.resolved && (s.active.value.done || s.active.value.seen);
    var r := if late then ResolveAttempt(w, s) else Ret(s, false);
    if late {
      ResolveDispositionKeeps(w, s, Classify(s.active.value.result, s.active.value.err), m);
    }
    if !r.err {
      TerminalTimerKeeps(r.s, m);
      QueuePendingKeeps(w, r.s, m);
      QueuePendingKeeps(w, StartTerminalTimer(r.s), m);
    }
  }

  function Accepted(m: Memory, input: Input, jumps: bool): Memory {
    m.(n := input.id + 1, h := m.h + {input.id}, tidy := m.tidy && input.blocksValid, jumped := m.jumped || jumps)
  }

  /** A request that does not wait jumps the queue if anybody is waiting. */
  lemma OfferQueuedKeeps(w: World, s: State, input: Input, m: Memory)
    requires Core(s, m) && input.id >= m.n && s.hasHook && w(s.log)
    ensures Core(QueueFallback(w, s, input).s, Accepted(m, input, s.pending != []))
    ensures Clean(QueueFallback(w, s, input).s.log) == Clean(s.log)
  {
    hide LogInv, FifoInv, Clean;
    var log1 := Then(s.log, Fallback(input.id, true));
    FreshFallbackStep(s.log, m.n, m.h, s.pending, s.active, !Blocked(s), input, true);
    InertStep(log1, input.id + 1, m.h + {input.id}, s.pending, s.active, false, PublishQueued(input.id));
    InertKeepsOrder(log1, input.id + 1, s.pending, PublishQueued(input.id));
  }

  lemma OfferRefusedKeeps(w: World, s: State, input: Input, m: Memory)
    requires Core(s, m) && input.id >= m.n && s.hasHook && !w(s.log)
    ensures Core(QueueFallback(w, s, input).s, Accepted(m, input, s.pending != []))
    ensures !Clean(QueueFallback(w, s, input).s.log)
  {
    hide LogInv, FifoInv, Clean;
    FreshFallbackStep(s.log, m.n, m.h, s.pending, s.active, !Blocked(s), input, false);
  }

  lemma OfferFallbackKeeps(w: World, s: State, input: Input, m: Memory)
    requires Core(s, m) && ClockInv(s) && input.id >= m.n && s.hasHook
    ensures
      var r := QueueFallback(w, s, input);
      && Core(r.s, Accepted(m, input, s.pending != []))
      && (Clean(r.s.log) ==> Clean(s.log) && !r.err)
      && ClockInv(r.s)
      && (s.pending == [] ==> Drained(r.s))
  {
    hide Core, Clean;
    if w(s.log) {
      OfferQueuedKeeps(w, s, input, m);
    } else {
      OfferRefusedKeeps(w, s, input, m);
    }
  }

  lemma FreshFallbackStep(
    log: Log, n: nat, h: set<nat>, q: seq<Input>, a: Option<Attempt>, open: bool, input: Input, ok: bool)
    requires LogInv(log, n, h, q, a, open) && input.id >= n
    ensures LogInv(Then(log, Fallback(input.id, ok)), input.id + 1, h + {input.id}, q, a, false)
    ensures FifoInv(log, n, q) && q == [] ==> FifoInv(Then(log, Fallback(input.id, ok)), input.id + 1, q)
    ensures Clean(Then(log, Fallback(input.id, ok))) == (Clean(log) && ok)
  {
    FallbackStep(log, input.id + 1, h, q, a, open, input, ok);
  }

  function Remember(s: State, m: Memory, input: Input): Memory {
    if IsCandidate(s, input) then Accepted(m, input, Jumps(s, input))
    else m.(n := input.id + 1, tidy := m.tidy && input.blocksValid)
  }

  lemma OfferKeeps(w: World, s: State, input: Input, m: Memory)
    requires Core(s, m) && ClockInv(s) && (m.tidy ==> Drained(s)) && input.id >= m.n
    ensures
      var o := Offer(w, s, input);
      var m' := Remember(s, m, input);
      && Core(o.ret.s, m')
      && (Clean(o.ret.s.log) ==> Clean(s.log) && !o.ret.err)
      && ClockInv(o.ret.s)
      && (m'.tidy ==> Drained(o.ret.s))
      && (m'.tidy && Clean(s.log) ==> !Jumps(s, input))
  {
    hide LogInv, FifoInv, Clean, QueueFallback, Pump;
    var m' := Accepted(m, input, false);
    if !IsCandidate(s, input) {
      RenameKeeps(s, input.id + 1, input.blocksValid, m);
    } else if QueuedAtOnce(s, input) {
      OfferFallbackKeeps(w, s, input, m);
    } else {
      var t := s.(pending := s.pending + [input]);
      AcceptStep(s.log, m.n, m.h, s.pending, s.active, !Blocked(s), input);
      AcceptKeepsOrder(s.log, m.n, s.pending, input);
      assert Core(t, m');
      if s.streamKnown {
        PumpKeeps(w, t, m');
      }
    }
  }

  lemma AcceptKeepsOrder(log: Log, n: nat, q: seq<Input>, input: Input)
    requires input.id >= n
    ensures FifoInv(log, n, q) ==> FifoInv(log, input.id + 1, q + [input])
  {
  }

  lemma RenameKeeps(s: State, n: nat, valid: bool, m: Memory)
    requires Core(s, m) && n >= m.n
    ensures Core(s, m.(n := n, tidy := m.tidy && valid))
  {
  }

  /** Recording a completion; an unseen attempt is settled by it only as unknown, or after the terminal fact. */
  lemma CompletedKeeps(s: State, b: Attempt, m: Memory)
    requires Core(s, m) && s.active.Some?
    requires
      var a := s.active.value;
      b.input == a.input && b.serial == a.serial && b.seen == a.seen && b.resolved == a.resolved
    ensures Core(s.(active := Some(b)), m) && s.ordered
    ensures b.seen || Conclusive(b.result, b.err) || s.terminal
            ==> Supported(s.(active := Some(b)), Classify(b.result, b.err))
    ensures ClockInv(s) ==> ClockInv(s.(active := Some(b)))
    ensures Drained(s) ==> Drained(s.(active := Some(b)))
  {
    hide LogInv, FifoInv, Clean;
    TweakKeeps(s, s.(active := Some(b)), m);
  }

  lemma CompleteKeeps(w: World, s: State, serial: nat, result: SteerResult, err: CallError, m: Memory)
    requires Core(s, m) && ClockInv(s)
    ensures
      var r := Complete(w, s, serial, result, err);
      && Sound(s, r, m)
      && ClockInv(r.s)
      && (Drained(s) ==> Drained(r.s))
  {
    hide Core, Clean, ClockInv, Drained, Settle, Conclusive, Classify, Supported;
    if s.active.Some? && s.active.value.serial == serial {
      var b := WithCompletion(s.active.value, result, err);
      CompletedKeeps(s, b, m);
      if b.seen || Conclusive(result, err) || s.terminal {
        SettleKeeps(w, s.(active := Some(b)), serial, m);
      }
    }
  }

  lemma SettleKeeps(w: World, s: State, serial: nat, m: Memory)
    requires Core(s, m) && ClockInv(s) && s.active.Some?
    requires Supported(s, Classify(s.active.value.result, s.active.value.err))
    ensures
      var r := Settle(w, s, serial);
      && Sound(s, r, m)
      && ClockInv(r.s)
      && (Drained(s) ==> Drained(r.s))
  {
    hide Core, Clean, ClockInv, Drained, ResolveDisposition, Retire, Classify, Supported;
    ResolveDispositionKeeps(w, s, Classify(s.active.value.result, s.active.value.err), m);
    RetireKeeps(w, ResolveAttempt(w, s).s, serial, m);
  }

  lemma TimeoutKeeps(w: World, s: State, m: Memory)
    requires Core(s, m) && ClockInv(s)
    ensures
      var r := Timeout(w, s);
      && Sound(s, r, m)
      && ClockInv(r.s)
      && (Drained(s) ==> Drained(r.s))
  {
    hide LogInv, FifoInv, Clean, ResolveDisposition, Retire;
    if s.active.Some? {
      var s1 := s.(timer := None);
      TweakKeeps(s, s1, m);
      ResolveDispositionKeeps(w, s1, AsUnknown, m);
      var r := ResolveDisposition(w, s1, AsUnknown);
      if r.s.active.Some? {
        RetireKeeps(w, r.s, r.s.active.value.serial, m);
      }
    }
  }

  lemma DeadlineKeeps(w: World, s: State, m: Memory)
    requires Core(s, m) && ClockInv(s)
    ensures
      var r := DeadlineTimeout(w, s);
      && Sound(s, r, m)
      && ClockInv(r.s)
      && (Drained(s) ==> Drained(r.s))
  {
    hide LogInv, FifoInv, Clean, ResolveDisposition, Retire;
    if s.active.Some? {
      var s1 := Expire(s.(deadlineTimer := None));
      TweakKeeps(s, s1, m);
      RetireKeeps(w, s1, s.active.value.serial, m);
      ResolveDispositionKeeps(w, s1, AsUnknown, m);
    }
  }

  lemma QueueFallbackEffect(w: World, s: State, input: Input)
    ensures
      var r := QueueFallback(w, s, input);
      && r.s.pending == s.pending && r.s.active == s.active
      && r.s.terminal == s.terminal && r.s.disabled == s.disabled
      && Decided(s.log) <= Decided(r.s.log)
  {
    if s.hasHook {
      var log1 := Then(s.log, Fallback(input.id, w(s.log)));
      assert Decided(s.log) <= Decided(log1);
      if w(s.log) {
        assert Decided(Then(log1, PublishQueued(input.id))) == Decided(log1);
      }
    }
  }

  /**
    The queue drain empties the queue unless a call fails; it leaves the active attempt and the
    other barriers alone.
   */
  lemma {:induction false} QueuePendingEffect(w: World, s: State)
    ensures
      var r := QueuePending(w, s);
      && r.s.active == s.active && r.s.terminal == s.terminal && r.s.disabled == s.disabled
      && (!r.err ==> r.s.pending == [])
      && Decided(s.log) <= Decided(r.s.log)
    decreases |s.pending|
  {
    hide QueueFallback;
    if s.pending != [] {
      var t := s.(pending := s.pending[1..]);
      var r := QueueFallback(w, t, s.pending[0]);
      QueueFallbackEffect(w, t, s.pending[0]);
      if !r.err {
        QueuePendingEffect(w, r.s);
      }
    }
  }

  /** An expired attempt resolved as unknown is decided and leaves the machine at once, and nobody is left waiting. */
  lemma ExpiredSettles(w: World, s: State)
    requires MustHold(s) && s.active.value.deadlineExpired
    ensures
      var r := ResolveDisposition(w, s, AsUnknown);
      !r.err ==> r.s.active.None? && r.s.pending == [] && s.active.value.input.id in Decided(r.s.log)
  {
    hide QueuePending;
    var r := Decide(w, s, AsUnknown);
    if w(s.log) {
      var s1 := MarkResolved(r.s);
      assert s.active.value.input.id in Decided(s1.log);
      QueuePendingEffect(w, s1);
      var q := QueuePending(w, s1);
      if !q.err {
        ExpiredLeaves(w, Note(q.s, CancelSteer(s.active.value.serial)));
      }
    }
  }

  lemma ExpiredLeaves(w: World, s: State)
    requires s.active.Some? && s.active.value.resolved && s.active.value.deadlineExpired && (s.terminal || s.disabled)
    ensures
      var r := Retire(w, s, s.active.value.serial);
      r.s.active.None? && r.s.pending == s.pending && Decided(r.s.log) == Decided(s.log)
  {
  }

  lemma ExpiryKeeps(s: State, m: Memory)
    requires Core(s, m)
    ensures var t := s.(terminal := true); Core(t, m) && (t.active.Some? ==> Core(Expire(t), m))
  {
    hide LogInv, FifoInv, Clean;
    SameAttempt(s.log, m.n, m.h, s.pending, s.active, s.active, !Blocked(s), false);
    if s.active.Some? {
      SameAttempt(s.log, m.n, m.h, s.pending, s.active, Expire(s).active, !Blocked(s), false);
    }
  }

  /** What shutdown leaves behind when the state it was entered in is kept by `m`. */
  ghost predicate ShutDown(s: State, r: Ret, m: Memory) {
    && Sound(s, r, m)
    && ClockInv(r.s)
    && (Clean(r.s.log) ==> r.s.active.None? && r.s.pending == [])
    && r.s.terminal
  }

  lemma ShutdownKeeps(w: World, s: State, m: Memory)
    requires Core(s, m) && ClockInv(s)
    ensures ShutDown(s, Shutdown(w, s), m)
  {
    if s.active.None? {
      IdleShutdownKeeps(w, s, m);
    } else if s.active.value.resolved {
      ResolvedShutdownKeeps(w, s, m);
    } else {
      BusyShutdownKeeps(w, s, m);
    }
  }

  lemma IdleShutdownKeeps(w: World, s: State, m: Memory)
    requires Core(s, m) && ClockInv(s) && s.active.None?
    ensures ShutDown(s, Shutdown(w, s), m)
  {
    hide LogInv, FifoInv, Clean, CallInv, ResolveDisposition, Retire, QueuePending;
    ExpiryKeeps(s, m);
    QueuePendingKeeps(w, s.(terminal := true), m);
  }

  lemma ResolvedShutdownKeeps(w: World, s: State, m: Memory)
    requires Core(s, m) && ClockInv(s) && s.active.Some? && s.active.value.resolved
    ensures ShutDown(s, Shutdown(w, s), m)
  {
    hide LogInv, FifoInv, Clean, CallInv, ResolveDisposition, Retire, QueuePending;
    ExpiryKeeps(s, m);
    var s2 := Expire(s.(terminal := true));
    RetireKeeps(w, s2, s.active.value.serial, m);
    ExpiredLeaves(w, s2);
    QueuePendingKeeps(w, Retire(w, s2, s.active.value.serial).s, m);
  }

  lemma BusyShutdownKeeps(w: World, s: State, m: Memory)
    requires Core(s, m) && ClockInv(s) && s.active.Some? && !s.active.value.resolved
    ensures ShutDown(s, Shutdown(w, s), m)
  {
    hide LogInv, FifoInv, Clean, CallInv, ResolveDisposition, Retire, QueuePending;
    ExpiryKeeps(s, m);
    var s2 := Expire(s.(terminal := true));
    ResolveDispositionKeeps(w, s2, AsUnknown, m);
    ExpiredSettles(w, s2);
    QueuePendingKeeps(w, ResolveDisposition(w, s2, AsUnknown).s, m);
  }

  // ---------------------------------------------------------------- whole runs

  function MemoryOf(r: Run): Memory {
    Memory(r.accepted, r.handled, r.nextTag, |r.applied|, r.tidy, r.jumped)
  }

  ghost predicate Inv(r: Run) {
    && Core(r.s, MemoryOf(r))
    && ClockInv(r.s)
    && (r.tidy ==> Drained(r.s))
    && (r.tidy && Clean(r.s.log) ==> !r.jumped)
    && forall k :: 0 <= k < |r.applied| ==> r.applied[k] == (k, k)
  }

  lemma InitialInv(hasHook: bool, hasSteerer: bool, queued: seq<Input>)
    ensures Inv(Initial(hasHook, hasSteerer, queued))
  {
  }

  lemma StreamReadyKeeps(w: World, s: State, ordered: bool, m: Memory)
    requires Core(s, m) && ClockInv(s) && !s.streamKnown
    ensures
      var r := SetStream(w, s, ordered);
      && Sound(s, r, m)
      && ClockInv(r.s)
      && (Drained(s) ==> Drained(r.s))
  {
    hide LogInv, FifoInv, Clean, QueuePending, Pump;
    var s1 := s.(ordered := ordered, streamKnown := true);
    assert Core(s1, m);
    if ordered {
      PumpKeeps(w, s1, m);
    } else {
      QueuePendingKeeps(w, s1, m);
      var q := QueuePending(w, s1);
      if q.err {
        FaultKeeps(q.s, m);
      }
    }
  }

  /** An observation reaches the attempt it is about, or it is ignored. */
  lemma SteerSeenKeeps(w: World, s: State, tag: nat, result: SteerResult, err: CallError, m: Memory)
    requires Core(s, m) && ClockInv(s) && m.nextTag <= tag < s.started
    ensures
      var r := ObserveSteer(w, s, result, err);
      var m' := m.(nextTag := tag + 1, applied := m.applied + if MustHold(s) then 1 else 0);
      && Core(r.s, m')
      && (Clean(r.s.log) ==> Clean(s.log) && !r.err)
      && ClockInv(r.s)
      && (Drained(s) ==> Drained(r.s))
    ensures MustHold(s) ==> s.active.value.serial == tag == m.applied
  {
    hide LogInv, FifoInv, Clean, ResolveDisposition, Classify;
    if MustHold(s) {
      var b := WithObservation(s.active.value, result, err);
      var s1 := s.(active := Some(b));
      var m' := m.(nextTag := tag + 1, applied := m.applied + 1);
      SameAttempt(s.log, m.n, m.h, s.pending, s.active, s1.active, !Blocked(s), !Blocked(s));
      assert Core(s1, m');
      ResolveDispositionKeeps(w, s1, Classify(result, err), m');
    }
  }

  lemma TerminalFactKeeps(w: World, s: State, m: Memory)
    requires Core(s, m) && ClockInv(s)
    ensures
      var r := ObservePrompt(w, s);
      && Sound(s, r, m)
      && ClockInv(r.s)
      && Drained(r.s)
  {
    hide LogInv, FifoInv, Clean, ResolvePendingBeforeTerminal;
    var s1 := s.(terminal := true);
    SameAttempt(s.log, m.n, m.h, s.pending, s.active, s.active, !Blocked(s), false);
    assert Core(s1, m);
    ResolvePendingKeeps(w, s1, m);
  }

  lemma StepKeeps(w: World, r: Run, e: Event)
    requires Inv(r) && Enabled(r, e)
    ensures Inv(Step(w, r, e))
    ensures Clean(Step(w, r, e).s.log) ==> Clean(r.s.log) && !StepRet(w, r.s, e).err
  {
    hide LogInv, FifoInv, Clean, CallInv, SetStream, Offer, ObserveSteer, ResolvePendingBeforeTerminal,
         Complete, Timeout, DeadlineTimeout, Shutdown;
    var s, m := r.s, MemoryOf(r);
    match e
    case StreamReady(ordered) => StreamReadyKeeps(w, s, ordered, m);
    case InputOffered(input) => OfferKeeps(w, s, input, m);
    case SteerSeen(tag, result, err) => SteerSeenKeeps(w, s, tag, result, err, m);
    case PromptSeen => TerminalFactKeeps(w, s, m);
    case TerminalEvent => TerminalFactKeeps(w, s, m);
    case Completion(serial, result, err) => CompleteKeeps(w, s, serial, result, err, m);
    case TerminalClock => TimeoutKeeps(w, s, m);
    case DeadlineClock => DeadlineKeeps(w, s, m);
    case ShuttingDown => ShutdownKeeps(w, s, m);
    case QueueAppend(input) => LoopQueueKeeps(s, s.loopPending + [input], m, false);
    case QueueRemove(at) =>
      if at < |s.loopPending| {
        LoopQueueKeeps(s, s.loopPending[..at] + s.loopPending[at + 1..], m, m.tidy);
      }
    case UpdateSeen =>
  }

  /** The loop queue is not part of what the machine owes. */
  lemma LoopQueueKeeps(s: State, q: seq<Input>, m: Memory, tidy: bool)
    requires Core(s, m) && ClockInv(s) && (tidy ==> m.tidy)
    ensures Core(s.(loopPending := q), m.(tidy := tidy)) && ClockInv(s.(loopPending := q))
    ensures Drained(s) && (s.loopPending == [] ==> q == []) ==> Drained(s.(loopPending := q))
  {
    hide LogInv, FifoInv, Clean;
  }
}
