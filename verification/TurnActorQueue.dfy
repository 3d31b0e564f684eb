/**
  The actor's queue over a whole turn: what enters it is what was queued before, what ordinary inputs
  append and what steering falls back on; what leaves it is canceled, one publication each.
 */
module TurnActorQueue {
  import opened Options
  import opened DriverContract
  import opened TurnActorModel
  import opened TurnActorTheorems
  import C = Calls
  import P = SteeringProgress
  import S = SteeringModel
  import R = SteeringRuns

  /** The cancellations the actor published, in order. */
  function CanceledIds(ps: seq<Publication>): seq<nat> {
    if ps == [] then []
    else
      var p := ps[|ps| - 1];
      CanceledIds(ps[..|ps| - 1]) + if p.origin.Own? && p.ok && p.event.Cancelled? then [p.event.id] else []
  }

  /** The ordinary inputs appended to the queue, in order. */
  function AppendedIds(events: seq<R.Event>): seq<nat> {
    if events == [] then []
    else
      var e := events[|events| - 1];
      AppendedIds(events[..|events| - 1]) + if e.QueueAppend? then [e.input.id] else []
  }

  /** What entered the queue is in it or was canceled, as often. */
  predicate Tallies(queued: seq<nat>, appended: seq<nat>, sent: seq<nat>, here: seq<nat>, canceled: seq<nat>) {
    multiset(queued) + multiset(appended) + multiset(sent) == multiset(here) + multiset(canceled)
  }

  predicate Accounted(queued: seq<nat>, s: State) {
    Tallies(queued, AppendedIds(s.events), P.Sent(s.m.log), P.Ids(s.m.loopPending), CanceledIds(s.published))
  }

  lemma SentTallies(
    queued: seq<nat>, appended: seq<nat>, sent: seq<nat>, here: seq<nat>, canceled: seq<nat>, more: seq<nat>)
    requires Tallies(queued, appended, sent, here, canceled)
    ensures Tallies(queued, appended, sent + more, here + more, canceled)
  {
    var before := multiset(queued) + multiset(appended) + multiset(sent);
    assert multiset(queued) + multiset(appended) + multiset(sent + more) == before + multiset(more);
    assert multiset(here + more) + multiset(canceled) == before + multiset(more);
  }

  lemma AppendTallies(
    queued: seq<nat>, appended: seq<nat>, sent: seq<nat>, here: seq<nat>, canceled: seq<nat>, id: nat)
    requires Tallies(queued, appended, sent, here, canceled)
    ensures Tallies(queued, appended + [id], sent, here + [id], canceled)
  {
    var before := multiset(queued) + multiset(appended) + multiset(sent);
    assert multiset(queued) + multiset(appended + [id]) + multiset(sent) == before + multiset{id};
    assert multiset(here + [id]) + multiset(canceled) == before + multiset{id};
  }

  lemma CancelTallies(
    queued: seq<nat>, appended: seq<nat>, sent: seq<nat>, here: seq<nat>, canceled: seq<nat>, i: nat)
    requires Tallies(queued, appended, sent, here, canceled) && i < |here|
    ensures Tallies(queued, appended, sent, here[..i] + here[i + 1..], canceled + [here[i]])
  {
    assert here == here[..i] + [here[i]] + here[i + 1..];
  }

  lemma SnocOf<T>(q: seq<T>, x: T)
    ensures (q + [x])[..|q + [x]| - 1] == q && (q + [x])[|q + [x]| - 1] == x
  {
  }

  // ---------------------------------------------------------------- the steps

  lemma StillAccounted(queued: seq<nat>, s: State, t: State)
    requires Accounted(queued, s) && t.events == s.events && t.published == s.published
    requires t.m.log == s.m.log && t.m.loopPending == s.m.loopPending
    ensures Accounted(queued, t)
  {
  }

  lemma EventAppends(events: seq<R.Event>, e: R.Event)
    ensures AppendedIds(events + [e]) == AppendedIds(events) + if e.QueueAppend? then [e.input.id] else []
  {
    SnocOf(events, e);
  }

  lemma PublicationCancels(ps: seq<Publication>, p: Publication)
    ensures
      CanceledIds(ps + [p]) ==
        CanceledIds(ps) + if p.origin.Own? && p.ok && p.event.Cancelled? then [p.event.id] else []
  {
    SnocOf(ps, p);
  }

  lemma LiftAccounted(queued: seq<nat>, env: Env, s: State, e: R.Event)
    requires Accounted(queued, s) && !e.QueueAppend? && !e.QueueRemove?
    ensures Accounted(queued, Lift(env, s, e).s)
  {
    hide P.Sent, P.Ids, P.Whole, P.Pumped, R.StepRet, AppendedIds, CanceledIds, Tallies;
    var t := Lift(env, s, e).s;
    EventAppends(s.events, e);
    assert AppendedIds(t.events) == AppendedIds(s.events) + [] == AppendedIds(s.events);
    P.StepCarries(env.world, s.m, e);
    assert t.m == R.StepRet(env.world, s.m, e).s && t.published == s.published;
    hide Lift;
    var sent, here, appended := P.Sent(s.m.log), P.Ids(s.m.loopPending), AppendedIds(s.events);
    var more := P.Sent(t.m.log)[|sent|..];
    assert P.Sent(t.m.log) == sent + more;
    SentTallies(queued, appended, sent, here, CanceledIds(s.published), more);
  }

  lemma AppendAccounted(queued: seq<nat>, env: Env, s: State, input: S.Input)
    requires Accounted(queued, s)
    ensures Accounted(queued, Lift(env, s, R.QueueAppend(input)).s)
  {
    var t := Lift(env, s, R.QueueAppend(input)).s;
    EventAppends(s.events, R.QueueAppend(input));
    IdsWith(s.m.loopPending, input);
    hide P.Sent, P.Ids, AppendedIds, CanceledIds, Tallies;
    assert t.m.loopPending == s.m.loopPending + [input] && t.m.log == s.m.log && t.published == s.published;
    assert t.events == s.events + [R.QueueAppend(input)];
    hide Lift;
    var here := P.Ids(s.m.loopPending);
    AppendTallies(queued, AppendedIds(s.events), P.Sent(s.m.log), here, CanceledIds(s.published), input.id);
  }

  /** A publication that cancels nothing. */
  lemma PublishAccounted(queued: seq<nat>, env: Env, s: State, ev: Ev, origin: Source)
    requires Accounted(queued, s) && (origin.Own? && ev.Cancelled? ==> Publish(env, s, ev, origin).err)
    ensures Accounted(queued, Publish(env, s, ev, origin).s)
  {
    var p := Publication(ev, env.pubs(|s.published|), Settled(s.m), origin);
    PublicationCancels(s.published, p);
    assert CanceledIds(s.published + [p]) == CanceledIds(s.published) + [] == CanceledIds(s.published);
    hide P.Sent, P.Ids, AppendedIds, Settled, CanceledIds, Tallies;
  }

  lemma IdsWith(q: seq<S.Input>, input: S.Input)
    ensures P.Ids(q + [input]) == P.Ids(q) + [input.id]
  {
  }

  lemma IdsWithout(q: seq<S.Input>, i: nat)
    requires i < |q|
    ensures P.Ids(q)[i] == q[i].id && P.Ids(q[..i] + q[i + 1..]) == P.Ids(q)[..i] + P.Ids(q)[i + 1..]
  {
  }

  /** A queued input is canceled: published, then taken out. */
  lemma CancelAccounted(queued: seq<nat>, env: Env, s: State, i: nat)
    requires Accounted(queued, s) && i < |s.m.loopPending|
    ensures
      var d := Publish(env, s, Cancelled(s.m.loopPending[i].id), Own);
      if d.err then Accounted(queued, d.s) else Accounted(queued, Lift(env, d.s, R.QueueRemove(i)).s)
  {
    var id := s.m.loopPending[i].id;
    var d := Publish(env, s, Cancelled(id), Own);
    if d.err {
      PublishAccounted(queued, env, s, Cancelled(id), Own);
      hide Accounted, Publish, Lift;
    } else {
      RemoveAccounted(queued, env, s, i);
      hide Accounted, Publish, Lift;
    }
  }

  lemma RemoveAccounted(queued: seq<nat>, env: Env, s: State, i: nat)
    requires Accounted(queued, s) && i < |s.m.loopPending|
    requires !Publish(env, s, Cancelled(s.m.loopPending[i].id), Own).err
    ensures Accounted(queued, Lift(env, Publish(env, s, Cancelled(s.m.loopPending[i].id), Own).s, R.QueueRemove(i)).s)
  {
    var id := s.m.loopPending[i].id;
    var d := Publish(env, s, Cancelled(id), Own);
    var t := Lift(env, d.s, R.QueueRemove(i)).s;
    var p := Publication(Cancelled(id), true, Settled(s.m), Own);
    assert t.published == s.published + [p] && t.events == s.events + [R.QueueRemove(i)] && t.m.log == s.m.log;
    assert t.m.loopPending == s.m.loopPending[..i] + s.m.loopPending[i + 1..];
    PublicationCancels(s.published, p);
    EventAppends(s.events, R.QueueRemove(i));
    IdsWithout(s.m.loopPending, i);
    hide P.Sent, P.Ids, AppendedIds, Settled, CanceledIds, Tallies, Publish, Lift;
    var appended, here, canceled := AppendedIds(s.events), P.Ids(s.m.loopPending), CanceledIds(s.published);
    assert AppendedIds(t.events) == appended + [] == appended;
    assert |here| == |s.m.loopPending| by {
      IdsLength(s.m.loopPending);
    }
    CancelTallies(queued, appended, P.Sent(s.m.log), here, canceled, i);
  }

  lemma IdsLength(q: seq<S.Input>)
    ensures |P.Ids(q)| == |q|
  {
  }

  lemma {:induction false} CancelPendingAccounted(queued: seq<nat>, env: Env, s: State)
    requires Accounted(queued, s)
    ensures Accounted(queued, CancelPending(env, s).s)
    decreases |s.m.loopPending|
  {
    if s.m.loopPending != [] {
      var d := Publish(env, s, Cancelled(s.m.loopPending[0].id), Own);
      assert d.s.m == s.m && |Lift(env, d.s, R.QueueRemove(0)).s.m.loopPending| < |s.m.loopPending|;
      hide Accounted, Publish, Lift;
      CancelAccounted(queued, env, s, 0);
      if !d.err {
        CancelPendingAccounted(queued, env, Lift(env, d.s, R.QueueRemove(0)).s);
      }
    }
  }

  lemma CleanupAccounted(queued: seq<nat>, s: State, t: State)
    requires Accounted(queued, s) && t.m == S.Cleanup(s.m) && t.events == s.events && t.published == s.published
    ensures Accounted(queued, t)
  {
    assert P.Sent(t.m.log) == P.Sent(s.m.log) + [] == P.Sent(s.m.log) && t.m.loopPending == s.m.loopPending;
    hide P.Sent, P.Ids, AppendedIds, CanceledIds, S.Cleanup, Tallies;
  }

  lemma LeaveAccounted(queued: seq<nat>, env: Env, s: State, exit: bool)
    requires Accounted(queued, s)
    ensures Accounted(queued, Leave(env, s, exit))
  {
    LiftAccounted(queued, env, s, R.ShuttingDown);
    CleanupAccounted(queued, Lift(env, s, R.ShuttingDown).s, Leave(env, s, exit));
    hide Accounted, Lift, S.Cleanup;
  }

  lemma OrLeaveAccounted(queued: seq<nat>, env: Env, d: Did)
    requires Accounted(queued, d.s)
    ensures Accounted(queued, OrLeave(env, d))
  {
    LeaveAccounted(queued, env, d.s, true);
    hide Accounted, Leave;
  }

  // ---------------------------------------------------------------- the operations

  lemma ObserveAccounted(queued: seq<nat>, env: Env, s: State, raw: Raw)
    requires Accounted(queued, s)
    ensures Accounted(queued, Observe(env, s, raw).s)
  {
    hide Accounted, Lift;
    match raw {
      case RawSteer(tag, result, err) => LiftAccounted(queued, env, s, R.SteerSeen(tag, result, err));
      case RawPrompt => LiftAccounted(queued, env, s, R.PromptSeen);
      case _ =>
    }
  }

  lemma ProcessTerminalAccounted(queued: seq<nat>, env: Env, s: State, ev: Ev, publish: bool)
    requires Accounted(queued, s)
    ensures Accounted(queued, ProcessTerminal(env, s, ev, publish).s)
  {
    hide Accounted, Lift, Publish;
    var d := Lift(env, s, R.TerminalEvent);
    LiftAccounted(queued, env, s, R.TerminalEvent);
    StillAccounted(queued, d.s, Hold(d.s, ev));
    hide Hold;
    PublishAccounted(queued, env, d.s, ev, FromTurn);
  }

  lemma ProcessAccounted(queued: seq<nat>, env: Env, s: State, o: Observation, publish: bool)
    requires Accounted(queued, s)
    ensures Accounted(queued, Process(env, s, o, publish).s)
  {
    var s0 := s.(book := Booked(s.book, o.event, publish));
    StillAccounted(queued, s, s0);
    hide Accounted, Observe, ProcessTerminal, Publish, Booked;
    ObserveAccounted(queued, env, s0, o.raw);
    var d := Observe(env, s0, o.raw);
    if !d.err && o.event.Some? {
      if o.event.value.Terminal() {
        ProcessTerminalAccounted(queued, env, d.s, o.event.value, publish);
      } else {
        PublishAccounted(queued, env, d.s, o.event.value, if publish then FromTurn else FromDrain);
      }
    }
  }

  lemma {:induction false} ProcessAllAccounted(queued: seq<nat>, env: Env, s: State, os: seq<Observation>)
    requires Accounted(queued, s)
    ensures Accounted(queued, ProcessAll(env, s, os).s)
    decreases |os|
  {
    hide Accounted, Process;
    if os != [] {
      ProcessAccounted(queued, env, s, os[0], true);
      ProcessAllAccounted(queued, env, Process(env, s, os[0], true).s, os[1..]);
    }
  }

  lemma TakeAccounted(queued: seq<nat>, env: Env, s: State, e: Evidence, publish: bool, capture: bool)
    requires Accounted(queued, s)
    ensures Accounted(queued, Take(env, s, e, publish, capture).s)
  {
    hide Process, Lift;
    match e {
      case Seen(o) =>
        hide Accounted;
        ProcessAccounted(queued, env, s, o, publish);
      case Completes(serial, result, err) =>
        hide Accounted;
        LiftAccounted(queued, env, s, R.Completion(serial, result, err));
      case _ =>
        StillAccounted(queued, s, Take(env, s, e, publish, capture).s);
        hide Accounted;
    }
  }

  lemma {:induction false} TakeAllAccounted(
    queued: seq<nat>, env: Env, s: State, es: seq<Evidence>, publish: bool, capture: bool)
    requires Accounted(queued, s)
    ensures Accounted(queued, TakeAll(env, s, es, publish, capture).s)
    decreases |es|
  {
    hide Accounted, Take;
    if es != [] {
      TakeAccounted(queued, env, s, es[0], publish, capture);
      TakeAllAccounted(queued, env, Take(env, s, es[0], publish, capture).s, es[1..], publish, capture);
    }
  }

  lemma AwaitAccounted(queued: seq<nat>, env: Env, s: State, next: Wait, capture: bool)
    requires Accounted(queued, s)
    ensures Accounted(queued, Await(env, s, next, capture).s)
  {
    hide Accounted, Take, TakeAll, Lift;
    match next {
      case Fact(e) => TakeAccounted(queued, env, s, e, false, capture);
      case TerminalFires(ready) =>
        TakeAllAccounted(queued, env, s, ready, false, capture);
        LiftAccounted(queued, env, TakeAll(env, s, ready, false, capture).s, R.TerminalClock);
      case DeadlineFires(ready) =>
        TakeAllAccounted(queued, env, s, ready, false, capture);
        LiftAccounted(queued, env, TakeAll(env, s, ready, false, capture).s, R.DeadlineClock);
      case OutcomeWaitFires =>
    }
  }

  lemma {:induction false} RoundsAccounted(
    queued: seq<nat>, env: Env, s: State, rounds: seq<Round>, wait: bool, capture: bool)
    requires Accounted(queued, s)
    ensures Accounted(queued, Rounds(env, s, rounds, wait, capture).s)
    decreases |rounds|
  {
    hide Accounted, TakeAll, Await, DrainDone;
    if rounds != [] {
      var d := TakeAll(env, s, rounds[0].ready, false, capture);
      TakeAllAccounted(queued, env, s, rounds[0].ready, false, capture);
      AwaitAccounted(queued, env, d.s, rounds[0].next, capture);
      RoundsAccounted(queued, env, Await(env, d.s, rounds[0].next, capture).s, rounds[1..], wait, capture);
    }
  }

  lemma DrainAccounted(queued: seq<nat>, env: Env, s: State, rounds: seq<Round>, capture: bool)
    requires Accounted(queued, s)
    ensures Accounted(queued, Drain(env, s, rounds, capture).s)
  {
    var s0 := s.(book := s.book.(drained := true));
    StillAccounted(queued, s, s0);
    hide Accounted, Lift, Rounds;
    LiftAccounted(queued, env, s0, R.TerminalEvent);
    var d := Lift(env, s0, R.TerminalEvent);
    RoundsAccounted(queued, env, d.s, rounds, d.s.m.active.None? && !d.s.m.disabled, capture);
  }

  lemma ConcludeAccounted(queued: seq<nat>, env: Env, s: State, o: TurnOutcome)
    requires Accounted(queued, s)
    ensures Accounted(queued, Conclude(env, s, o))
  {
    hide Accounted, Publish, CancelPending, Lift, Leave;
    var d := if o.interrupted then Publish(env, s, Interrupted, Own) else Did(s, false);
    PublishAccounted(queued, env, s, Interrupted, Own);
    LeaveAccounted(queued, env, d.s, true);
    CancelPendingAccounted(queued, env, d.s);
    var c := if !o.success && !o.interrupted then CancelPending(env, d.s) else d;
    LiftAccounted(queued, env, c.s, R.ShuttingDown);
    var r := Lift(env, c.s, R.ShuttingDown);
    LeaveAccounted(queued, env, r.s, c.err || r.err);
  }

  lemma HeadAccounted(queued: seq<nat>, env: Env, s: State)
    requires Accounted(queued, s)
    ensures Accounted(queued, Head(env, s))
  {
    if S.TerminalReady(s.m) {
      var d := if s.hold.Some? then Publish(env, s, s.hold.value, FromTurn) else Did(s, false);
      if s.hold.Some? {
        PublishAccounted(queued, env, s, s.hold.value, FromTurn);
      }
      var t := d.s.(hold := None);
      StillAccounted(queued, d.s, t);
      hide Accounted, Publish, Leave, Conclude;
      LeaveAccounted(queued, env, d.s, true);
      if t.outcome.Some? {
        ConcludeAccounted(queued, env, t, t.outcome.value);
      }
    }
  }

  lemma CancelTurnAccounted(queued: seq<nat>, env: Env, s: State, rounds: seq<Round>, queueToo: bool)
    requires Accounted(queued, s)
    ensures Accounted(queued, CancelTurn(env, s, rounds, queueToo))
  {
    var d := Drain(env, s, rounds, true);
    DrainAccounted(queued, env, s, rounds, true);
    StillAccounted(queued, d.s, d.s.(cut := true));
    hide Accounted, Drain, Publish, CancelPending, Leave;
    PublishAccounted(queued, env, d.s, Interrupted, Own);
    var p := Publish(env, d.s, Interrupted, Own);
    LeaveAccounted(queued, env, d.s, true);
    LeaveAccounted(queued, env, p.s, true);
    CancelPendingAccounted(queued, env, p.s);
    var c := if queueToo then CancelPending(env, p.s) else p;
    LeaveAccounted(queued, env, c.s, c.err);
  }

  lemma StopTurnAccounted(queued: seq<nat>, env: Env, s: State, rounds: seq<Round>, queueToo: bool)
    requires Accounted(queued, s)
    ensures Accounted(queued, StopTurn(env, s, rounds, queueToo))
  {
    var d := Drain(env, s, rounds, false);
    DrainAccounted(queued, env, s, rounds, false);
    StillAccounted(queued, d.s, d.s.(cut := true));
    hide Accounted, Drain, Lift, CancelPending, Leave;
    LeaveAccounted(queued, env, d.s, true);
    LiftAccounted(queued, env, d.s, R.ShuttingDown);
    var r := Lift(env, d.s, R.ShuttingDown);
    LeaveAccounted(queued, env, r.s, true);
    CancelPendingAccounted(queued, env, r.s);
    LeaveAccounted(queued, env, CancelPending(env, r.s).s, true);
  }

  lemma AcceptInputAccounted(queued: seq<nat>, env: Env, s: State, input: S.Input, prepared: bool)
    requires Accounted(queued, s)
    ensures Accounted(queued, AcceptInput(env, s, input, prepared))
  {
    hide Accounted, Publish, Lift, OrLeave;
    PublishAccounted(queued, env, s, Rejected(input.id), Own);
    OrLeaveAccounted(queued, env, Publish(env, s, Rejected(input.id), Own));
    LiftAccounted(queued, env, s, R.InputOffered(input));
    var d := Lift(env, s, R.InputOffered(input));
    OrLeaveAccounted(queued, env, d);
    AppendAccounted(queued, env, d.s, input);
  }

  lemma CancelQueuedAccounted(queued: seq<nat>, env: Env, s: State, i: nat)
    requires Accounted(queued, s) && i < |s.m.loopPending|
    ensures Accounted(queued, CancelQueued(env, s, i))
  {
    hide Accounted, Publish, Lift, Leave;
    CancelAccounted(queued, env, s, i);
    var d := Publish(env, s, Cancelled(s.m.loopPending[i].id), Own);
    if d.err {
      LeaveAccounted(queued, env, d.s, true);
    }
  }

  lemma HandleAccounted(queued: seq<nat>, env: Env, s: State, c: Command)
    requires Accounted(queued, s)
    ensures Accounted(queued, Handle(env, s, c))
  {
    hide Accounted, AcceptInput, CancelQueued, CancelTurn, StopTurn;
    match c {
      case UserInput(input, prepared) => AcceptInputAccounted(queued, env, s, input, prepared);
      case CancelDelegate(target, rounds) =>
        var i := Find(s.m.loopPending, target);
        if i < |s.m.loopPending| {
          CancelQueuedAccounted(queued, env, s, i);
        }
        CancelTurnAccounted(queued, env, s, rounds, false);
      case Interrupt(rounds) => CancelTurnAccounted(queued, env, s, rounds, true);
      case ShutDown(rounds) => StopTurnAccounted(queued, env, s, rounds, true);
      case OtherCommand =>
    }
  }

  lemma FireAccounted(queued: seq<nat>, env: Env, s: State, ready: seq<Evidence>, deadline: bool)
    requires Accounted(queued, s)
    ensures Accounted(queued, Fire(env, s, ready, deadline).s)
  {
    hide Accounted, TakeAll, Lift;
    TakeAllAccounted(queued, env, s, ready, true, true);
    var d := TakeAll(env, s, ready, true, true);
    LiftAccounted(queued, env, d.s, R.DeadlineClock);
    LiftAccounted(queued, env, d.s, R.TerminalClock);
  }

  lemma ResultAccounted(queued: seq<nat>, env: Env, s: State, outcome: TurnOutcome, rest: seq<Observation>)
    requires Accounted(queued, s)
    ensures Accounted(queued, Select(env, s, Result(outcome, rest)))
  {
    var t := s.(outcome := Some(outcome), resultOpen := false);
    var u := t.(mailboxOpen := false);
    StillAccounted(queued, s, t);
    StillAccounted(queued, s, u);
    hide Accounted, ProcessAll, OrLeave;
    ProcessAllAccounted(queued, env, u, rest);
    OrLeaveAccounted(queued, env, ProcessAll(env, u, rest));
  }

  lemma SelectAccounted(queued: seq<nat>, env: Env, s: State, p: Pick)
    requires Accounted(queued, s)
    ensures Accounted(queued, Select(env, s, p))
  {
    hide Accounted, Lift, Take, Fire, Handle, StopTurn, OrLeave;
    match p {
      case Result(outcome, rest) =>
        ResultAccounted(queued, env, s, outcome, rest);
        hide Select;
      case StreamReady(ordered) =>
        LiftAccounted(queued, env, s, R.StreamReady(ordered));
        OrLeaveAccounted(queued, env, Lift(env, s, R.StreamReady(ordered)));
      case Arrives(e) =>
        TakeAccounted(queued, env, s, e, true, true);
        OrLeaveAccounted(queued, env, Take(env, s, e, true, true));
      case TerminalClock(ready) =>
        FireAccounted(queued, env, s, ready, false);
        OrLeaveAccounted(queued, env, Fire(env, s, ready, false));
      case DeadlineClock(ready) =>
        FireAccounted(queued, env, s, ready, true);
        OrLeaveAccounted(queued, env, Fire(env, s, ready, true));
      case Ordered(c) => HandleAccounted(queued, env, s, c);
      case LoopDone(rounds) => StopTurnAccounted(queued, env, s, rounds, false);
    }
  }

  lemma {:induction false} RunAccounted(queued: seq<nat>, env: Env, s: State, picks: seq<Pick>)
    requires Accounted(queued, s)
    ensures Accounted(queued, RunOf(env, s, picks))
    decreases |picks|
  {
    hide Accounted, Head, Select;
    if picks != [] {
      HeadAccounted(queued, env, s);
      SelectAccounted(queued, env, Head(env, s), picks[0]);
      RunAccounted(queued, env, Trip(env, s, picks[0]), picks[1..]);
    }
  }

  /**
    At every moment of every turn, failures included: the inputs that were queued when it began, those
    it appended and those steering sent to the queue are, taken together, exactly those in the queue now
    and those whose cancellation was published.
   */
  lemma QueueIsAccountedFor(env: Env, hasHook: bool, hasSteerer: bool, queued: seq<S.Input>, picks: seq<Pick>)
    ensures Accounted(P.Ids(queued), Turn(env, hasHook, hasSteerer, queued, picks))
  {
    assert Accounted(P.Ids(queued), Begin(hasHook, hasSteerer, queued));
    RunAccounted(P.Ids(queued), env, Begin(hasHook, hasSteerer, queued), picks);
  }
}
