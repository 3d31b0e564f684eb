/** What the producer promises for every stream, every sink, every lock and every way a turn can end. */
module TurnProducerTheorems {
  import opened Options
  import opened TurnProducerModel

  /** The locks held; whether one ever was; the terminal handed over; the messages of accepted steps; the end. */
  datatype Facts = Facts(held: set<Lock>, ever: bool, terminal: Option<Ev>, steps: seq<nat>, sent: bool)

  function AddItem(f: Facts, item: Item, ok: bool): Facts {
    match item.event
    case Some(TurnDone) => f.(terminal := item.event)
    case Some(TurnFailed) => f.(terminal := item.event)
    case Some(StepDone(messages)) => if ok then f.(steps := f.steps + messages) else f
    case _ => f
  }

  function Add(f: Facts, d: Deed): Facts {
    match d
    case Asked(l, granted) => if granted then f.(held := f.held + {l}, ever := true) else f
    case Released(l) => f.(held := f.held - {l})
    case Spawned(_) => f
    case Handed(item, ok) => AddItem(f, item, ok)
    case Sent(_) => f.(sent := true)
  }

  function FactsOf(t: Trace): Facts {
    if t.Start? then Facts({}, false, None, [], false) else Add(FactsOf(t.past), t.deed)
  }

  predicate Legal(f: Facts, d: Deed) {
    match d
    case Released(l) => l in f.held && !f.sent
    case Sent(o) =>
      // nothing is held any more; the terminal tells the outcome; exactly the accepted steps are committed
      && f.held == {} && !f.sent
      && (o.success <==> f.terminal == Some(TurnDone))
      && (o.interrupted <==> f.terminal == None)
      && o.committed == f.steps
    case Asked(l, _) => (f.held != {} || !f.ever) && l !in f.held && f.terminal == None && !f.sent
    case Spawned(_) => f.held != {} && f.terminal == None && !f.sent
    case Handed(_, _) =>
      // a lock is held, unless none was ever granted; nothing follows a terminal
      (f.held != {} || !f.ever) && f.terminal == None && !f.sent
  }

  predicate Protocol(t: Trace) {
    t.Then? ==> Legal(FactsOf(t.past), t.deed) && Protocol(t.past)
  }

  lemma Unfold(t: Trace, d: Deed)
    ensures FactsOf(Then(t, d)) == Add(FactsOf(t), d)
    ensures Protocol(Then(t, d)) <==> Legal(FactsOf(t), d) && Protocol(t)
  {
  }

  /** A turn under way: it holds its one lock and has handed over no terminal. */
  ghost predicate Running(env: Env, s: State, steps: seq<nat>) {
    && Protocol(s.trace)
    && s.lock.Some? && FactsOf(s.trace) == Facts({s.lock.value}, true, None, steps, false)
    && (!env.sidBound && s.boundSid.None? ==> s.lock == Some(Temporary))
  }

  lemma HandKeeps(env: Env, s: State, steps: seq<nat>, item: Item)
    requires Running(env, s, steps)
    requires item.event.Some? ==> !item.event.value.Terminal() && !item.event.value.StepDone?
    ensures Running(env, Hand(env, s, item).s, steps)
  {
    hide FactsOf, Protocol;
    Unfold(s.trace, Handed(item, env.sink(s.handed)));
  }

  /** Gathering messages and flags changes nothing that matters here. */
  lemma GatherKeeps(env: Env, s: State, t: State, steps: seq<nat>)
    requires Running(env, s, steps) && t.trace == s.trace && t.lock == s.lock && t.boundSid == s.boundSid
    ensures Running(env, t, steps)
  {
  }

  lemma BindKeeps(env: Env, s: State, sid: nat, steps: seq<nat>)
    requires Running(env, s, steps) && s.lock == Some(Temporary)
    ensures Running(env, Bind(env, s.(boundSid := Some(sid)), sid).s, steps)
  {
    hide FactsOf, Protocol;
    var granted := env.locks(s.asked);
    Unfold(s.trace, Asked(Durable(sid), granted));
    if granted {
      Unfold(Then(s.trace, Asked(Durable(sid), true)), Released(Temporary));
      assert {Temporary} + {Durable(sid)} - {Temporary} == {Durable(sid)};
    } else {
    }
  }

  lemma ConsumeKeeps(env: Env, s: State, e: DriverEvent, raw: Option<nat>, steps: seq<nat>)
    requires Running(env, s, steps)
    ensures Running(env, Consume(env, s, e, raw).s, steps)
  {
    match e {
      case Init(sid) =>
        if !(s.terminal || sid.None? || env.sidBound || s.boundSid.Some?) {
          BindKeeps(env, s, sid.value, steps);
          var b := Bind(env, s.(boundSid := sid), sid.value);
          HandKeeps(env, b.s, steps, Item(raw, Some(SessionBound(sid.value))));
          hide Running, Hand, Bind;
          var h := Hand(env, b.s, Item(raw, Some(SessionBound(sid.value))));
          GatherKeeps(env, h.s, h.s.(bindErr := true), steps);
        }
      case Content(_) =>
        hide Running, Hand;
        HandKeeps(env, s, steps, Item(raw, Some(Mapped)));
      case _ =>
        hide Running;
        GatherKeeps(env, s, Consume(env, s, e, raw).s, steps);
    }
  }

  lemma DrainObservationKeeps(env: Env, s: State, o: Observed, at: nat, steps: seq<nat>)
    requires Running(env, s, steps)
    ensures Running(env, DrainObservation(env, s, o, at).s, steps)
  {
    hide Running, Hand, Consume;
    match o {
      case Update(e) =>
        var d := Consume(env, s, e, Some(at));
        ConsumeKeeps(env, s, e, Some(at), steps);
        HandKeeps(env, d.s, steps, Item(Some(at), None));
      case Prompt(m, failed) =>
        var t := s.(terminal := true, termErr := failed, assistant := Append(s.assistant, m));
        GatherKeeps(env, s, t, steps);
        HandKeeps(env, t, steps, Item(Some(at), None));
      case Steer => HandKeeps(env, s, steps, Item(Some(at), None));
      case Unknown =>
    }
  }

  lemma ValidatedKeeps(env: Env, s: State, steps: seq<nat>)
    requires Running(env, s, steps)
    ensures Running(env, Validated(env, s), steps) && Running(env, s.(stopped := true), steps)
  {
    hide Running;
    GatherKeeps(env, s, Validated(env, s), steps);
    GatherKeeps(env, s, s.(stopped := true), steps);
  }

  lemma {:induction false} DrainOrderedKeeps(env: Env, s: State, os: seq<Observed>, at: nat, steps: seq<nat>)
    requires Running(env, s, steps)
    ensures Running(env, DrainOrdered(env, s, os, at), steps)
    decreases |os|
  {
    hide Running, DrainObservation, Validated;
    ValidatedKeeps(env, s, steps);
    if os != [] {
      var d := DrainObservation(env, s, os[0], at);
      DrainObservationKeeps(env, s, os[0], at, steps);
      ValidatedKeeps(env, d.s, steps);
      if d.ok {
        DrainOrderedKeeps(env, d.s, os[1..], at + 1, steps);
      }
    }
  }

  lemma {:induction false} DrainLegacyKeeps(env: Env, s: State, es: seq<DriverEvent>, steps: seq<nat>)
    requires Running(env, s, steps)
    ensures Running(env, DrainLegacy(env, s, es), steps)
    decreases |es|
  {
    hide Running, Consume, Validated;
    ValidatedKeeps(env, s, steps);
    if es != [] {
      var d := Consume(env, s, es[0], None);
      ConsumeKeeps(env, s, es[0], None, steps);
      ValidatedKeeps(env, d.s, steps);
      if d.ok {
        DrainLegacyKeeps(env, d.s, es[1..], steps);
      }
    }
  }

  /** The drain hands over no terminal, whatever the stream says. */
  lemma DrainKeeps(env: Env, s: State, steps: seq<nat>)
    requires Running(env, s, steps)
    ensures Running(env, Drain(env, s), steps)
  {
    hide Running, DrainOrdered, DrainLegacy;
    match env.stream {
      case Ordered(os) => DrainOrderedKeeps(env, s, os, 0, steps);
      case Legacy(es) => DrainLegacyKeeps(env, s, es, steps);
    }
  }

  lemma {:induction false} CommitKeeps(env: Env, s: State, groups: seq<seq<nat>>, committed: seq<nat>)
    requires Running(env, s, committed)
    ensures
      var c := CommitGroups(env, s, groups, committed);
      Running(env, c.s, c.committed)
    decreases |groups|
  {
    hide FactsOf, Protocol;
    if groups != [] {
      var d := Hand(env, s, Item(None, Some(StepDone(groups[0]))));
      Unfold(s.trace, Handed(Item(None, Some(StepDone(groups[0]))), env.sink(s.handed)));
      if d.ok {
        CommitKeeps(env, d.s, groups[1..], committed + groups[0]);
      }
    }
  }

  /** The turn is over but for its lock and its outcome. */
  ghost predicate Ending(f: Finished) {
    var facts := FactsOf(f.s.trace);
    && Protocol(f.s.trace)
    && facts.held == (if f.s.lock.Some? then {f.s.lock.value} else {}) && !facts.sent
    && (f.outcome.success <==> facts.terminal == Some(TurnDone))
    && (f.outcome.interrupted <==> facts.terminal == None)
    && f.outcome.committed == facts.steps
  }

  lemma FailEnds(env: Env, s: State, o: Outcome, steps: seq<nat>)
    requires Running(env, s, steps) && o.committed == steps && !o.success && !o.interrupted
    ensures Ending(Fail(env, s, o))
  {
    hide FactsOf, Protocol;
    Unfold(s.trace, Handed(Item(None, Some(TurnFailed)), env.sink(s.handed)));
  }

  lemma DoneEnds(env: Env, s: State, o: Outcome, steps: seq<nat>)
    requires Running(env, s, steps) && o.committed == steps && o.success && !o.interrupted
    ensures Ending(Finished(Hand(env, s, Item(None, Some(TurnDone))).s, o))
  {
    hide FactsOf, Protocol;
    Unfold(s.trace, Handed(Item(None, Some(TurnDone)), env.sink(s.handed)));
  }

  lemma FinishTurnEnds(env: Env, s: State)
    requires Running(env, s, [])
    ensures Ending(FinishTurn(env, s))
  {
    var spawned := env.sidBound || s.boundSid.Some?;
    var groups := if env.history.Some? then env.history.value else Singly(s.assistant);
    var c := CommitGroups(env, s, groups, []);
    CommitKeeps(env, s, groups, []);
    if s.bindErr {
      FailEnds(env, s, Outcome([], false, false, spawned, s.boundSid), []);
    } else if env.canceled {
    } else if c.s.termErr || env.closeFails {
      FailEnds(env, c.s, Outcome(c.committed, false, false, spawned, s.boundSid), c.committed);
    } else {
      DoneEnds(env, c.s, Outcome(c.committed, true, false, spawned, s.boundSid), c.committed);
    }
  }

  lemma CloseKeeps(f: Finished)
    requires Ending(f)
    ensures Protocol(Close(f).trace)
  {
    hide FactsOf, Protocol;
    if f.s.lock.Some? {
      Unfold(f.s.trace, Released(f.s.lock.value));
      Unfold(Then(f.s.trace, Released(f.s.lock.value)), Sent(f.outcome));
    } else {
      Unfold(f.s.trace, Sent(f.outcome));
    }
  }

  lemma Begins(env: Env, lock: Lock)
    requires lock == if env.sidBound then Durable(env.sid) else Temporary
    ensures
      var a := Ask(env, FRESH, lock);
      if a.ok then Running(env, Note(a.s.(lock := Some(lock)), Spawned(env.spawns)), [])
      else Ending(Fail(env, a.s, NO_OUTCOME))
  {
    var a := Ask(env, FRESH, lock);
    assert FactsOf(Start) == Facts({}, false, None, [], false) && Protocol(Start);
    hide FactsOf, Protocol;
    Unfold(Start, Asked(lock, a.ok));
    if a.ok {
      Unfold(a.s.trace, Spawned(env.spawns));
    } else {
      Unfold(a.s.trace, Handed(Item(None, Some(TurnFailed)), env.sink(0)));
    }
  }

  /**
    Every turn: from its first lock until just before its outcome is sent a lock is held, the
    durable one taken before the temporary is let go; at most one terminal is handed over, and
    nothing after it; it is TurnDone exactly when the outcome is a success, and missing exactly
    when the turn was interrupted; what is committed is what the sink accepted, in order.
   */
  lemma TurnKeepsProtocol(env: Env)
    ensures Protocol(Drive(env).trace) && Drive(env).trace.Then? && Drive(env).trace.deed.Sent?
  {
    hide Protocol, FactsOf, Running, Ending, Drain, FinishTurn, Fail, Ask;
    var lock := if env.sidBound then Durable(env.sid) else Temporary;
    Begins(env, lock);
    var a := Ask(env, FRESH, lock);
    if !a.ok {
      CloseKeeps(Fail(env, a.s, NO_OUTCOME));
    } else {
      var s := Note(a.s.(lock := Some(lock)), Spawned(env.spawns));
      FailEnds(env, s, NO_OUTCOME, []);
      DrainKeeps(env, s, []);
      FinishTurnEnds(env, Drain(env, s));
      CloseKeeps(if env.spawns then FinishTurn(env, Drain(env, s)) else Fail(env, s, NO_OUTCOME));
    }
  }

  // ---------------------------------------------------------------- one item per observation

  /** The observations handed over, by their place in the stream. */
  function Raws(t: Trace): seq<nat> {
    if t.Start? then []
    else Raws(t.past) + (if t.deed.Handed? && t.deed.item.raw.Some? then [t.deed.item.raw.value] else [])
  }

  /** The places of the observations of a known kind. */
  function Known(os: seq<Observed>, at: nat): seq<nat>
    decreases |os|
  {
    if os == [] then [] else (if os[0].Unknown? then [] else [at]) + Known(os[1..], at + 1)
  }

  lemma HandsOne(env: Env, s: State, item: Item)
    ensures
      var d := Hand(env, s, item);
      d.s.handed == s.handed + 1 && d.ok == env.sink(s.handed)
      && Raws(d.s.trace) == Raws(s.trace) + (if item.raw.Some? then [item.raw.value] else [])
  {
  }

  lemma BindHandsNothing(env: Env, s: State, sid: nat)
    ensures Bind(env, s, sid).s.handed == s.handed && Raws(Bind(env, s, sid).s.trace) == Raws(s.trace)
  {
    var asked := Then(s.trace, Asked(Durable(sid), env.locks(s.asked)));
    assert Raws(asked) == Raws(s.trace);
    if s.lock.Some? {
      assert Raws(Then(asked, Released(s.lock.value))) == Raws(asked);
    }
  }

  /** An event is handed over once, with its observation, or not at all. */
  lemma ConsumeHandsAtMostOne(env: Env, s: State, e: DriverEvent, at: nat)
    ensures
      var d := Consume(env, s, e, Some(at));
      if d.s.handed == s.handed then d.ok && Raws(d.s.trace) == Raws(s.trace)
      else d.s.handed == s.handed + 1 && d.ok == env.sink(s.handed) && Raws(d.s.trace) == Raws(s.trace) + [at]
  {
    hide Hand, Bind, Raws;
    match e {
      case Init(sid) =>
        if sid.Some? {
          BindHandsNothing(env, s.(boundSid := sid), sid.value);
          HandsOne(env, Bind(env, s.(boundSid := sid), sid.value).s, Item(Some(at), Some(SessionBound(sid.value))));
        }
      case Content(_) => HandsOne(env, s, Item(Some(at), Some(Mapped)));
      case _ =>
    }
  }

  lemma ObservationYieldsOne(env: Env, s: State, o: Observed, at: nat)
    ensures
      var d := DrainObservation(env, s, o, at);
      if o.Unknown? then d == Did(s, true)
      else d.s.handed == s.handed + 1 && d.ok == env.sink(s.handed) && Raws(d.s.trace) == Raws(s.trace) + [at]
  {
    hide Hand, Consume, Raws;
    match o {
      case Update(e) =>
        ConsumeHandsAtMostOne(env, s, e, at);
        HandsOne(env, Consume(env, s, e, Some(at)).s, Item(Some(at), None));
      case Prompt(m, failed) =>
        HandsOne(env, s.(terminal := true, termErr := failed, assistant := Append(s.assistant, m)),
                 Item(Some(at), None));
      case Steer => HandsOne(env, s, Item(Some(at), None));
      case Unknown =>
    }
  }

  /** `n` of the known observations were handed over, in order: all of them, or up to a refused one. */
  predicate HandedOver(before: seq<nat>, known: seq<nat>, after: seq<nat>, n: int, stopped: bool) {
    && 0 <= n <= |known|
    && after == before + known[..n]
    && (if stopped then n > 0 else n == |known|)
  }

  lemma HandedNext(before: seq<nat>, at: nat, rest: seq<nat>, after: seq<nat>, n: int, stopped: bool)
    requires HandedOver(before + [at], rest, after, n, stopped)
    ensures HandedOver(before, [at] + rest, after, n + 1, stopped)
  {
    assert (before + [at]) + rest[..n] == before + ([at] + rest)[..n + 1];
  }

  lemma HandedLast(before: seq<nat>, at: nat, rest: seq<nat>)
    ensures HandedOver(before, [at] + rest, before + [at], 1, true)
  {
    assert ([at] + rest)[..1] == [at];
  }

  lemma HandedNone(before: seq<nat>)
    ensures HandedOver(before, [], before, 0, false)
  {
  }

  /**
    The ordered drain hands over exactly one item for each known observation, in order, up to and
    including the first one the sink refuses.
   */
  lemma {:induction false} OneItemPerObservation(env: Env, s: State, os: seq<Observed>, at: nat)
    requires !s.stopped
    ensures
      var t := DrainOrdered(env, s, os, at);
      HandedOver(Raws(s.trace), Known(os, at), Raws(t.trace), t.handed - s.handed, t.stopped)
    decreases |os|
  {
    ValidatedHandsNothing(env, s);
    hide DrainObservation, Raws, Validated, HandedOver;
    if os == [] {
      HandedNone(Raws(s.trace));
    } else {
      var d, rest := DrainObservation(env, s, os[0], at), Known(os[1..], at + 1);
      ObservationYieldsOne(env, s, os[0], at);
      DrainGoesOn(env, s, os[0], at);
      assert Known(os, at) == if os[0].Unknown? then rest else [at] + rest;
      if !d.ok {
        HandedLast(Raws(s.trace), at, rest);
      } else {
        OneItemPerObservation(env, d.s, os[1..], at + 1);
        var t := DrainOrdered(env, d.s, os[1..], at + 1);
        if !os[0].Unknown? {
          HandedNext(Raws(s.trace), at, rest, Raws(t.trace), t.handed - d.s.handed, t.stopped);
        }
      }
    }
  }

  /** The sink accepted everything it was handed, but for the item that stopped the drain. */
  lemma {:induction false} OnlyTheLastIsRefused(env: Env, s: State, os: seq<Observed>, at: nat)
    requires !s.stopped
    ensures
      var t := DrainOrdered(env, s, os, at);
      && t.handed >= s.handed
      && (t.stopped ==> t.handed > s.handed && !env.sink(t.handed - 1))
      && (forall k :: s.handed <= k < t.handed - (if t.stopped then 1 else 0) ==> env.sink(k))
    decreases |os|
  {
    ValidatedHandsNothing(env, s);
    hide DrainObservation, Raws, Validated;
    if os != [] {
      var d := DrainObservation(env, s, os[0], at);
      ObservationYieldsOne(env, s, os[0], at);
      DrainGoesOn(env, s, os[0], at);
      if d.ok {
        OnlyTheLastIsRefused(env, d.s, os[1..], at + 1);
      }
    }
  }

  lemma ValidatedHandsNothing(env: Env, s: State)
    ensures Validated(env, s).handed == s.handed && Validated(env, s).trace == s.trace
    ensures Validated(env, s).stopped == s.stopped
  {
  }

  lemma DrainGoesOn(env: Env, s: State, o: Observed, at: nat)
    ensures DrainObservation(env, s, o, at).s.stopped == s.stopped
  {
    hide Raws, Consume;
    if o.Update? {
      ConsumeGoesOn(env, s, o.event, Some(at));
    }
  }

  lemma ConsumeGoesOn(env: Env, s: State, e: DriverEvent, raw: Option<nat>)
    ensures Consume(env, s, e, raw).s.stopped == s.stopped
  {
    if e.Init? && e.sid.Some? {
      var b := Bind(env, s.(boundSid := e.sid), e.sid.value);
      assert b.s.stopped == s.stopped;
    }
  }
}
