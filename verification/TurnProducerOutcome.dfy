/**
  What a turn comes to, from the stream and the answers of its surroundings alone: when it is a
  success, and which messages it hands over to be committed.
 */
module TurnProducerOutcome {
  import opened Options
  import opened TurnProducerModel

  // ---------------------------------------------------------------- what a stream says

  /** The stream as observations; a legacy event stands for an update. */
  function Updates(es: seq<DriverEvent>): seq<Observed> {
    seq(|es|, i requires 0 <= i < |es| => Update(es[i]))
  }

  function InputsOf(env: Env): seq<Observed> {
    match env.stream
    case Ordered(os) => os
    case Legacy(es) => Updates(es)
  }

  function MessageOf(o: Observed): seq<nat> {
    match o
    case Prompt(Some(m), _) => [m]
    case Update(StepComplete(Some(m))) => [m]
    case Update(TerminalOK(Some(m))) => [m]
    case _ => []
  }

  /** The assistant's messages, in order. */
  function MessagesOf(p: seq<Observed>): seq<nat> {
    if p == [] then [] else MessagesOf(p[..|p| - 1]) + MessageOf(p[|p| - 1])
  }

  predicate IsTerminal(o: Observed) {
    o.Prompt? || (o.Update? && (o.event.TerminalOK? || o.event.TerminalError?))
  }

  /** The turn's provider said that it is over. */
  predicate Ends(p: seq<Observed>) {
    p != [] && (Ends(p[..|p| - 1]) || IsTerminal(p[|p| - 1]))
  }

  /** The last prompt result or terminal error reports a failure; a terminal success takes nothing back. */
  predicate Fails(p: seq<Observed>) {
    p != [] &&
      match p[|p| - 1]
      case Prompt(_, failed) => failed
      case Update(TerminalError) => true
      case _ => Fails(p[..|p| - 1])
  }

  /** The observation names the session, after `p`: the first to do so, before the end, of a turn without one. */
  predicate Names(env: Env, p: seq<Observed>, o: Observed) {
    o.Update? && o.event.Init? && o.event.sid.Some? && !env.sidBound && SessionOf(env, p).None? && !Ends(p)
  }

  function SessionOf(env: Env, p: seq<Observed>): Option<nat>
    decreases |p|, 0
  {
    if p == [] then None
    else
      var front, o := p[..|p| - 1], p[|p| - 1];
      if SessionOf(env, front).Some? then SessionOf(env, front)
      else if o.Update? && o.event.Init? && !env.sidBound && !Ends(front) then o.event.sid
      else None
  }

  // ---------------------------------------------------------------- what the sink hears of it

  /** An ordered observation of a known kind is handed over; a legacy event if it maps or names the session. */
  predicate Hands(env: Env, p: seq<Observed>, o: Observed) {
    if env.stream.Ordered? then !o.Unknown? else Names(env, p, o) || o == Update(Content(true))
  }

  function ItemsOf(env: Env, p: seq<Observed>): nat {
    if p == [] then 0 else ItemsOf(env, p[..|p| - 1]) + if Hands(env, p[..|p| - 1], p[|p| - 1]) then 1 else 0
  }

  predicate Refused(env: Env, p: seq<Observed>, o: Observed) {
    Hands(env, p, o) && !env.sink(ItemsOf(env, p))
  }

  /** The event that the observation yields, after `p`. */
  function EventFor(env: Env, p: seq<Observed>, o: Observed): seq<Ev> {
    if Names(env, p, o) then [SessionBound(o.event.sid.value)] else if o == Update(Content(true)) then [Mapped] else []
  }

  function EventsFor(env: Env, p: seq<Observed>): seq<Ev> {
    if p == [] then [] else EventsFor(env, p[..|p| - 1]) + EventFor(env, p[..|p| - 1], p[|p| - 1])
  }

  /** The sink refused something of it. */
  predicate Halted(env: Env, p: seq<Observed>) {
    p != [] && (Halted(env, p[..|p| - 1]) || Refused(env, p[..|p| - 1], p[|p| - 1]))
  }

  /** The part of it that is drained: up to the first item the sink refuses. */
  function Heard(env: Env, p: seq<Observed>): seq<Observed> {
    if p == [] || !Halted(env, p[..|p| - 1]) then p else Heard(env, p[..|p| - 1])
  }

  /** The session was named and announced, and its lock was not to be had; it is the second lock asked for. */
  predicate BindingFailed(env: Env, p: seq<Observed>) {
    p != [] &&
      var front, o := p[..|p| - 1], p[|p| - 1];
      BindingFailed(env, front) || (Names(env, front, o) && !env.locks(1) && !Refused(env, front, o))
  }

  /** The turn is a success. */
  predicate Succeeds(env: Env) {
    var inputs := InputsOf(env);
    var h := Heard(env, inputs);
    && env.locks(0) && env.spawns && !env.closeFails && !env.canceled
    && !BindingFailed(env, h)
    && (Halted(env, inputs) || (Ends(h) && (env.sidBound || SessionOf(env, h).Some?)))
    && !Fails(h)
  }

  /** The turn got as far as committing. */
  predicate Commits(env: Env) {
    env.locks(0) && env.spawns && !env.canceled && !BindingFailed(env, Heard(env, InputsOf(env)))
  }

  /** The transcript if there is one, and otherwise the assistant's messages one by one. */
  function GroupsOf(env: Env): seq<seq<nat>> {
    if env.history.Some? then env.history.value
    else
      var messages := MessagesOf(Heard(env, InputsOf(env)));
      seq(|messages|, i requires 0 <= i < |messages| => [messages[i]])
  }

  // ---------------------------------------------------------------- the drain

  /** The events of the turn under way that were handed over, accepted or not. */
  function EventsOf(t: Trace): seq<Ev> {
    if t.Start? then []
    else
      EventsOf(t.past) +
        match t.deed
        case Handed(Item(_, Some(SessionBound(sid))), _) => [SessionBound(sid)]
        case Handed(Item(_, Some(Mapped)), _) => [Mapped]
        case _ => []
  }

  /** The groups handed over to be committed, accepted or not. */
  function StepsOf(t: Trace): seq<seq<nat>> {
    if t.Start? then []
    else
      StepsOf(t.past) +
        match t.deed
        case Handed(Item(_, Some(StepDone(messages))), _) => [messages]
        case _ => []
  }

  /** What was gathered is what the part heard so far says. */
  predicate Gathers(env: Env, s: State, p: seq<Observed>) {
    && s.assistant == MessagesOf(p) && s.terminal == Ends(p) && s.termErr == Fails(p)
    && s.boundSid == SessionOf(env, p) && s.bindErr == BindingFailed(env, p)
    && StepsOf(s.trace) == [] && EventsOf(s.trace) == EventsFor(env, p)
    && s.handed == ItemsOf(env, p) && s.asked == 1 + if SessionOf(env, p).Some? then 1 else 0
  }

  lemma Snoc(p: seq<Observed>, o: Observed)
    ensures (p + [o])[..|p + [o]| - 1] == p && (p + [o])[|p + [o]| - 1] == o
  {
  }

  lemma HandIs(env: Env, s: State, item: Item)
    ensures
      var d := Hand(env, s, item);
      && d.ok == env.sink(s.handed) && d.s.handed == s.handed + 1 && d.s.assistant == s.assistant
      && d.s.terminal == s.terminal && d.s.termErr == s.termErr && d.s.boundSid == s.boundSid
      && d.s.bindErr == s.bindErr && d.s.asked == s.asked && d.s.stopped == s.stopped
      && StepsOf(d.s.trace) ==
           StepsOf(s.trace) +
             (if item.event.Some? && item.event.value.StepDone? then [item.event.value.messages] else [])
      && EventsOf(d.s.trace) ==
           EventsOf(s.trace) +
             if item.event.Some? && (item.event.value.SessionBound? || item.event.value.Mapped?) then [item.event.value]
             else []
  {
  }

  lemma BindIs(env: Env, s: State, sid: nat)
    ensures
      var d := Bind(env, s, sid);
      && d.ok == env.locks(s.asked) && d.s.asked == s.asked + 1
      && d.s.handed == s.handed && d.s.assistant == s.assistant
      && d.s.terminal == s.terminal && d.s.termErr == s.termErr && d.s.boundSid == s.boundSid
      && d.s.bindErr == s.bindErr && d.s.stopped == s.stopped && StepsOf(d.s.trace) == StepsOf(s.trace)
      && EventsOf(d.s.trace) == EventsOf(s.trace)
  {
    var t := Then(s.trace, Asked(Durable(sid), env.locks(s.asked)));
    assert StepsOf(t) == StepsOf(s.trace) && EventsOf(t) == EventsOf(s.trace);
    if s.lock.Some? {
      var u := Then(t, Released(s.lock.value));
      assert StepsOf(u) == StepsOf(t) && EventsOf(u) == EventsOf(t);
    }
  }

  /** An event: what it adds, but for the item that hands over an update without one. */
  lemma ConsumeGathers(env: Env, s: State, p: seq<Observed>, e: DriverEvent, raw: Option<nat>)
    requires Gathers(env, s, p) && !s.stopped
    ensures
      var d, o := Consume(env, s, e, raw), Update(e);
      var item := Names(env, p, o) || e == Content(true);
      var refused := item && !env.sink(s.handed);
      && d.ok == !refused && !d.s.stopped && StepsOf(d.s.trace) == []
      && EventsOf(d.s.trace) == EventsFor(env, p) + EventFor(env, p, o)
      && d.s.handed == s.handed + (if item then 1 else 0)
      && d.s.asked == s.asked + (if Names(env, p, o) then 1 else 0)
      && d.s.assistant == MessagesOf(p) + MessageOf(o) && d.s.terminal == (Ends(p) || IsTerminal(o))
      && d.s.termErr == (Fails(p) || e.TerminalError?)
      && d.s.boundSid == (if Names(env, p, o) then e.sid else SessionOf(env, p))
      && d.s.bindErr == (BindingFailed(env, p) || (Names(env, p, o) && !env.locks(1) && !refused))
  {
    hide Hand, Bind, MessagesOf, Ends, Fails, SessionOf, BindingFailed, ItemsOf, StepsOf, EventsOf, EventsFor;
    match e {
      case Init(sid) =>
        if Names(env, p, Update(e)) {
          var b := Bind(env, s.(boundSid := sid), sid.value);
          BindIs(env, s.(boundSid := sid), sid.value);
          HandIs(env, b.s, Item(raw, Some(SessionBound(sid.value))));
        }
      case Content(maps) => HandIs(env, s, Item(raw, Some(Mapped)));
      case StepComplete(m) =>
      case TerminalOK(m) =>
      case TerminalError =>
    }
  }

  /** The same in terms of the longer part heard. */
  lemma Grown(env: Env, p: seq<Observed>, o: Observed)
    ensures
      var q := p + [o];
      && MessagesOf(q) == MessagesOf(p) + MessageOf(o) && Ends(q) == (Ends(p) || IsTerminal(o))
      && Fails(q) == (match o case Prompt(_, failed) => failed case Update(TerminalError) => true case _ => Fails(p))
      && SessionOf(env, q) == (if Names(env, p, o) then o.event.sid else SessionOf(env, p))
      && BindingFailed(env, q) == (BindingFailed(env, p) || (Names(env, p, o) && !env.locks(1) && !Refused(env, p, o)))
      && EventsFor(env, q) == EventsFor(env, p) + EventFor(env, p, o)
      && ItemsOf(env, q) == ItemsOf(env, p) + (if Hands(env, p, o) then 1 else 0)
      && Halted(env, q) == (Halted(env, p) || Refused(env, p, o))
  {
    Snoc(p, o);
  }

  lemma LegacyGathers(env: Env, s: State, p: seq<Observed>, e: DriverEvent)
    requires Gathers(env, s, p) && !s.stopped && env.stream.Legacy?
    ensures
      var d := Consume(env, s, e, None);
      Gathers(env, d.s, p + [Update(e)]) && d.ok == !Refused(env, p, Update(e)) && !d.s.stopped
  {
    ConsumeGathers(env, s, p, e, None);
    Grown(env, p, Update(e));
    hide Consume, MessagesOf, Ends, Fails, SessionOf, BindingFailed, ItemsOf, StepsOf, EventsOf, EventsFor, MessageOf,
         IsTerminal, Names;
  }

  lemma UpdateGathers(env: Env, s: State, p: seq<Observed>, e: DriverEvent, at: nat)
    requires Gathers(env, s, p) && !s.stopped && env.stream.Ordered?
    ensures
      var d := DrainUpdate(env, s, e, at);
      Gathers(env, d.s, p + [Update(e)]) && d.ok == !Refused(env, p, Update(e)) && !d.s.stopped
  {
    ConsumeGathers(env, s, p, e, Some(at));
    Grown(env, p, Update(e));
    var c := Consume(env, s, e, Some(at));
    HandIs(env, c.s, Item(Some(at), None));
    hide Hand, Consume, MessagesOf, Ends, Fails, SessionOf, BindingFailed, ItemsOf, StepsOf, EventsOf, EventsFor,
         MessageOf, IsTerminal;
  }

  lemma ObservationGathers(env: Env, s: State, p: seq<Observed>, o: Observed, at: nat)
    requires Gathers(env, s, p) && !s.stopped && env.stream.Ordered?
    ensures
      var d := DrainObservation(env, s, o, at);
      Gathers(env, d.s, p + [o]) && d.ok == !Refused(env, p, o) && !d.s.stopped
  {
    Grown(env, p, o);
    match o {
      case Update(e) => UpdateGathers(env, s, p, e, at);
      case Prompt(m, failed) =>
        var t := s.(terminal := true, termErr := failed, assistant := Append(s.assistant, m));
        HandIs(env, t, Item(Some(at), None));
        hide Hand, MessagesOf, Ends, Fails, SessionOf, BindingFailed, ItemsOf, StepsOf, EventsOf, EventsFor;
      case Steer =>
        HandIs(env, s, Item(Some(at), None));
        hide Hand, MessagesOf, Ends, Fails, SessionOf, BindingFailed, ItemsOf, StepsOf, EventsOf, EventsFor;
      case Unknown =>
        assert MessagesOf(p) + [] == MessagesOf(p) && EventsFor(env, p) + [] == EventsFor(env, p);
        hide MessagesOf, Ends, Fails, SessionOf, BindingFailed, ItemsOf, StepsOf, EventsOf, EventsFor;
    }
  }

  lemma {:induction false} HaltedForGood(env: Env, p: seq<Observed>, q: seq<Observed>)
    requires Halted(env, p)
    ensures Halted(env, p + q) && Heard(env, p + q) == Heard(env, p)
    decreases |q|
  {
    if q == [] {
      assert p + q == p;
    } else {
      var front := q[..|q| - 1];
      HaltedForGood(env, p, front);
      assert (p + q)[..|p + q| - 1] == p + front;
    }
  }

  /** What a drain leaves behind. */
  predicate Drained(env: Env, t: State, inputs: seq<Observed>) {
    var h := Heard(env, inputs);
    && t.stopped == Halted(env, inputs)
    && t.assistant == MessagesOf(h) && t.boundSid == SessionOf(env, h) && t.bindErr == BindingFailed(env, h)
    && t.handed == ItemsOf(env, h) && StepsOf(t.trace) == [] && EventsOf(t.trace) == EventsFor(env, h)
    && (t.termErr <==>
          || Fails(h)
          || (!t.stopped && !t.bindErr && !(Ends(h) && (env.sidBound || SessionOf(env, h).Some?))))
  }

  lemma DrainEnds(env: Env, s: State, p: seq<Observed>)
    requires Gathers(env, s, p) && !s.stopped && !Halted(env, p)
    ensures Drained(env, Validated(env, s), p)
  {
    if p != [] {
      assert !Halted(env, p[..|p| - 1]);
    }
    assert Heard(env, p) == p;
    hide MessagesOf, Ends, Fails, SessionOf, BindingFailed, ItemsOf, StepsOf, EventsOf, EventsFor, Halted, Heard;
  }

  lemma DrainStops(env: Env, s: State, p: seq<Observed>, o: Observed, rest: seq<Observed>)
    requires Gathers(env, s, p + [o]) && !Halted(env, p) && Refused(env, p, o)
    ensures Drained(env, s.(stopped := true), p + ([o] + rest))
  {
    hide MessagesOf, Ends, Fails, SessionOf, BindingFailed, ItemsOf, StepsOf, EventsOf, EventsFor, Halted, Heard;
    HeardStops(env, p, o, rest);
  }

  lemma HeardStops(env: Env, p: seq<Observed>, o: Observed, rest: seq<Observed>)
    requires !Halted(env, p) && Refused(env, p, o)
    ensures Halted(env, p + ([o] + rest)) && Heard(env, p + ([o] + rest)) == p + [o]
  {
    hide Refused;
    Snoc(p, o);
    assert Halted(env, p + [o]) && Heard(env, p + [o]) == p + [o];
    HaltedForGood(env, p + [o], rest);
    hide Halted, Heard;
    assert p + [o] + rest == p + ([o] + rest);
  }

  lemma {:induction false} DrainOrderedIs(env: Env, s: State, p: seq<Observed>, os: seq<Observed>, at: nat)
    requires Gathers(env, s, p) && !s.stopped && !Halted(env, p) && env.stream.Ordered?
    ensures Drained(env, DrainOrdered(env, s, os, at), p + os)
    decreases |os|
  {
    if os == [] {
      assert p + os == p;
      DrainEnds(env, s, p);
    } else {
      var o, rest := os[0], os[1..];
      assert os == [o] + rest && p + [o] + rest == p + os;
      ObservationGathers(env, s, p, o, at);
      Grown(env, p, o);
      var d := DrainObservation(env, s, o, at);
      hide Gathers, Drained, DrainObservation, Refused, Halted;
      if d.ok {
        DrainOrderedIs(env, d.s, p + [o], rest, at + 1);
      } else {
        DrainStops(env, d.s, p, o, rest);
      }
    }
  }

  lemma {:induction false} DrainLegacyIs(env: Env, s: State, p: seq<Observed>, es: seq<DriverEvent>)
    requires Gathers(env, s, p) && !s.stopped && !Halted(env, p) && env.stream.Legacy?
    ensures Drained(env, DrainLegacy(env, s, es), p + Updates(es))
    decreases |es|
  {
    if es == [] {
      assert p + Updates(es) == p;
      DrainEnds(env, s, p);
    } else {
      var o, rest := Update(es[0]), Updates(es[1..]);
      assert Updates(es) == [o] + rest && p + [o] + rest == p + Updates(es);
      LegacyGathers(env, s, p, es[0]);
      Grown(env, p, o);
      var d := Consume(env, s, es[0], None);
      hide Gathers, Drained, Consume, Refused, Halted, Updates;
      if d.ok {
        DrainLegacyIs(env, d.s, p + [o], es[1..]);
      } else {
        DrainStops(env, d.s, p, o, rest);
      }
    }
  }

  lemma DrainIs(env: Env, s: State)
    requires Gathers(env, s, []) && !s.stopped
    ensures Drained(env, Drain(env, s), InputsOf(env))
  {
    match env.stream {
      case Ordered(os) =>
        DrainOrderedIs(env, s, [], os, 0);
        assert [] + os == os;
      case Legacy(es) =>
        DrainLegacyIs(env, s, [], es);
        assert [] + Updates(es) == Updates(es);
    }
    hide Drained, DrainOrdered, DrainLegacy;
  }

  // ---------------------------------------------------------------- the commit

  /** `n` of `all` items from the `base`-th on were handed over: all of them, or up to the first the sink refused. */
  predicate Offered(env: Env, base: nat, all: nat, n: nat) {
    && n <= all
    && (forall k :: base <= k < base + n - 1 ==> env.sink(k))
    && (n < all ==> n > 0 && !env.sink(base + n - 1))
  }

  lemma {:induction false} CommitGroupsIs(env: Env, s: State, groups: seq<seq<nat>>, committed: seq<nat>)
    returns (n: nat)
    ensures
      var c := CommitGroups(env, s, groups, committed);
      && c.s.termErr == s.termErr && Offered(env, s.handed, |groups|, n)
      && StepsOf(c.s.trace) == StepsOf(s.trace) + groups[..n] && EventsOf(c.s.trace) == EventsOf(s.trace)
    decreases |groups|
  {
    var c := CommitGroups(env, s, groups, committed);
    if groups == [] {
      n := 0;
    } else {
      var item := Item(None, Some(StepDone(groups[0])));
      var d := Hand(env, s, item);
      HandIs(env, s, item);
      hide StepsOf, EventsOf, Hand, Offered;
      if d.ok {
        n := CommitGroupsIs(env, d.s, groups[1..], committed + groups[0]);
        assert Offered(env, s.handed + 1, |groups| - 1, n);
        OfferedMore(env, s.handed, |groups|, n);
        Regroup(StepsOf(s.trace), groups, n);
        assert c == CommitGroups(env, d.s, groups[1..], committed + groups[0]);
        n := n + 1;
      } else {
        n := 1;
        assert groups[..1] == [groups[0]];
        OfferedOne(env, s.handed, |groups|);
      }
    }
  }

  lemma Regroup<T>(done: seq<T>, q: seq<T>, n: nat)
    requires n + 1 <= |q|
    ensures done + [q[0]] + q[1..][..n] == done + q[..n + 1]
  {
  }

  lemma OfferedMore(env: Env, base: nat, all: nat, n: nat)
    requires all > 0 && env.sink(base) && Offered(env, base + 1, all - 1, n)
    ensures n + 1 <= all && Offered(env, base, all, n + 1)
  {
  }

  lemma OfferedOne(env: Env, base: nat, all: nat)
    requires all > 0 && !env.sink(base)
    ensures Offered(env, base, all, 1)
  {
  }

  lemma {:induction false} SinglyIs(messages: seq<nat>)
    ensures Singly(messages) == seq(|messages|, i requires 0 <= i < |messages| => [messages[i]])
  {
    if messages != [] {
      SinglyIs(messages[1..]);
    }
  }

  /** The lock, the start, and the end leave no trace of a step or an event. */
  lemma EdgeSteps(t: Trace, d: Deed)
    requires d.Asked? || d.Released? || d.Spawned? || d.Sent? || (d.Handed? && d.item == Item(None, Some(TurnDone)))
             || (d.Handed? && d.item == Item(None, Some(TurnFailed)))
    ensures StepsOf(Then(t, d)) == StepsOf(t) && EventsOf(Then(t, d)) == EventsOf(t)
  {
  }

  lemma CloseSteps(f: Finished)
    ensures
      var t := Close(f).trace;
      t.Then? && t.deed == Sent(f.outcome) && StepsOf(t) == StepsOf(f.s.trace) && EventsOf(t) == EventsOf(f.s.trace)
  {
    if f.s.lock.Some? {
      EdgeSteps(f.s.trace, Released(f.s.lock.value));
      EdgeSteps(Then(f.s.trace, Released(f.s.lock.value)), Sent(f.outcome));
    } else {
      EdgeSteps(f.s.trace, Sent(f.outcome));
    }
  }

  lemma FailSteps(env: Env, s: State, o: Outcome)
    ensures Fail(env, s, o).outcome == o && StepsOf(Fail(env, s, o).s.trace) == StepsOf(s.trace)
    ensures EventsOf(Fail(env, s, o).s.trace) == EventsOf(s.trace)
  {
    EdgeSteps(s.trace, Handed(Item(None, Some(TurnFailed)), env.sink(s.handed)));
  }

  lemma DoneSteps(env: Env, s: State)
    ensures StepsOf(Hand(env, s, Item(None, Some(TurnDone))).s.trace) == StepsOf(s.trace)
    ensures EventsOf(Hand(env, s, Item(None, Some(TurnDone))).s.trace) == EventsOf(s.trace)
  {
    EdgeSteps(s.trace, Handed(Item(None, Some(TurnDone)), env.sink(s.handed)));
  }

  /** The drained turn is finished. */
  lemma FinishIs(env: Env, s: State) returns (n: nat)
    requires Drained(env, s, InputsOf(env)) && env.locks(0) && env.spawns
    ensures
      var f, h := FinishTurn(env, s), Heard(env, InputsOf(env));
      && (f.outcome.success <==> Succeeds(env)) && f.outcome.boundSid == SessionOf(env, h)
      && (f.outcome.interrupted <==> env.canceled && !BindingFailed(env, h))
      && Offered(env, ItemsOf(env, h), |GroupsOf(env)|, n)
      && StepsOf(f.s.trace) == (if Commits(env) then GroupsOf(env)[..n] else [])
      && EventsOf(f.s.trace) == EventsFor(env, h)
  {
    var groups := if env.history.Some? then env.history.value else Singly(s.assistant);
    SinglyIs(s.assistant);
    assert groups == GroupsOf(env);
    n := CommitGroupsIs(env, s, groups, []);
    var c := CommitGroups(env, s, groups, []);
    var spawned := env.sidBound || s.boundSid.Some?;
    FailSteps(env, s, Outcome([], false, false, spawned, s.boundSid));
    FailSteps(env, c.s, Outcome(c.committed, false, false, spawned, s.boundSid));
    DoneSteps(env, c.s);
    hide StepsOf, EventsOf, EventsFor, Hand, Fail, CommitGroups, Heard, Halted, Fails, Ends, SessionOf, BindingFailed,
         GroupsOf, ItemsOf, Offered;
  }

  /**
    For every stream, sink and lock, and every way a turn can end: it is a success exactly if the
    lock was granted, the provider was started and closed without an error, the turn was not
    canceled, the session's lock was had, and what was heard of the stream ends without a failure,
    names the session and is complete, or was cut off by the sink. The session it reports is the one
    named.
   */
  lemma SuccessIsTheStreams(env: Env)
    ensures
      var t, h := Drive(env).trace, Heard(env, InputsOf(env));
      && t.Then? && t.deed.Sent?
      && (t.deed.outcome.success <==> Succeeds(env))
      && (t.deed.outcome.interrupted <==> env.canceled && env.locks(0) && env.spawns && !BindingFailed(env, h))
      && t.deed.outcome.boundSid == (if env.locks(0) && env.spawns then SessionOf(env, h) else None)
  {
    var n := DriveIs(env);
  }

  /**
    The groups handed over to be committed are the transcript's, or the assistant's messages one by
    one, in order, up to the first the sink refuses; and none if the turn does not commit.
   */
  lemma CommitsTheStreams(env: Env) returns (n: nat)
    ensures Offered(env, ItemsOf(env, Heard(env, InputsOf(env))), |GroupsOf(env)|, n)
    ensures StepsOf(Drive(env).trace) == if Commits(env) then GroupsOf(env)[..n] else []
  {
    n := DriveIs(env);
  }

  /** What is announced of the turn under way is its session and what the heard content maps to, in order. */
  lemma EventsAreTheStreams(env: Env)
    ensures
      EventsOf(Drive(env).trace) ==
        if env.locks(0) && env.spawns then EventsFor(env, Heard(env, InputsOf(env))) else []
  {
    var n := DriveIs(env);
  }

  lemma DriveIs(env: Env) returns (n: nat)
    ensures
      var t, h := Drive(env).trace, Heard(env, InputsOf(env));
      && t.Then? && t.deed.Sent?
      && (t.deed.outcome.success <==> Succeeds(env))
      && (t.deed.outcome.interrupted <==> env.canceled && env.locks(0) && env.spawns && !BindingFailed(env, h))
      && t.deed.outcome.boundSid == (if env.locks(0) && env.spawns then SessionOf(env, h) else None)
      && Offered(env, ItemsOf(env, h), |GroupsOf(env)|, n)
      && StepsOf(t) == (if Commits(env) then GroupsOf(env)[..n] else [])
      && EventsOf(t) == (if env.locks(0) && env.spawns then EventsFor(env, h) else [])
  {
    var lock := if env.sidBound then Durable(env.sid) else Temporary;
    var a := Ask(env, FRESH, lock);
    EdgeSteps(Start, Asked(lock, a.ok));
    var s := Note(a.s.(lock := Some(lock)), Spawned(env.spawns));
    EdgeSteps(a.s.trace, Spawned(env.spawns));
    FailSteps(env, a.s, NO_OUTCOME);
    FailSteps(env, s, NO_OUTCOME);
    CloseSteps(Fail(env, a.s, NO_OUTCOME));
    CloseSteps(Fail(env, s, NO_OUTCOME));
    var groups := GroupsOf(env);
    if a.ok && env.spawns {
      assert Gathers(env, s, []);
      DrainIs(env, s);
      n := FinishIs(env, Drain(env, s));
      CloseSteps(FinishTurn(env, Drain(env, s)));
    } else {
      n := CommitGroupsIs(env, s.(handed := ItemsOf(env, Heard(env, InputsOf(env)))), groups, []);
    }
    hide StepsOf, EventsOf, EventsFor, Hand, Fail, Close, Drain, FinishTurn, Heard, Halted, Fails, Ends, SessionOf,
         BindingFailed, GroupsOf, ItemsOf, Offered;
  }
}
