/**
  The producer as the goroutine that drives one turn (backend/turn.go), updating what it gathers
  and the lock it holds. Every method is verified to do exactly what the function of the same
  name in `TurnProducerModel` says.
 */
module TurnProducerLoop {
  import opened Options
  import opened P = TurnProducerModel

  class TurnProducer {
    const env: Env
    var assistant: seq<nat>
    var boundSid: Option<nat>
    var termErr: bool
    var bindErr: bool
    var terminal: bool
    var stopped: bool
    var lock: Option<Lock>
    var handed: nat
    var asked: nat
    var trace: Trace

    constructor (env: Env)
      ensures this.env == env && Abs() == FRESH
    {
      this.env := env;
      assistant, boundSid, lock, handed, asked, trace := [], None, None, 0, 0, Start;
      termErr, bindErr, terminal, stopped := false, false, false, false;
    }

    function Abs(): State
      reads this
    {
      State(assistant, boundSid, termErr, bindErr, terminal, stopped, lock, handed, asked, trace)
    }

    method Hand(item: Item) returns (ok: bool)
      modifies this`handed, this`trace
      ensures Did(Abs(), ok) == P.Hand(env, old(Abs()), item)
    {
      ok := env.sink(handed);
      handed := handed + 1;
      trace := Then(trace, Handed(item, ok));
    }

    method Ask(l: Lock) returns (ok: bool)
      modifies this`asked, this`trace
      ensures Did(Abs(), ok) == P.Ask(env, old(Abs()), l)
    {
      ok := env.locks(asked);
      asked := asked + 1;
      trace := Then(trace, Asked(l, ok));
    }

    /** The durable lock is taken before the one held is let go. */
    method Bind(sid: nat) returns (ok: bool)
      modifies this`asked, this`trace, this`lock
      ensures Did(Abs(), ok) == P.Bind(env, old(Abs()), sid)
    {
      ok := Ask(Durable(sid));
      if !ok {
        return;
      }
      if lock.Some? {
        trace := Then(trace, Released(lock.value));
      }
      lock := Some(Durable(sid));
    }

    method Consume(e: DriverEvent, raw: Option<nat>) returns (ok: bool)
      modifies this
      ensures Did(Abs(), ok) == P.Consume(env, old(Abs()), e, raw)
    {
      hide P.Hand, P.Bind;
      ok := true;
      match e {
        case Init(sid) =>
          if !(terminal || sid.None? || env.sidBound || boundSid.Some?) {
            boundSid := sid;
            var bound := Bind(sid.value);
            ok := Hand(Item(raw, Some(SessionBound(sid.value))));
            if ok && !bound {
              bindErr := true;
            }
          }
        case StepComplete(m) => assistant := Append(assistant, m);
        case TerminalOK(m) =>
          terminal := true;
          assistant := Append(assistant, m);
        case TerminalError => terminal, termErr := true, true;
        case Content(maps) =>
          if maps {
            ok := Hand(Item(raw, Some(Mapped)));
          }
      }
    }

    method DrainUpdate(e: DriverEvent, at: nat) returns (ok: bool)
      modifies this
      ensures Did(Abs(), ok) == P.DrainUpdate(env, old(Abs()), e, at)
    {
      hide P.Hand, P.Consume;
      var before := handed;
      ok := Consume(e, Some(at));
      if ok && handed <= before {
        ok := Hand(Item(Some(at), None));
      }
    }

    method DrainObservation(o: Observed, at: nat) returns (ok: bool)
      modifies this
      ensures Did(Abs(), ok) == P.DrainObservation(env, old(Abs()), o, at)
    {
      hide P.Hand, P.DrainUpdate;
      ok := true;
      match o {
        case Update(e) => ok := DrainUpdate(e, at);
        case Prompt(m, failed) =>
          terminal, termErr, assistant := true, failed, Append(assistant, m);
          ok := Hand(Item(Some(at), None));
        case Steer => ok := Hand(Item(Some(at), None));
        case Unknown =>
      }
    }

    method Validate()
      modifies this`termErr
      ensures Abs() == P.Validated(env, old(Abs()))
    {
      if !bindErr && ((!env.sidBound && boundSid.None?) || !terminal) {
        termErr := true;
      }
    }

    method DrainOrdered(os: seq<Observed>)
      modifies this
      ensures Abs() == P.DrainOrdered(env, old(Abs()), os, 0)
    {
      hide Abs, P.DrainObservation, P.Validated;
      var i := 0;
      assert os[0..] == os;
      while i < |os|
        invariant 0 <= i <= |os|
        invariant P.DrainOrdered(env, Abs(), os[i..], i) == P.DrainOrdered(env, old(Abs()), os, 0)
      {
        assert os[i..][1..] == os[i + 1..];
        var ok := DrainObservation(os[i], i);
        if !ok {
          Stop();
          return;
        }
        i := i + 1;
      }
      Validate();
    }

    method Stop()
      modifies this`stopped
      ensures Abs() == old(Abs()).(stopped := true)
    {
      stopped := true;
    }

    method DrainLegacy(es: seq<DriverEvent>)
      modifies this
      ensures Abs() == P.DrainLegacy(env, old(Abs()), es)
    {
      hide Abs, P.Consume, P.Validated;
      var i := 0;
      assert es[0..] == es;
      while i < |es|
        invariant 0 <= i <= |es|
        invariant P.DrainLegacy(env, Abs(), es[i..]) == P.DrainLegacy(env, old(Abs()), es)
      {
        assert es[i..][1..] == es[i + 1..];
        var ok := Consume(es[i], None);
        if !ok {
          Stop();
          return;
        }
        i := i + 1;
      }
      Validate();
    }

    method CommitGroups(groups: seq<seq<nat>>) returns (committed: seq<nat>)
      modifies this`handed, this`trace
      ensures Commit(Abs(), committed) == P.CommitGroups(env, old(Abs()), groups, [])
    {
      hide Abs, P.Hand;
      committed := [];
      var i := 0;
      assert groups[0..] == groups;
      while i < |groups|
        invariant 0 <= i <= |groups|
        invariant P.CommitGroups(env, Abs(), groups[i..], committed) == P.CommitGroups(env, old(Abs()), groups, [])
      {
        assert groups[i..][1..] == groups[i + 1..];
        var ok := Hand(Item(None, Some(StepDone(groups[i]))));
        if !ok {
          return;
        }
        committed := committed + groups[i];
        i := i + 1;
      }
    }

    method FinishTurn() returns (outcome: Outcome)
      modifies this`handed, this`trace
      ensures Finished(Abs(), outcome) == P.FinishTurn(env, old(Abs()))
    {
      hide P.Hand, P.CommitGroups;
      var spawned := env.sidBound || boundSid.Some?;
      var ignored;
      if bindErr {
        ignored := Hand(Item(None, Some(TurnFailed)));
        return Outcome([], false, false, spawned, boundSid);
      }
      if env.canceled {
        return Outcome([], false, true, spawned, boundSid);
      }
      var committed := CommitGroups(if env.history.Some? then env.history.value else Singly(assistant));
      if termErr || env.closeFails {
        ignored := Hand(Item(None, Some(TurnFailed)));
        return Outcome(committed, false, false, spawned, boundSid);
      }
      ignored := Hand(Item(None, Some(TurnDone)));
      outcome := Outcome(committed, true, false, spawned, boundSid);
    }

    /** The deferred end. */
    method Close(outcome: Outcome)
      modifies this`trace
      ensures Abs() == P.Close(Finished(old(Abs()), outcome))
    {
      if lock.Some? {
        trace := Then(trace, Released(lock.value));
      }
      trace := Then(trace, Sent(outcome));
    }

    /** driveTurnToSink. */
    method Drive()
      requires Abs() == FRESH
      modifies this
      ensures Abs() == P.Drive(env)
    {
      hide P.Hand, P.Ask, P.DrainOrdered, P.DrainLegacy, P.FinishTurn, P.Close;
      var first := if env.sidBound then Durable(env.sid) else Temporary;
      var ok := Ask(first);
      var ignored;
      if !ok {
        ignored := Hand(Item(None, Some(TurnFailed)));
        Close(NO_OUTCOME);
        return;
      }
      lock := Some(first);
      trace := Then(trace, Spawned(env.spawns));
      if !env.spawns {
        ignored := Hand(Item(None, Some(TurnFailed)));
        Close(NO_OUTCOME);
        return;
      }
      match env.stream {
        case Ordered(os) => DrainOrdered(os);
        case Legacy(es) => DrainLegacy(es);
      }
      var outcome := FinishTurn();
      Close(outcome);
    }
  }
}
