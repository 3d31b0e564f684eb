/**
  The steering theorems, carried over to the actor: its loop, its drains and its commands touch
  the machine only through the machine's events, so what holds of every run of events holds of
  every turn the actor goes through.
 */
module ActorDelivery {
  import opened Options
  import opened DriverContract
  import opened Calls
  import S = SteeringModel
  import R = SteeringRuns
  import M = SteeringTheorems
  import A = TurnActorModel
  import T = TurnActorTheorems

  lemma {:induction false} MachineIsRun(w: World, r: R.Run, es: seq<R.Event>)
    ensures R.RunOf(w, r, es).s == T.MachineRun(w, r.s, es)
    decreases |es|
  {
    hide R.StepRet;
    if es != [] {
      MachineIsRun(w, R.Step(w, r, es[0]), es[1..]);
    }
  }

  lemma {:induction false} PossiblePrefix(w: World, r: R.Run, es: seq<R.Event>, e: R.Event)
    requires R.Possible(w, r, es + [e])
    ensures R.Possible(w, r, es)
    ensures R.RunOf(w, r, es + [e]) == R.Step(w, R.RunOf(w, r, es), e)
    decreases |es|
  {
    hide R.StepRet, R.Step, R.Enabled;
    var all := es + [e];
    if es == [] {
      assert all == [e] && all[1..] == [];
      assert R.RunOf(w, R.Step(w, r, e), []) == R.Step(w, r, e);
    } else {
      assert all[0] == es[0] && all[1..] == es[1..] + [e];
      PossiblePrefix(w, R.Step(w, r, es[0]), es[1..], e);
    }
  }

  lemma CleanupDecidesNothing(m: S.State, id: nat)
    ensures Decisions(S.Cleanup(m).log, id) == Decisions(m.log, id)
    ensures Clean(S.Cleanup(m).log) ==> Clean(m.log)
  {
    if m.active.Some? {
      assert S.Cleanup(m).log == Then(m.log, CancelSteer(m.active.value.serial));
    }
  }

  /** The machine's run behind a turn of the actor. */
  function Behind(env: A.Env, hasHook: bool, hasSteerer: bool, queued: seq<S.Input>, picks: seq<A.Pick>): seq<R.Event> {
    T.Turn(env, hasHook, hasSteerer, queued, picks).events
  }

  /** Names are fresh, the stream comes once, and the driver reports each call at most once, in call order. */
  predicate Honest(env: A.Env, hasHook: bool, hasSteerer: bool, queued: seq<S.Input>, picks: seq<A.Pick>) {
    M.TurnPossible(env.world, hasHook, hasSteerer, queued, Behind(env, hasHook, hasSteerer, queued, picks))
  }

  /** While the turn runs, its machine is exactly where its events lead it. */
  lemma ActorFollowsMachine(env: A.Env, hasHook: bool, hasSteerer: bool, queued: seq<S.Input>, picks: seq<A.Pick>)
    requires |queued| <= env.capacity
    ensures
      var t := T.Turn(env, hasHook, hasSteerer, queued, picks);
      var r := M.Turn(env.world, hasHook, hasSteerer, queued, t.events);
      t.m == if t.exit.None? then r.s else S.Cleanup(r.s)
  {
    var t := T.Turn(env, hasHook, hasSteerer, queued, picks);
    T.TurnInv(env, hasHook, hasSteerer, queued, picks);
    MachineIsRun(env.world, R.Initial(hasHook, hasSteerer, queued), t.events);
    hide R.RunOf, T.MachineRun, R.StepRet, T.Turn, S.Cleanup;
  }

  /** At every moment of every turn: no request has two durable decisions. */
  lemma NeverTwoDecisions(
    env: A.Env, hasHook: bool, hasSteerer: bool, queued: seq<S.Input>, picks: seq<A.Pick>, id: nat)
    requires |queued| <= env.capacity && Honest(env, hasHook, hasSteerer, queued, picks)
    ensures Decisions(T.Turn(env, hasHook, hasSteerer, queued, picks).m.log, id) <= 1
  {
    hide T.Turn, M.Turn, Decisions, S.Cleanup;
    var es := Behind(env, hasHook, hasSteerer, queued, picks);
    ActorFollowsMachine(env, hasHook, hasSteerer, queued, picks);
    M.AtMostOneDecision(env.world, hasHook, hasSteerer, queued, es, id);
    CleanupDecidesNothing(M.Turn(env.world, hasHook, hasSteerer, queued, es).s, id);
  }

  /**
    When a turn returns, by whatever path, every request its machine took on has exactly one
    durable decision, provided no checked call failed and no delivery was untrackable.
   */
  lemma OneDecisionOnReturn(
    env: A.Env, hasHook: bool, hasSteerer: bool, queued: seq<S.Input>, picks: seq<A.Pick>, id: nat)
    requires |queued| <= env.capacity && Honest(env, hasHook, hasSteerer, queued, picks)
    ensures
      var t := T.Turn(env, hasHook, hasSteerer, queued, picks);
      var r := M.Turn(env.world, hasHook, hasSteerer, queued, t.events);
      t.exit.Some? && Clean(t.m.log) ==> Decisions(t.m.log, id) == if id in r.handled then 1 else 0
  {
    var t := T.Turn(env, hasHook, hasSteerer, queued, picks);
    T.TurnInv(env, hasHook, hasSteerer, queued, picks);
    ActorFollowsMachine(env, hasHook, hasSteerer, queued, picks);
    if t.exit.Some? {
      EndsWithShutdown(env, hasHook, hasSteerer, queued, t);
      var es := t.events[..|t.events| - 1];
      assert t.events == es + [R.ShuttingDown];
      hide T.Turn, Decisions, S.Cleanup, S.Shutdown, R.RunOf, R.Possible, Clean;
      var w, r0 := env.world, R.Initial(hasHook, hasSteerer, queued);
      PossiblePrefix(w, r0, es, R.ShuttingDown);
      M.ExactlyOneDecision(w, hasHook, hasSteerer, queued, es, id);
      CleanupDecidesNothing(S.Shutdown(w, M.Turn(w, hasHook, hasSteerer, queued, es).s).s, id);
    }
  }

  lemma EndsWithShutdown(env: A.Env, hasHook: bool, hasSteerer: bool, queued: seq<S.Input>, t: A.State)
    requires T.Inv(env, S.Fresh(hasHook, hasSteerer, queued), t) && t.exit.Some?
    ensures t.events != [] && t.events[|t.events| - 1] == R.ShuttingDown
  {
  }
}
