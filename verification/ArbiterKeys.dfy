/** When the keys of the published observations are nondecreasing. */
module ArbiterKeys {
  import opened Options
  import opened DriverContract
  import opened Admission
  import opened AcpSteering
  import opened ArbiterModel
  import opened ArbiterProtocol
  import opened ArbiterTheorems

  predicate KeysOrdered(q: seq<Entry>) {
    forall i, j :: 0 <= i < j < |q| ==> Key(q[i]) <= Key(q[j])
  }

  /** A sequenced observation comes after a higher key, given to one without a sequence. */
  predicate Undercuts(f: Facts, e: Entry) {
    e.sequence != 0 && e.sequence < f.topKey
  }

  predicate EverUndercut(t: Trace) {
    t.Then? && (EverUndercut(t.past) || (t.deed.Emitted? && Undercuts(FactsOf(t.past), t.deed.entry)))
  }

  /** The highest key so far is that of a published observation, or none was published. */
  predicate Reached(q: seq<Entry>, top: nat) {
    top == 0 || exists i :: 0 <= i < |q| && Key(q[i]) == top
  }

  lemma ReachedStep(q: seq<Entry>, f: Facts, e: Entry)
    requires Reached(q, f.topKey) && LegalEmission(f, e)
    ensures Reached(q + [e], AddEmitted(f, e).topKey)
    ensures Key(e) < f.topKey <==> Undercuts(f, e)
  {
    var r, top := q + [e], AddEmitted(f, e).topKey;
    if top == Key(e) {
      assert r[|q|] == e;
    } else if top != 0 {
      var i :| 0 <= i < |q| && Key(q[i]) == top;
      assert r[i] == q[i];
    }
  }

  /** One more emission keeps the order of keys exactly if it undercuts nothing. */
  lemma OrderedStep(q: seq<Entry>, f: Facts, e: Entry)
    requires MergedSoFar(q, f) && Reached(q, f.topKey) && LegalEmission(f, e)
    ensures KeysOrdered(q + [e]) <==> KeysOrdered(q) && !Undercuts(f, e)
  {
    ReachedStep(q, f, e);
    OrderedSnoc(q, e);
    if Undercuts(f, e) {
      var i :| 0 <= i < |q| && Key(q[i]) == f.topKey;
    } else {
      AllBelowTop(q, f);
    }
    hide MergedSoFar, KeysOrdered, Reached, LegalEmission, Undercuts;
  }

  lemma AllBelowTop(q: seq<Entry>, f: Facts)
    requires MergedSoFar(q, f)
    ensures forall i :: 0 <= i < |q| ==> Key(q[i]) <= f.topKey
  {
    assert forall i :: 0 <= i < |q| ==> q[i] in q;
  }

  lemma OrderedSnoc(q: seq<Entry>, e: Entry)
    ensures KeysOrdered(q + [e]) <==> KeysOrdered(q) && forall i :: 0 <= i < |q| ==> Key(q[i]) <= Key(e)
  {
    var r := q + [e];
    assert r[|q|] == e && forall i :: 0 <= i < |q| ==> r[i] == q[i];
  }

  lemma {:induction false} OrderedUnlessUndercut(t: Trace)
    requires Protocol(t)
    ensures Reached(EmittedBy(t), FactsOf(t).topKey)
    ensures KeysOrdered(EmittedBy(t)) <==> !EverUndercut(t)
  {
    if t.Then? {
      OrderedUnlessUndercut(t.past);
      Unfold(t.past, t.deed);
      hide FactsOf, MergedSoFar, KeysOrdered, Reached, Undercuts, Legal, Protocol;
      if t.deed.Emitted? {
        MergeSoFar(t.past);
        EmissionIsLegal(FactsOf(t.past), t.deed.entry);
        hide LegalEmission;
        OrderedStep(EmittedBy(t.past), FactsOf(t.past), t.deed.entry);
        ReachedStep(EmittedBy(t.past), FactsOf(t.past), t.deed.entry);
      } else {
        assert EmittedBy(t) == EmittedBy(t.past);
      }
    }
  }

  /**
    In every run the keys of the published observations are nondecreasing exactly if no sequenced
    observation was published below the highest key given so far.
   */
  lemma KeysOrderedExactly(steeringOn: bool, steeringOff: bool, passes: seq<Pass>)
    ensures
      var t := Turn(steeringOn, steeringOff, passes).trace;
      KeysOrdered(EmittedBy(t)) <==> !EverUndercut(t)
  {
    TurnInv(steeringOn, steeringOff, passes);
    OrderedUnlessUndercut(Turn(steeringOn, steeringOff, passes).trace);
  }

  /** The arbiter can tell before it publishes: it keeps the highest key in a field. */
  lemma TopKeyIsKept(steeringOn: bool, steeringOff: bool, passes: seq<Pass>)
    ensures
      var s := Turn(steeringOn, steeringOff, passes);
      s.exit == Running && !s.failed ==> s.lastOrder == FactsOf(s.trace).topKey
  {
    TurnInv(steeringOn, steeringOff, passes);
  }

  // ---------------------------------------------------------------- a run whose keys go down

  /** A steering command whose caller has given up is answered on the spot, without a sequence. */
  function GivenUp(): Command {
    Command(true, true, NotAdmitted, true, true, true)
  }

  function Quiet(pick: Pick): Pass {
    Pass(false, [], [], false, Drained([], false), false, map[], pick, Drained([], false))
  }

  /** Two such commands are answered; then an update with sequence 1 arrives. */
  function LoweringPasses(): seq<Pass> {
    [Quiet(UpdatesClosed).(queued := [GivenUp(), GivenUp()]), Quiet(UpdatesClosed),
     Quiet(UpdateReady(Notification(false, 1, 1))), Quiet(UpdatesClosed)]
  }

  function Local(id: nat, order: nat): Entry {
    var reply := Reply(DriverContract.Local(FallbackRequired).(orderSequence := order), true);
    Entry(id, Steer(id), 0, order, reply, reply)
  }

  function Late(): Entry {
    Entry(2, Update, 1, 0, SILENCE, SILENCE)
  }

  function Queued(): State {
    var t1 := Then(Then(Then(Start, Received(0, GivenUp(), true)), Took(0)), Accepted(Local(0, 0)));
    var t2 := Then(Then(Then(t1, Received(1, GivenUp(), true)), Took(1)), Accepted(Local(1, 0)));
    Initial(true, false).(received := 2, stamps := 2, pending := [Local(0, 0), Local(1, 0)], trace := t2)
  }

  function OneOut(): State {
    var s := Queued();
    s.(pending := [Local(1, 0)], lastOrder := 1, released := {0},
       trace := Then(Then(s.trace, Emitted(Local(0, 1))), Answered(0, Local(0, 1).answer)))
  }

  function TwoOut(): State {
    var s := OneOut();
    s.(pending := [], lastOrder := 2, released := {0, 1},
       trace := Then(Then(s.trace, Emitted(Local(1, 2))), Answered(1, Local(1, 2).answer)))
  }

  function Updated(): State {
    var s := TwoOut();
    s.(stamps := 3, pending := [Late()],
       trace := Then(Then(s.trace, Notified(Notification(false, 1, 1))), Accepted(Late())))
  }

  function Lowered(): State {
    var s := Updated();
    s.(pending := [], lastRaw := 1, trace := Then(s.trace, Emitted(Late())))
  }

  lemma CommandsAreQueued()
    ensures AcceptCommands(Initial(true, false), [GivenUp(), GivenUp()]) == Queued()
  {
    var c, s := GivenUp(), Initial(true, false);
    assert [c, c][1..] == [c] && [c][1..] == [];
    var s1 := AcceptCommand(s, c);
    assert s1 == s.(received := 1, stamps := 1, pending := [Local(0, 0)],
                    trace := Then(Then(Then(Start, Received(0, c, true)), Took(0)), Accepted(Local(0, 0))));
    assert AcceptCommand(s1, c) == Queued();
    assert AcceptCommands(s1, [c]) == AcceptCommand(s1, c);
  }

  lemma FirstPass()
    ensures Trip(Initial(true, false), LoweringPasses()[0]) == OneOut()
  {
    CommandsAreQueued();
    FirstIsEmitted();
    hide AcceptCommands, TryEmit, Queued, OneOut;
  }

  lemma FirstIsEmitted()
    ensures Queued().exit == Running && !Queued().failed && Queued().prompt.None?
    ensures TryEmit(Queued(), false, map[]) == Emission(OneOut(), true)
  {
    var q := Queued().pending;
    assert BestOf(q, 1) == 0 && BestOf(q, 2) == 0;
    assert [Local(0, 0), Local(1, 0)][1..] == [Local(1, 0)];
    assert EmitLocal(Queued(), 0) == OneOut();
    hide EmitLocal;
  }

  lemma SecondPass()
    ensures Trip(OneOut(), LoweringPasses()[1]) == TwoOut()
  {
    assert BestOf(OneOut().pending, 0) == -1 && BestOf(OneOut().pending, 1) == 0;
    assert EmitLocal(OneOut(), 0) == TwoOut();
    hide EmitLocal;
  }

  lemma ThirdPass()
    ensures Trip(TwoOut(), LoweringPasses()[2]) == Updated()
  {
    assert EnqueueUpdates(Updated(), 0, 1) == Updated();
    assert EnqueueUpdates(Note(TwoOut(), Notified(Notification(false, 1, 1))), 1, 1) == Updated();
  }

  lemma FourthPass()
    ensures Trip(Updated(), LoweringPasses()[3]) == Lowered()
  {
    assert BestOf(Updated().pending, 0) == -1 && BestOf(Updated().pending, 1) == 0;
    assert EmitRaw(Updated(), 0) == Lowered();
    hide EmitRaw;
  }

  lemma RunOfFour(s: State, passes: seq<Pass>)
    requires |passes| == 4
    ensures RunOf(s, passes) == Trip(Trip(Trip(Trip(s, passes[0]), passes[1]), passes[2]), passes[3])
  {
    hide Trip;
    var s1 := Trip(s, passes[0]);
    var s2 := Trip(s1, passes[1]);
    var s3 := Trip(s2, passes[2]);
    RunOfNext(s3, passes[3..], []);
    RunOfNext(s2, passes[2..], passes[3..]);
    RunOfNext(s1, passes[1..], passes[2..]);
    RunOfNext(s, passes, passes[1..]);
  }

  lemma RunOfNext(s: State, passes: seq<Pass>, rest: seq<Pass>)
    requires passes != [] && passes[1..] == rest
    ensures RunOf(s, passes) == RunOf(Trip(s, passes[0]), rest)
  {
  }

  /** The keys are 1, 2 and then 1 again. */
  lemma KeysGoDown()
    ensures
      var q := EmittedBy(Turn(true, false, LoweringPasses()).trace);
      q == [Local(0, 1), Local(1, 2), Late()] && !KeysOrdered(q)
  {
    FirstPass();
    SecondPass();
    ThirdPass();
    FourthPass();
    RunOfFour(Initial(true, false), LoweringPasses());
    LoweredKeys();
    hide Trip;
  }

  lemma LoweredKeys()
    ensures
      var q := EmittedBy(Lowered().trace);
      q == [Local(0, 1), Local(1, 2), Late()] && !KeysOrdered(q)
  {
    var q := [Local(0, 1), Local(1, 2), Late()];
    assert EmittedBy(OneOut().trace) == [Local(0, 1)];
    assert EmittedBy(TwoOut().trace) == [Local(0, 1), Local(1, 2)];
    assert EmittedBy(Lowered().trace) == q;
    assert Key(q[1]) == 2 && Key(q[2]) == 1;
  }
}
