/**
  The arbiter's promises, stated on what it published and answered over a whole run: whatever
  commands, updates, reports and barrier results arrive, in whatever order.
 */
module ArbiterTheorems {
  import opened Options
  import opened DriverContract
  import opened AcpSteering
  import opened ArbiterModel
  import opened ArbiterProtocol

  function RunOf(s: State, passes: seq<Pass>): State
    decreases |passes|
  {
    if passes == [] then s else RunOf(Trip(s, passes[0]), passes[1..])
  }

  /** One turn of the arbiter, from its start. */
  function Turn(steeringOn: bool, steeringOff: bool, passes: seq<Pass>): State {
    RunOf(Initial(steeringOn, steeringOff), passes)
  }

  lemma {:induction false} RunKeeps(s: State, passes: seq<Pass>)
    requires Inv(s)
    ensures Inv(RunOf(s, passes))
    decreases |passes|
  {
    hide Inv, Trip;
    if passes != [] {
      TripKeeps(s, passes[0]);
      RunKeeps(Trip(s, passes[0]), passes[1..]);
    }
  }

  lemma TurnInv(steeringOn: bool, steeringOff: bool, passes: seq<Pass>)
    ensures Inv(Turn(steeringOn, steeringOff, passes))
  {
    hide Inv;
    InitialInv(steeringOn, steeringOff);
    RunKeeps(Initial(steeringOn, steeringOff), passes);
  }

  /**
    Every deed of every run was allowed when it was done: see `Legal` for what the arbiter may
    publish, answer and submit next.
   */
  lemma ArbiterKeepsProtocol(steeringOn: bool, steeringOff: bool, passes: seq<Pass>)
    ensures Protocol(Turn(steeringOn, steeringOff, passes).trace)
  {
    TurnInv(steeringOn, steeringOff, passes);
  }

  /**
    While the arbiter runs, a command taken is answered, or pending, or out at the provider: exactly
    one of the three.
   */
  lemma Conservation(steeringOn: bool, steeringOff: bool, passes: seq<Pass>)
    ensures
      var s := Turn(steeringOn, steeringOff, passes);
      var f := FactsOf(s.trace);
      s.exit == Running ==>
        && f.answered !! Owners(s.pending) !! SetOf(s.steers)
        && f.taken == f.answered + Owners(s.pending) + SetOf(s.steers)
  {
    TurnInv(steeringOn, steeringOff, passes);
  }

  // ---------------------------------------------------------------- one observation, one equal reply

  function Replies(t: Trace, id: nat): seq<Reply> {
    if t.Start? then [] else Replies(t.past, id) + (if t.deed.Answered? && t.deed.id == id then [t.deed.reply] else [])
  }

  /** The results published for a command, in the merge or while failing. */
  function Observations(t: Trace, id: nat): seq<Reply> {
    if t.Start? then []
    else
      Observations(t.past, id)
      + (if (t.deed.Emitted? || t.deed.Flushed?) && t.deed.entry.kind == Steer(id) then [t.deed.entry.seen] else [])
  }

  function OwedTo(f: Facts, id: nat): seq<Reply> {
    if f.owed.Some? && f.owed.value.kind == Steer(id) then [f.owed.value.seen] else []
  }

  lemma {:induction false} RepliesFollowObservations(t: Trace, id: nat)
    requires Protocol(t)
    ensures Observations(t, id) == Replies(t, id) + OwedTo(FactsOf(t), id)
    ensures |Replies(t, id)| == if id in FactsOf(t).answered then 1 else 0
    ensures FactsOf(t).owed.Some? ==> FactsOf(t).owed.value.kind.Steer?
  {
    if t.Then? {
      RepliesFollowObservations(t.past, id);
      Unfold(t.past, t.deed);
    }
  }

  /**
    At every moment, also after a shutdown: no command has two replies, and none was answered
    differently from what was published.
   */
  lemma NeverTwoReplies(steeringOn: bool, steeringOff: bool, passes: seq<Pass>, id: nat)
    ensures
      var s := Turn(steeringOn, steeringOff, passes);
      |Replies(s.trace, id)| <= 1 && Replies(s.trace, id) <= Observations(s.trace, id)
  {
    TurnInv(steeringOn, steeringOff, passes);
    RepliesFollowObservations(Turn(steeringOn, steeringOff, passes).trace, id);
  }

  /**
    When the arbiter ends by the terminal or by a sequence regression, every command it took has
    had exactly one observation and exactly one reply, and the two are equal.
   */
  lemma OneObservationOneReply(steeringOn: bool, steeringOff: bool, passes: seq<Pass>, id: nat)
    ensures
      var s := Turn(steeringOn, steeringOff, passes);
      (s.exit == ByTerminal || s.exit == ByRegression) && id in FactsOf(s.trace).taken ==>
        |Replies(s.trace, id)| == 1 && Observations(s.trace, id) == Replies(s.trace, id)
  {
    TurnInv(steeringOn, steeringOff, passes);
    var s := Turn(steeringOn, steeringOff, passes);
    if s.exit == ByTerminal || s.exit == ByRegression {
      Unfold(s.trace.past, s.trace.deed);
      RepliesFollowObservations(s.trace, id);
    }
  }

  /** However the arbiter ends, every slot of every command it received is free again. */
  lemma SlotsAreFreed(steeringOn: bool, steeringOff: bool, passes: seq<Pass>)
    ensures
      var s := Turn(steeringOn, steeringOff, passes);
      s.exit != Running ==> s.released == Ids(s.received)
  {
    TurnInv(steeringOn, steeringOff, passes);
  }

  // ---------------------------------------------------------------- the ordered merge

  function EmittedBy(t: Trace): seq<Entry> {
    if t.Start? then [] else EmittedBy(t.past) + (if t.deed.Emitted? then [t.deed.entry] else [])
  }

  function AcceptedBy(t: Trace): seq<Entry> {
    FactsOf(t).accepted
  }

  /** Sequence(): the raw sequence, or the key assigned in its absence. */
  function Key(e: Entry): nat {
    if e.sequence != 0 then e.sequence else e.order
  }

  predicate Before(a: Entry, b: Entry) {
    a.sequence < b.sequence || (a.sequence == b.sequence && a.stamp < b.stamp)
  }

  /** How two published observations are placed. */
  predicate Placed(a: Entry, b: Entry) {
    && (a.sequence != 0 && b.sequence != 0 ==> Before(a, b))
    && (b.sequence == 0 ==> Key(a) < Key(b))
    && (a.sequence == 0 && b.sequence == 0 ==> a.stamp < b.stamp)
  }

  ghost predicate MergedSoFar(q: seq<Entry>, f: Facts) {
    && (forall i, j :: 0 <= i < j < |q| ==> Placed(q[i], q[j]))
    && (forall e :: e in q ==> e.stamp < |f.accepted| && f.accepted[e.stamp] == Plain(e) && e.stamp in f.emitted)
    && (forall k :: k in f.emitted ==> exists e :: e in q && e.stamp == k)
    && (forall e :: e in q && e.sequence != 0 ==>
          e.sequence < f.lastSequence || (e.sequence == f.lastSequence && e.stamp <= f.lastStamp))
    && (forall e :: e in q && e.sequence == 0 ==> e.stamp <= f.lastLocal)
    && (forall e :: e in q ==> Key(e) <= f.topKey)
  }

  lemma {:induction false} MergeSoFar(t: Trace)
    requires Protocol(t)
    ensures MergedSoFar(EmittedBy(t), FactsOf(t))
  {
    hide FactsOf, Legal;
    if t.Then? {
      MergeSoFar(t.past);
      Unfold(t.past, t.deed);
      if t.deed.Emitted? {
        EmissionIsLegal(FactsOf(t.past), t.deed.entry);
        MergeStep(EmittedBy(t.past), FactsOf(t.past), t.deed.entry);
      } else if t.deed.Accepted? {
        MergeAccept(EmittedBy(t.past), FactsOf(t.past), t.deed.entry);
      } else {
        MergeSame(EmittedBy(t.past), FactsOf(t.past), FactsOf(t));
      }
    } else {
      assert FactsOf(t) == NO_FACTS by {
        NothingYet(t);
      }
    }
  }

  lemma NothingYet(t: Trace)
    requires t.Start?
    ensures FactsOf(t) == NO_FACTS
  {
  }

  lemma EmissionIsLegal(f: Facts, e: Entry)
    requires Legal(f, Emitted(e))
    ensures LegalEmission(f, e)
  {
  }

  predicate Numbered(q: seq<Entry>) {
    forall k :: 0 <= k < |q| ==> q[k].stamp == k
  }

  lemma {:induction false} AcceptedAreNumbered(t: Trace)
    requires Protocol(t)
    ensures Numbered(AcceptedBy(t))
  {
    if t.Then? {
      AcceptedAreNumbered(t.past);
      Unfold(t.past, t.deed);
    }
  }

  lemma MergeStep(q: seq<Entry>, f: Facts, e: Entry)
    requires MergedSoFar(q, f) && LegalEmission(f, e)
    ensures MergedSoFar(q + [e], AddEmitted(f, e))
  {
    var r := q + [e];
    assert forall x :: x in r <==> x in q || x == e;
    forall i | 0 <= i < |q| ensures Placed(q[i], e) {
      assert q[i] in q;
    }
    Covered(q, f.emitted, e);
  }

  lemma Covered(q: seq<Entry>, stamps: set<nat>, e: Entry)
    requires forall k :: k in stamps ==> exists x :: x in q && x.stamp == k
    ensures forall k :: k in stamps + {e.stamp} ==> exists x :: x in q + [e] && x.stamp == k
  {
    forall k | k in stamps + {e.stamp} ensures exists x :: x in q + [e] && x.stamp == k {
      if k in stamps {
        var x :| x in q && x.stamp == k;
        assert x in q + [e];
      } else {
        assert e in q + [e];
      }
    }
  }

  lemma MergeAccept(q: seq<Entry>, f: Facts, e: Entry)
    requires MergedSoFar(q, f)
    ensures MergedSoFar(q, Add(f, Accepted(e)))
  {
  }

  lemma MergeSame(q: seq<Entry>, f: Facts, g: Facts)
    requires MergedSoFar(q, f)
    requires g.accepted == f.accepted && g.emitted == f.emitted && g.lastSequence == f.lastSequence
    requires g.lastStamp == f.lastStamp && g.lastLocal == f.lastLocal && g.topKey == f.topKey
    ensures MergedSoFar(q, g)
  {
  }

  /** The observations with sequence `k`, in the order of `q`. */
  function WithSequence(q: seq<Entry>, k: nat): seq<Entry> {
    if q == [] then []
    else WithSequence(q[..|q| - 1], k) + (if q[|q| - 1].sequence == k then [q[|q| - 1]] else [])
  }

  predicate SortedBySequence(q: seq<Entry>) {
    forall i, j :: 0 <= i < j < |q| && q[i].sequence != 0 && q[j].sequence != 0 ==> q[i].sequence <= q[j].sequence
  }

  /** The sequenced observations of `r` are those of `q`, sorted by sequence, ties kept in order. */
  ghost predicate StablySorts(q: seq<Entry>, r: seq<Entry>) {
    && SortedBySequence(r)
    && forall k: nat :: k != 0 ==> WithSequence(r, k) == WithSequence(q, k)
  }

  lemma {:induction false} WithSequenceElements(q: seq<Entry>, k: nat)
    ensures forall e :: e in WithSequence(q, k) <==> e in q && e.sequence == k
  {
    if q != [] {
      var front, last := q[..|q| - 1], q[|q| - 1];
      assert q == front + [last];
      WithSequenceElements(front, k);
    }
  }

  predicate StampsAscend(q: seq<Entry>, k: nat) {
    forall i, j :: 0 <= i < j < |q| && q[i].sequence == q[j].sequence == k ==> q[i].stamp < q[j].stamp
  }

  lemma {:induction false} WithSequenceAscends(q: seq<Entry>, k: nat)
    requires StampsAscend(q, k)
    ensures ArbiterProtocol.Ascending(WithSequence(q, k))
  {
    if q != [] {
      var front, last := q[..|q| - 1], q[|q| - 1];
      WithSequenceAscends(front, k);
      WithSequenceElements(front, k);
      if last.sequence == k {
        forall e | e in WithSequence(front, k) ensures e.stamp < last.stamp {
          var i :| 0 <= i < |front| && front[i] == e;
          assert q[i] == e;
        }
      }
    }
  }

  /** Sequences in order of their stamps are determined by their elements. */
  lemma {:induction false} AscendingIsUnique(q: seq<Entry>, r: seq<Entry>)
    requires ArbiterProtocol.Ascending(q) && ArbiterProtocol.Ascending(r)
    requires forall e :: e in q <==> e in r
    ensures q == r
  {
    if q == [] {
      HasElement(r);
    } else {
      SameLast(q, r);
      var front, front' := q[..|q| - 1], r[..|r| - 1];
      forall e ensures e in front <==> e in front' {
        FrontElements(q, e);
        FrontElements(r, e);
      }
      AscendingIsUnique(front, front');
      assert q == front + [q[|q| - 1]] && r == front' + [r[|r| - 1]];
    }
  }

  lemma HasElement(r: seq<Entry>)
    ensures r == [] || exists e :: e in r
  {
    if r != [] {
      assert r[0] in r;
    }
  }

  lemma SameLast(q: seq<Entry>, r: seq<Entry>)
    requires ArbiterProtocol.Ascending(q) && ArbiterProtocol.Ascending(r) && q != []
    requires forall e :: e in q <==> e in r
    ensures r != [] && q[|q| - 1] == r[|r| - 1]
  {
    assert q[|q| - 1] in q && q[|q| - 1] in r;
    assert r[|r| - 1] in r && r[|r| - 1] in q;
  }

  lemma FrontElements(q: seq<Entry>, e: Entry)
    requires ArbiterProtocol.Ascending(q) && q != []
    ensures e in q[..|q| - 1] <==> e in q && e != q[|q| - 1]
  {
    assert q == q[..|q| - 1] + [q[|q| - 1]];
  }

  /**
    In a run that reaches the terminal, the observations published with a sequence are exactly
    those accepted, stably sorted by it, unaltered.
   */
  lemma OrderedMerge(steeringOn: bool, steeringOff: bool, passes: seq<Pass>)
    ensures
      var s := Turn(steeringOn, steeringOff, passes);
      s.exit == ByTerminal ==> StablySorts(AcceptedBy(s.trace), EmittedBy(s.trace))
  {
    TurnInv(steeringOn, steeringOff, passes);
    var s := Turn(steeringOn, steeringOff, passes);
    if s.exit == ByTerminal {
      var t := s.trace.past;
      Unfold(t, Finished);
      MergeSoFar(t);
      AcceptedAreNumbered(t);
      var f, q := FactsOf(t), EmittedBy(t);
      assert EmittedBy(s.trace) == q && FactsOf(s.trace) == f;
      forall k: nat | k != 0 ensures WithSequence(q, k) == WithSequence(f.accepted, k) {
        SameAtSequence(q, f, k);
      }
    }
  }

  lemma SameAtSequence(q: seq<Entry>, f: Facts, k: nat)
    requires MergedSoFar(q, f) && AllEmitted(f) && k != 0
    requires Numbered(f.accepted)
    ensures WithSequence(q, k) == WithSequence(f.accepted, k)
  {
    SameElements(q, f, k);
    WithSequenceElements(q, k);
    WithSequenceElements(f.accepted, k);
    WithSequenceAscends(q, k);
    WithSequenceAscends(f.accepted, k);
    hide MergedSoFar, AllEmitted, Numbered, WithSequence;
    AscendingIsUnique(WithSequence(q, k), WithSequence(f.accepted, k));
  }

  lemma SameElements(q: seq<Entry>, f: Facts, k: nat)
    requires MergedSoFar(q, f) && AllEmitted(f) && k != 0
    requires Numbered(f.accepted)
    ensures forall e :: e in q && e.sequence == k <==> e in f.accepted && e.sequence == k
    ensures StampsAscend(q, k) && StampsAscend(f.accepted, k)
  {
    forall e | e in f.accepted && e.sequence == k ensures e in q {
      var i :| 0 <= i < |f.accepted| && f.accepted[i] == e;
      assert i in f.emitted;
      var x :| x in q && x.stamp == i;
      assert Plain(x) == e;
    }
  }

  /**
    In every run, at every moment: observations without a sequence come out in the order they were
    accepted, each with a key above the key of everything published before it.
   */
  lemma LocalKeys(steeringOn: bool, steeringOff: bool, passes: seq<Pass>, i: nat, j: nat)
    ensures
      var q := EmittedBy(Turn(steeringOn, steeringOff, passes).trace);
      i < j < |q| && q[j].sequence == 0 ==>
        Key(q[i]) < Key(q[j]) && (q[i].sequence == 0 ==> q[i].stamp < q[j].stamp)
  {
    TurnInv(steeringOn, steeringOff, passes);
    MergeSoFar(Turn(steeringOn, steeringOff, passes).trace);
  }

  predicate Settled(q: seq<Entry>) {
    forall e :: e in q ==> !Ambiguous(e.seen.result.outcome)
  }

  /** After an ambiguous outcome no further provider call is submitted in the turn. */
  lemma NothingAfterAmbiguity(t: Trace, later: nat)
    requires Protocol(t) && t.Then? && t.deed == Submitted(later)
    ensures Settled(AcceptedBy(t.past))
  {
    AmbiguityIsRemembered(t.past);
  }

  lemma {:induction false} AmbiguityIsRemembered(t: Trace)
    ensures FactsOf(t).ambiguous || Settled(AcceptedBy(t))
  {
    if t.Then? {
      AmbiguityIsRemembered(t.past);
      Unfold(t.past, t.deed);
    }
  }
}
