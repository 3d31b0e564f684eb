/**
  What the arbiter promises over every run: any commands, updates, reports and barrier results in
  any order. The facts a trace establishes, what may come next, and the invariant that ties them
  to the arbiter's fields. First the invariant's parts, deed by deed; then the arbiter's functions.

  The invariant has three parts. `Ledger` accounts for the commands taken: each is answered, or has
  its observation pending, or its call out. `Slots` does the same for the lane's slots. `Order`
  relates what was published to what was accepted and is still pending, by sequence and by stamp.
 */
module ArbiterProtocol {
  import opened Options
  import opened DriverContract
  import opened Admission
  import opened AcpSteering
  import opened ArbiterModel
  import D = DispatcherModel

  /**
    Commands taken and answered; observations accepted (an entry's stamp is its index) and the
    stamps of those emitted; sequence and stamp of the last one emitted by sequence; the highest
    key so far; the stamp of the last one emitted without a sequence; how far the update barrier
    got; whether an ambiguous outcome was seen, the order broke, or a reply is owed.
   */
  datatype Facts = Facts(
    taken: set<nat>, answered: set<nat>, accepted: seq<Entry>, emitted: set<nat>,
    lastSequence: nat, lastStamp: int, topKey: nat, lastLocal: int,
    fenced: nat, ambiguous: bool, flushing: bool, owed: Option<Entry>)

  const NO_FACTS := Facts({}, {}, [], {}, 0, -1, 0, -1, 0, false, false, None)

  function Owed(e: Entry): Option<Entry> {
    if e.kind.Steer? then Some(e) else None
  }

  function AddEmitted(f: Facts, e: Entry): Facts {
    if e.sequence != 0 then
      f.(emitted := f.emitted + {e.stamp}, lastSequence := e.sequence, lastStamp := e.stamp,
         topKey := Max(f.topKey, e.sequence), owed := Owed(e))
    else
      f.(emitted := f.emitted + {e.stamp}, lastLocal := e.stamp, topKey := Max(f.topKey, e.order), owed := Owed(e))
  }

  function Add(f: Facts, d: Deed): Facts {
    match d
    case Took(id) => f.(taken := f.taken + {id})
    case Accepted(e) => f.(accepted := f.accepted + [e], ambiguous := f.ambiguous || Ambiguous(e.seen.result.outcome))
    case Fence(sequence) => f.(fenced := Max(f.fenced, sequence))
    case Emitted(e) => AddEmitted(f, e)
    case Flushed(e) => f.(flushing := true, owed := Owed(e))
    case Answered(id, _) => f.(answered := f.answered + {id}, owed := None)
    case Broke => f.(flushing := true)
    case _ => f
  }

  function FactsOf(t: Trace): Facts {
    if t.Start? then NO_FACTS else Add(FactsOf(t.past), t.deed)
  }

  /** The observation as it was accepted. */
  function Plain(e: Entry): Entry {
    if e.sequence != 0 then e else WithLocalOrder(e, 0)
  }

  predicate AllEmitted(f: Facts) {
    forall k :: 0 <= k < |f.accepted| ==> k in f.emitted
  }

  predicate LegalEmission(f: Facts, e: Entry) {
    // an accepted observation, unaltered but for the local key, for the first time
    && !f.flushing && e.stamp < |f.accepted| && f.accepted[e.stamp] == Plain(e) && e.stamp !in f.emitted
    && e.seen == e.answer
    && (e.sequence != 0 ==>
          // stably ordered by sequence, and behind the update barrier
          && (f.lastSequence < e.sequence || (f.lastSequence == e.sequence && f.lastStamp < e.stamp))
          && (!e.kind.Update? ==> e.sequence <= f.fenced))
    && (e.sequence == 0 ==>
          // in order of acceptance, above every key so far, when nothing with a sequence is waiting
          && f.lastLocal < e.stamp
          && f.topKey < e.order
          && forall k :: 0 <= k < |f.accepted| && f.accepted[k].sequence != 0 ==> k in f.emitted)
  }

  predicate Legal(f: Facts, d: Deed) {
    match d
    case Took(id) => f.owed.None? && (forall k :: k in f.taken ==> k < id)
    case Submitted(id) => f.owed.None? && !f.ambiguous && id in f.taken && id !in f.answered
    case Accepted(e) =>
      && f.owed.None? && !f.flushing
      && e.stamp == |f.accepted| && Plain(e) == e && e.seen == e.answer
      && (e.kind.Steer? ==> e.kind.owner in f.taken && e.kind.owner !in f.answered)
    case Fence(_) => f.owed.None?
    case Emitted(e) =>
      && f.owed.None? && LegalEmission(f, e)
      && (e.kind.Steer? ==> e.kind.owner in f.taken && e.kind.owner !in f.answered)
    case Flushed(e) =>
      && f.owed.None? && e.seen == e.answer
      && e.kind.Steer? && e.kind.owner in f.taken && e.kind.owner !in f.answered
    case Answered(id, reply) =>
      // the one reply is the result just observed
      f.owed.Some? && f.owed.value.kind == Steer(id) && f.owed.value.seen == reply && id in f.taken && id !in f.answered
    case Broke => f.owed.None? && f.answered == f.taken
    case Finished => f.owed.None? && !f.flushing && f.answered == f.taken && AllEmitted(f)
    case _ => f.owed.None? && !f.flushing
  }

  /** Something reached the arbiter, and it has not yet done anything about it. */
  predicate Arrival(d: Deed) {
    d.Notified? || d.Received? || d.Told? || d.Arrived? || d.TerminalAsked? || d.Swept?
  }

  predicate Protocol(t: Trace) {
    t.Then? ==> Legal(FactsOf(t.past), t.deed) && Protocol(t.past)
  }

  // ---------------------------------------------------------------- the invariant

  predicate OwnersApart(q: seq<Entry>) {
    q != [] ==> Owner(q[|q| - 1]) !! Owners(q[..|q| - 1]) && OwnersApart(q[..|q| - 1])
  }

  predicate Distinct(ids: seq<nat>) {
    forall i, j :: 0 <= i < j < |ids| ==> ids[i] != ids[j]
  }

  /** Every command taken is answered, or its observation is pending, or its provider call is out. */
  ghost predicate Ledger(f: Facts, q: seq<Entry>, steers: seq<nat>, received: nat) {
    && f.owed.None?
    && (forall id :: id in f.taken ==> id < received)
    && OwnersApart(q) && Distinct(steers)
    && f.answered !! Owners(q) !! SetOf(steers)
    && f.taken == f.answered + Owners(q) + SetOf(steers)
  }

  function Stamps(q: seq<Entry>): set<nat> {
    set e | e in q :: e.stamp
  }

  predicate Ascending(q: seq<Entry>) {
    forall i, j :: 0 <= i < j < |q| ==> q[i].stamp < q[j].stamp
  }

  /** Every observation accepted is pending or emitted, and what is pending may still come in order. */
  ghost predicate Order(f: Facts, q: seq<Entry>, lastRaw: nat, lastOrder: nat) {
    && !f.flushing
    && Ascending(q)
    && (forall e :: e in q ==> e.stamp < |f.accepted| && f.accepted[e.stamp] == e)
    && (forall k :: 0 <= k < |f.accepted| ==>
          && f.accepted[k].stamp == k && Plain(f.accepted[k]) == f.accepted[k]
          && f.accepted[k].seen == f.accepted[k].answer)
    && (forall k :: 0 <= k < |f.accepted| ==> (k in Stamps(q) <==> k !in f.emitted))
    && (forall k :: k in f.emitted ==> k < |f.accepted|)
    && lastRaw == f.lastSequence <= f.topKey == lastOrder
    && f.lastStamp < |f.accepted| && f.lastLocal < |f.accepted|
    && (forall e :: e in q && e.sequence == f.lastSequence != 0 ==> f.lastStamp < e.stamp)
    && (forall e :: e in q && e.sequence == 0 ==> f.lastLocal < e.stamp)
  }

  function Ids(n: nat): set<nat> {
    if n == 0 then {} else Ids(n - 1) + {n - 1}
  }

  /** The slots of commands whose observation is still to come are held, all others are free. */
  ghost predicate Slots(q: seq<Entry>, steers: seq<nat>, released: set<nat>, received: nat) {
    && released !! Owners(q) + SetOf(steers)
    && released + Owners(q) + SetOf(steers) == Ids(received)
  }

  ghost predicate Live(s: State) {
    var f := FactsOf(s.trace);
    && Ledger(f, s.pending, s.steers, s.received)
    && Slots(s.pending, s.steers, s.released, s.received)
    && f.fenced == s.barrierCompleted
    && (f.ambiguous ==> s.steeringOff)
    && (if s.failed then s.pending == [] && s.steers == [] && s.trace.Then? && s.trace.deed == Broke
        else Order(f, s.pending, s.lastRaw, s.lastOrder) && s.stamps == |f.accepted|)
  }

  ghost predicate Inv(s: State) {
    && Protocol(s.trace)
    && (s.exit == Running ==> Live(s))
    && (s.exit == ByTerminal ==> s.trace.Then? && s.trace.deed == Finished)
    && (s.exit == ByRegression ==> s.trace.Then? && s.trace.deed == Broke)
    && (s.exit != Running ==> s.released == Ids(s.received))
  }

  lemma Unfold(t: Trace, d: Deed)
    ensures FactsOf(Then(t, d)) == Add(FactsOf(t), d)
    ensures Protocol(Then(t, d)) <==> Legal(FactsOf(t), d) && Protocol(t)
  {
  }

  // ---------------------------------------------------------------- the queue of observations

  function Removed(q: seq<Entry>, i: nat): seq<Entry>
    requires i < |q|
  {
    q[..i] + q[i + 1..]
  }

  lemma OwnersSnoc(q: seq<Entry>, e: Entry)
    ensures Owners(q + [e]) == Owners(q) + Owner(e)
    ensures OwnersApart(q) && Owner(e) !! Owners(q) ==> OwnersApart(q + [e])
  {
    assert (q + [e])[..|q|] == q;
  }

  lemma {:induction false} OwnersWithout(q: seq<Entry>, i: nat)
    requires i < |q| && OwnersApart(q)
    ensures OwnersApart(Removed(q, i))
    ensures Owner(q[i]) <= Owners(q) && Owners(Removed(q, i)) == Owners(q) - Owner(q[i])
    decreases |q|
  {
    var front, last := q[..|q| - 1], q[|q| - 1];
    if i == |q| - 1 {
      assert q[i + 1..] == [];
      assert Removed(q, i) == front;
    } else {
      OwnersWithout(front, i);
      assert Removed(q, i) == Removed(front, i) + [last];
      OwnersSnoc(Removed(front, i), last);
    }
  }

  lemma RemovedElements(q: seq<Entry>, i: nat)
    requires i < |q| && Ascending(q)
    ensures Ascending(Removed(q, i))
    ensures forall e :: e in Removed(q, i) <==> e in q && e.stamp != q[i].stamp
    ensures Stamps(Removed(q, i)) == Stamps(q) - {q[i].stamp}
  {
    var r := Removed(q, i);
    forall e | e in q && e.stamp != q[i].stamp ensures e in r {
      var k :| 0 <= k < |q| && q[k] == e;
      assert r[if k < i then k else k - 1] == e;
    }
  }

  lemma StampsSnoc(q: seq<Entry>, e: Entry)
    ensures Stamps(q + [e]) == Stamps(q) + {e.stamp}
  {
    assert e in q + [e];
    forall k | k in Stamps(q) ensures k in Stamps(q + [e]) {
      var x :| x in q && x.stamp == k;
      assert x in q + [e];
    }
  }

  lemma WithoutElements(ids: seq<nat>, id: nat)
    requires Distinct(ids)
    ensures Distinct(Without(ids, id)) && SetOf(Without(ids, id)) == SetOf(ids) - {id}
  {
    if ids == [] {
    } else if ids[0] == id {
      HeadIsApart(ids);
    } else {
      HeadIsApart(ids);
      WithoutElements(ids[1..], id);
      assert forall k :: k in Without(ids[1..], id) ==> k in SetOf(Without(ids[1..], id));
      ConsDistinct(ids[0], Without(ids[1..], id));
    }
  }

  lemma ConsDistinct(id: nat, ids: seq<nat>)
    requires Distinct(ids) && id !in ids
    ensures Distinct([id] + ids) && SetOf([id] + ids) == {id} + SetOf(ids)
  {
  }

  lemma HeadIsApart(ids: seq<nat>)
    requires Distinct(ids) && ids != []
    ensures Distinct(ids[1..]) && ids[0] !in ids[1..] && SetOf(ids) == {ids[0]} + SetOf(ids[1..])
  {
    assert ids == [ids[0]] + ids[1..];
  }

  // ---------------------------------------------------------------- the choice of the next observation

  /** The candidate rule: least sequence first, ties and observations without one by acceptance. */
  predicate IsNext(q: seq<Entry>, n: nat, i: int)
    requires n <= |q| && i < |q|
  {
    && 0 <= i < n
    && (q[i].sequence == 0 ==> i == 0)
    && (forall k :: 0 <= k < n && q[k].sequence != 0 ==>
          && 0 < q[i].sequence <= q[k].sequence
          && (k < i ==> q[i].sequence < q[k].sequence))
  }

  lemma {:induction false} BestIsNext(q: seq<Entry>, n: nat)
    requires 0 < n <= |q|
    ensures IsNext(q, n, BestOf(q, n))
  {
    if n > 1 {
      BestIsNext(q, n - 1);
    } else {
      assert BestOf(q, 0) == -1;
    }
  }

  // ---------------------------------------------------------------- the ledger, deed by deed

  /** The facts the ledger does not look at may change freely. */
  lemma LedgerSame(f: Facts, g: Facts, q: seq<Entry>, steers: seq<nat>, received: nat)
    requires Ledger(f, q, steers, received)
    requires g.taken == f.taken && g.answered == f.answered && g.owed.None?
    ensures Ledger(g, q, steers, received)
  {
  }

  lemma TakeLedger(f: Facts, q: seq<Entry>, steers: seq<nat>, id: nat)
    requires Ledger(f, q, steers, id)
    ensures
      var g := Add(f, Took(id));
      && Legal(f, Took(id)) && id !in g.answered && id !in Owners(q) && id !in SetOf(steers)
      && (forall k :: k in g.taken ==> k < id + 1)
      && g.owed.None? && OwnersApart(q) && Distinct(steers)
      && g.answered !! Owners(q) !! SetOf(steers)
      && g.taken == g.answered + Owners(q) + SetOf(steers) + {id}
  {
    hide OwnersApart, Distinct, Owners, SetOf;
    assert id !in f.taken;
  }

  /** A command answered on the spot. */
  lemma TakeLocalLedger(f: Facts, q: seq<Entry>, steers: seq<nat>, id: nat, e: Entry)
    requires Ledger(f, q, steers, id) && e.kind == Steer(id)
    ensures Ledger(Add(Add(f, Took(id)), Accepted(e)), q + [e], steers, id + 1)
  {
    hide OwnersApart, Distinct, Owners, SetOf;
    TakeLedger(f, q, steers, id);
    OwnersSnoc(q, e);
  }

  /** A command handed to the dispatcher. */
  lemma SubmitLedger(f: Facts, q: seq<Entry>, steers: seq<nat>, id: nat)
    requires Ledger(f, q, steers, id)
    ensures Ledger(Add(Add(f, Took(id)), Submitted(id)), q, steers + [id], id + 1)
  {
    hide OwnersApart, Owners;
    TakeLedger(f, q, steers, id);
    assert id !in SetOf(steers);
    SetOfSnoc(steers, id);
  }

  lemma SetOfSnoc(ids: seq<nat>, id: nat)
    requires Distinct(ids) && id !in ids
    ensures Distinct(ids + [id]) && SetOf(ids + [id]) == SetOf(ids) + {id}
  {
  }

  /** The dispatcher's report is queued in place of its call. */
  lemma ReportLedger(f: Facts, q: seq<Entry>, steers: seq<nat>, received: nat, e: Entry)
    requires Ledger(f, q, steers, received) && e.kind.Steer? && e.kind.owner in steers
    ensures Ledger(Add(f, Accepted(e)), q + [e], Without(steers, e.kind.owner), received)
    ensures e.kind.owner in f.taken && e.kind.owner !in f.answered
  {
    hide OwnersApart, Distinct, Owners, SetOf;
    assert e.kind.owner in SetOf(steers) by {
      assert e.kind.owner in steers;
      SetOfHas(steers, e.kind.owner);
    }
    WithoutElements(steers, e.kind.owner);
    OwnersSnoc(q, e);
    assert Owner(e) == {e.kind.owner};
  }

  lemma SetOfHas(ids: seq<nat>, id: nat)
    ensures id in SetOf(ids) <==> id in ids
  {
  }

  lemma OtherLedger(f: Facts, q: seq<Entry>, steers: seq<nat>, received: nat, e: Entry)
    requires Ledger(f, q, steers, received) && !e.kind.Steer?
    ensures Ledger(Add(f, Accepted(e)), q + [e], steers, received)
  {
    hide OwnersApart, Distinct, Owners, SetOf;
    OwnersSnoc(q, e);
  }

  /** The facts after an observation went out, with its reply if it has one. */
  function Out(f: Facts, d: Deed, e: Entry): Facts {
    if e.kind.Steer? then Add(Add(f, d), Answered(e.kind.owner, e.answer)) else Add(f, d)
  }

  lemma OutLedger(f: Facts, q: seq<Entry>, steers: seq<nat>, received: nat, i: nat, d: Deed, e: Entry)
    requires Ledger(f, q, steers, received) && i < |q| && e.kind == q[i].kind && e.seen == e.answer
    requires d == Emitted(e) || (d == Flushed(e) && e.kind.Steer?)
    ensures Ledger(Out(f, d, e), Removed(q, i), steers, received)
    ensures e.kind.Steer? ==>
      e.kind.owner in f.taken && e.kind.owner !in f.answered && Legal(Add(f, d), Answered(e.kind.owner, e.answer))
  {
    hide OwnersApart, Distinct, Owners, SetOf, Removed;
    OwnersWithout(q, i);
    assert Owner(q[i]) == Owner(e);
    assert e.kind.Steer? ==> e.kind.owner in Owner(e);
  }

  /** A call that will not be answered any more gets its observation and reply at once. */
  lemma FlushLedger(f: Facts, q: seq<Entry>, steers: seq<nat>, received: nat, e: Entry)
    requires Ledger(f, q, steers, received) && steers != [] && e.kind == Steer(steers[0]) && e.seen == e.answer
    ensures Ledger(Out(f, Flushed(e), e), q, steers[1..], received)
    ensures Legal(f, Flushed(e)) && Legal(Add(f, Flushed(e)), Answered(e.kind.owner, e.answer))
  {
    hide OwnersApart, Distinct, Owners, SetOf;
    HeadIsApart(steers);
    SetOfHas(steers[1..], steers[0]);
  }

  lemma SettledLedger(f: Facts, received: nat)
    requires Ledger(f, [], [], received)
    ensures f.answered == f.taken && f.owed.None?
  {
  }

  // ---------------------------------------------------------------- the slots, deed by deed

  lemma SlotsGrow(
    q: seq<Entry>, steers: seq<nat>, released: set<nat>, id: nat, r: seq<Entry>, after: seq<nat>,
    free: set<nat>)
    requires Slots(q, steers, released, id)
    requires free + Owners(r) + SetOf(after) == released + Owners(q) + SetOf(steers) + {id}
    requires free !! Owners(r) + SetOf(after)
    ensures Slots(r, after, free, id + 1)
  {
    hide Owners, SetOf;
  }

  /** A slot moves with the command's observation, or is freed with its reply. */
  lemma SlotsMove(
    q: seq<Entry>, steers: seq<nat>, released: set<nat>, received: nat, r: seq<Entry>, after: seq<nat>,
    gone: set<nat>)
    requires Slots(q, steers, released, received)
    requires Owners(q) + SetOf(steers) == Owners(r) + SetOf(after) + gone && gone !! Owners(r) + SetOf(after)
    ensures Slots(r, after, released + gone, received)
  {
    hide Owners, SetOf;
  }

  // ---------------------------------------------------------------- the order, deed by deed

  /** The facts the order does not look at may change freely. */
  lemma OrderSame(f: Facts, g: Facts, q: seq<Entry>, lastRaw: nat, lastOrder: nat)
    requires Order(f, q, lastRaw, lastOrder)
    requires g == f.(taken := g.taken, answered := g.answered, fenced := g.fenced, ambiguous := g.ambiguous,
                     owed := g.owed)
    ensures Order(g, q, lastRaw, lastOrder)
  {
  }

  lemma AcceptOrder(f: Facts, q: seq<Entry>, lastRaw: nat, lastOrder: nat, e: Entry)
    requires Order(f, q, lastRaw, lastOrder)
    requires e.stamp == |f.accepted| && Plain(e) == e && e.seen == e.answer
    ensures Order(Add(f, Accepted(e)), q + [e], lastRaw, lastOrder)
  {
    StampsSnoc(q, e);
    assert forall i :: 0 <= i < |q| ==> q[i] in q && q[i].stamp < e.stamp;
  }

  lemma EmitRawOrder(f: Facts, q: seq<Entry>, lastRaw: nat, lastOrder: nat, i: nat)
    requires Order(f, q, lastRaw, lastOrder) && i < |q| && IsNext(q, |q|, i)
    requires lastRaw <= q[i].sequence != 0 && (!q[i].kind.Update? ==> q[i].sequence <= f.fenced)
    ensures LegalEmission(f, q[i])
    ensures Order(AddEmitted(f, q[i]), Removed(q, i), q[i].sequence, Max(lastOrder, q[i].sequence))
  {
    var e := q[i];
    assert e in q && e.stamp in Stamps(q);
    RemovedElements(q, i);
    forall x | x in Removed(q, i) && x.sequence == e.sequence ensures e.stamp < x.stamp {
      var k :| 0 <= k < |q| && q[k] == x;
    }
  }

  lemma EmitLocalOrder(f: Facts, q: seq<Entry>, lastRaw: nat, lastOrder: nat, i: nat, e: Entry)
    requires Order(f, q, lastRaw, lastOrder) && i < |q| && IsNext(q, |q|, i) && q[i].sequence == 0
    requires e == WithLocalOrder(q[i], Max(lastOrder, lastRaw) + 1)
    ensures LegalEmission(f, e)
    ensures Order(AddEmitted(f, e), Removed(q, i), lastRaw, e.order)
  {
    assert q[i] in q && q[i].stamp in Stamps(q);
    RemovedElements(q, i);
    assert forall x :: x in q ==> x.sequence == 0;
    AcceptedLocals(f, q, lastRaw, lastOrder);
    assert Plain(e) == q[i];
    forall x | x in Removed(q, i) ensures e.stamp < x.stamp {
      var k :| 0 <= k < |q| && q[k] == x;
    }
  }

  /** If nothing with a sequence is pending, everything with a sequence is out. */
  lemma AcceptedLocals(f: Facts, q: seq<Entry>, lastRaw: nat, lastOrder: nat)
    requires Order(f, q, lastRaw, lastOrder) && forall x :: x in q ==> x.sequence == 0
    ensures forall k :: 0 <= k < |f.accepted| && f.accepted[k].sequence != 0 ==> k in f.emitted
  {
    forall k | k in Stamps(q) ensures k < |f.accepted| && f.accepted[k].sequence == 0 {
      var x :| x in q && x.stamp == k;
    }
  }

  lemma AllOut(f: Facts, lastRaw: nat, lastOrder: nat)
    requires Order(f, [], lastRaw, lastOrder)
    ensures AllEmitted(f) && !f.flushing
  {
  }

  // ---------------------------------------------------------------- the invariant, function by function

  /** A live arbiter and a trace that kept the protocol. */
  ghost predicate Good(s: State) {
    Protocol(s.trace) && s.exit == Running && Live(s)
  }

  /** A state of the merge: nothing broke. */
  ghost predicate Merging(s: State) {
    Good(s) && !s.failed
  }

  /** The fields the invariant does not mention. */
  predicate Indifferent(s: State, t: State) {
    && t.received == s.received && t.stamps == s.stamps && t.pending == s.pending && t.steers == s.steers
    && t.released == s.released && t.barrierCompleted == s.barrierCompleted
    && t.lastRaw == s.lastRaw && t.lastOrder == s.lastOrder && t.failed == s.failed
    && (s.steeringOff ==> t.steeringOff) && t.exit == s.exit && t.trace == s.trace
  }

  lemma IndifferentKeeps(s: State, t: State)
    requires Merging(s) && Indifferent(s, t)
    ensures Merging(t)
  {
    hide FactsOf, Protocol, Ledger, Slots, Order;
  }

  predicate Unkeyed(r: Reply) {
    r.result.orderSequence == 0
  }

  lemma EnqueueOtherKeeps(s: State, kind: Kind, sequence: nat)
    requires Merging(s) && !kind.Steer?
    ensures Merging(Enqueue(s, kind, sequence, SILENCE))
  {
    hide FactsOf, Protocol, Ledger, Slots, Order;
    var f := FactsOf(s.trace);
    var e := Entry(s.stamps, kind, sequence, 0, SILENCE, SILENCE);
    Unfold(s.trace, Accepted(e));
    AcceptOrder(f, s.pending, s.lastRaw, s.lastOrder, e);
    OtherLedger(f, s.pending, s.steers, s.received, e);
    OwnersSnoc(s.pending, e);
    SlotsMove(s.pending, s.steers, s.released, s.received, s.pending + [e], s.steers, {});
    assert s.released + {} == s.released;
    OrderFlags(f, s.pending, s.lastRaw, s.lastOrder);
    LedgerFlags(f, s.pending, s.steers, s.received);
  }

  lemma ArrivalKeeps(s: State, d: Deed)
    requires Merging(s) && Arrival(d)
    ensures Merging(Note(s, d))
  {
    hide FactsOf, Protocol, Ledger, Slots, Order;
    var f := FactsOf(s.trace);
    Unfold(s.trace, d);
    LedgerFlags(f, s.pending, s.steers, s.received);
    OrderFlags(f, s.pending, s.lastRaw, s.lastOrder);
  }

  lemma OrderFlags(f: Facts, q: seq<Entry>, lastRaw: nat, lastOrder: nat)
    requires Order(f, q, lastRaw, lastOrder)
    ensures !f.flushing
  {
  }

  lemma LedgerFlags(f: Facts, q: seq<Entry>, steers: seq<nat>, received: nat)
    requires Ledger(f, q, steers, received)
    ensures f.owed.None? && (forall id :: id in f.taken ==> id < received) && OwnersApart(q) && Distinct(steers)
    ensures Owners(q) !! SetOf(steers)
    ensures forall id :: id in Owners(q) || id in SetOf(steers) ==> id in f.taken && id !in f.answered
  {
  }

  lemma {:induction false} EnqueueUpdatesKeeps(s: State, events: nat, sequence: nat)
    requires Merging(s)
    ensures Merging(EnqueueUpdates(s, events, sequence))
    decreases events
  {
    hide Good, Enqueue;
    if events != 0 {
      EnqueueOtherKeeps(s, Update, sequence);
      EnqueueUpdatesKeeps(Enqueue(s, Update, sequence, SILENCE), events - 1, sequence);
    }
  }

  lemma AcceptUpdateKeeps(s: State, u: Notification)
    requires Merging(s)
    ensures Merging(AcceptUpdate(s, u))
  {
    hide Good;
    ArrivalKeeps(s, Notified(u));
    EnqueueUpdatesKeeps(Note(s, Notified(u)), u.events, u.sequence);
  }

  lemma {:induction false} AcceptUpdatesKeeps(s: State, us: seq<Notification>)
    requires Merging(s)
    ensures Merging(AcceptUpdates(s, us))
    decreases |us|
  {
    hide Good, AcceptUpdate;
    if us != [] {
      AcceptUpdateKeeps(s, us[0]);
      AcceptUpdatesKeeps(AcceptUpdate(s, us[0]), us[1..]);
    }
  }

  lemma DrainUpdatesKeeps(s: State, d: Drained)
    requires Merging(s)
    ensures Merging(DrainUpdates(s, d))
  {
    hide Merging, AcceptUpdates;
    AcceptUpdatesKeeps(s, d.updates);
    if s.updatesOpen {
      var t := AcceptUpdates(s, d.updates);
      var u := t.(updatesOpen := !d.closed, updatesDrained := d.updates == []);
      IndifferentKeeps(t, u);
      ArrivalKeeps(u, Swept(d.updates == []));
    } else {
      IndifferentKeeps(s, s.(updatesDrained := true));
      ArrivalKeeps(s.(updatesDrained := true), Swept(true));
    }
  }

  // ---------------------------------------------------------------- commands

  lemma JudgeUnkeyed(c: Command, enabled: bool)
    ensures Judge(c, enabled).Local? ==> Unkeyed(Judge(c, enabled).reply)
    ensures Judge(c, enabled).Local? ==> !Ambiguous(Judge(c, enabled).reply.result.outcome)
    ensures Judge(c, enabled).Submit? ==> enabled
  {
  }

  lemma DropKeeps(s: State)
    requires Merging(s)
    ensures Merging(s.(received := s.received + 1, released := s.released + {s.received}))
  {
    hide FactsOf, Protocol, Order;
    var f := FactsOf(s.trace);
    SlotsHave(s.pending, s.steers, s.released, s.received);
    SlotsGrow(s.pending, s.steers, s.released, s.received, s.pending, s.steers, s.released + {s.received});
  }

  lemma SlotsHave(q: seq<Entry>, steers: seq<nat>, released: set<nat>, received: nat)
    requires Slots(q, steers, released, received)
    ensures received !in released && received !in Owners(q) && received !in SetOf(steers)
  {
    IdsAreBelow(received, received);
  }

  lemma {:induction false} IdsAreBelow(n: nat, k: nat)
    ensures k in Ids(n) <==> k < n
  {
    if n != 0 {
      IdsAreBelow(n - 1, k);
    }
  }

  lemma AnsweredAtOnceKeeps(s: State, reply: Reply)
    requires Merging(s) && Unkeyed(reply) && !Ambiguous(reply.result.outcome)
    ensures
      var s1 := Note(s.(received := s.received + 1), Took(s.received));
      Merging(Enqueue(s1, Steer(s.received), reply.result.receiveSequence, reply))
  {
    hide FactsOf, Protocol, Ledger, Slots, Order;
    var f, id := FactsOf(s.trace), s.received;
    var e := Entry(s.stamps, Steer(id), reply.result.receiveSequence, 0, reply, reply);
    var g := Add(f, Took(id));
    Unfold(s.trace, Took(id));
    Unfold(Then(s.trace, Took(id)), Accepted(e));
    TakeLedger(f, s.pending, s.steers, id);
    TakeLocalLedger(f, s.pending, s.steers, id, e);
    OrderFlags(f, s.pending, s.lastRaw, s.lastOrder);
    OrderTake(f, g, s.pending, s.lastRaw, s.lastOrder, e);
    SlotsQueue(s.pending, s.steers, s.released, id, e);
  }

  /** The slot of a command answered on the spot is held by its observation. */
  lemma SlotsQueue(q: seq<Entry>, steers: seq<nat>, released: set<nat>, id: nat, e: Entry)
    requires Slots(q, steers, released, id) && e.kind == Steer(id)
    ensures Slots(q + [e], steers, released, id + 1)
  {
    SlotsHave(q, steers, released, id);
    OwnersSnoc(q, e);
    hide Owners, SetOf;
    assert Owners(q + [e]) == Owners(q) + {id};
    SlotsGrow(q, steers, released, id, q + [e], steers, released);
  }

  /** The slot of a command handed to the dispatcher is held by its call. */
  lemma SlotsSubmit(q: seq<Entry>, steers: seq<nat>, released: set<nat>, id: nat)
    requires Slots(q, steers, released, id) && Distinct(steers)
    ensures Slots(q, steers + [id], released, id + 1)
  {
    SlotsHave(q, steers, released, id);
    SetOfHas(steers, id);
    SetOfSnoc(steers, id);
    hide Owners, SetOf;
    SlotsGrow(q, steers, released, id, q, steers + [id], released);
  }

  lemma OrderTake(f: Facts, g: Facts, q: seq<Entry>, lastRaw: nat, lastOrder: nat, e: Entry)
    requires Order(f, q, lastRaw, lastOrder)
    requires g == f.(taken := g.taken, answered := g.answered, fenced := g.fenced, ambiguous := g.ambiguous,
                     owed := g.owed)
    requires e.stamp == |f.accepted| && Plain(e) == e && e.seen == e.answer
    ensures Order(Add(g, Accepted(e)), q + [e], lastRaw, lastOrder)
  {
    hide Order;
    OrderSame(f, g, q, lastRaw, lastOrder);
    AcceptOrder(g, q, lastRaw, lastOrder, e);
  }

  lemma SubmittedKeeps(s: State)
    requires Merging(s) && !s.steeringOff
    ensures
      var s1 := Note(s.(received := s.received + 1), Took(s.received));
      Merging(Note(s1.(steers := s1.steers + [s.received]), Submitted(s.received)))
  {
    hide FactsOf, Protocol, Ledger, Slots, Order;
    var f, id := FactsOf(s.trace), s.received;
    var g := Add(f, Took(id));
    Unfold(s.trace, Took(id));
    Unfold(Then(s.trace, Took(id)), Submitted(id));
    TakeLedger(f, s.pending, s.steers, id);
    SubmitLedger(f, s.pending, s.steers, id);
    OrderSame(f, g, s.pending, s.lastRaw, s.lastOrder);
    LedgerFlags(f, s.pending, s.steers, id);
    SlotsSubmit(s.pending, s.steers, s.released, id);
  }

  lemma AcceptCommandKeeps(s: State, c: Command)
    requires Merging(s)
    ensures Merging(AcceptCommand(s, c))
  {
    hide Merging, TakeCommand, Enabled;
    var d := c.(submittable := c.submittable && s.reportsOpen);
    ArrivalKeeps(s, Received(s.received, d, Enabled(s)));
    TakeCommandKeeps(Note(s, Received(s.received, d, Enabled(s))), d);
  }

  lemma TakeCommandKeeps(s: State, c: Command)
    requires Merging(s)
    ensures Merging(TakeCommand(s, c))
  {
    hide Merging, Judge, Unkeyed, Ambiguous;
    JudgeUnkeyed(c, Enabled(s));
    if !c.hasReply {
      DropKeeps(s);
    } else {
      match Judge(c, Enabled(s)) {
        case Local(reply) => AnsweredAtOnceKeeps(s, reply);
        case Submit => SubmittedKeeps(s);
      }
    }
  }

  lemma {:induction false} AcceptCommandsKeeps(s: State, cs: seq<Command>)
    requires Merging(s)
    ensures Merging(AcceptCommands(s, cs))
    decreases |cs|
  {
    hide Merging, AcceptCommand;
    if cs != [] {
      AcceptCommandKeeps(s, cs[0]);
      AcceptCommandsKeeps(AcceptCommand(s, cs[0]), cs[1..]);
    }
  }

  // ---------------------------------------------------------------- reports and barriers

  lemma AnswerUnkeyed(id: nat, result: D.ClientResult, err: D.ClientError, admission: Admission, late: bool)
    ensures Unkeyed(Answer(id, result, err, admission, late))
  {
  }

  /** The report takes the place of its call; an ambiguous one has switched steering off. */
  lemma ReportedKeeps(s: State, id: nat, sequence: nat, reply: Reply, off: bool)
    requires Merging(s) && id in s.steers && Unkeyed(reply)
    requires Ambiguous(reply.result.outcome) ==> off
    ensures Merging(Enqueue(Disable(s.(steers := Without(s.steers, id)), off), Steer(id), sequence, reply))
  {
    hide FactsOf, Protocol, Ledger, Slots, Order, Ambiguous;
    var f := FactsOf(s.trace);
    var e := Entry(s.stamps, Steer(id), sequence, 0, reply, reply);
    Unfold(s.trace, Accepted(e));
    LedgerFlags(f, s.pending, s.steers, s.received);
    ReportLedger(f, s.pending, s.steers, s.received, e);
    OrderFlags(f, s.pending, s.lastRaw, s.lastOrder);
    AcceptOrder(f, s.pending, s.lastRaw, s.lastOrder, e);
    OwnersSnoc(s.pending, e);
    WithoutElements(s.steers, id);
    SetOfHas(s.steers, id);
    assert SetOf(s.steers) == SetOf(Without(s.steers, id)) + {id};
    SlotsMove(s.pending, s.steers, s.released, s.received, s.pending + [e], Without(s.steers, id), {});
    assert s.released + {} == s.released;
  }

  lemma MaybePromptBarrierIndifferent(s: State, barrierTakes: bool)
    ensures Indifferent(s, MaybePromptBarrier(s, barrierTakes))
  {
    RequestBarrierIndifferent(s.(promptBarrierRequested := true), if s.prompt.Some? then s.prompt.value else 0,
                              barrierTakes);
  }

  lemma RequestBarrierIndifferent(s: State, sequence: nat, barrierTakes: bool)
    ensures Indifferent(s, RequestBarrier(s, sequence, barrierTakes))
  {
  }

  /** Asking for the prompt barrier before or after the report has left `steers` is the same to the invariant. */
  lemma AnsweredKeeps(s: State, id: nat, sequence: nat, reply: Reply, off: bool, barrierTakes: bool)
    requires Merging(s) && id in s.steers && Unkeyed(reply)
    requires Ambiguous(reply.result.outcome) ==> off
    ensures
      var s1 := s.(steers := Without(s.steers, id));
      Merging(Enqueue(Disable(MaybePromptBarrier(s1, barrierTakes), off), Steer(id), sequence, reply))
  {
    hide Merging, Ambiguous, MaybePromptBarrier;
    ReportedKeeps(s, id, sequence, reply, off);
    var s1 := s.(steers := Without(s.steers, id));
    var s2 := MaybePromptBarrier(s1, barrierTakes);
    MaybePromptBarrierIndifferent(s1, barrierTakes);
    IndifferentKeeps(Enqueue(Disable(s1, off), Steer(id), sequence, reply),
                     Enqueue(Disable(s2, off), Steer(id), sequence, reply));
  }

  lemma AcceptReportKeeps(s: State, r: D.Report, barrierTakes: bool)
    requires Merging(s)
    ensures Merging(AcceptReport(s, r, barrierTakes))
  {
    hide TakeReport, Merging;
    ArrivalKeeps(s, Told(r));
    TakeReportKeeps(Note(s, Told(r)), r, barrierTakes);
  }

  lemma TakeReportKeeps(s: State, r: D.Report, barrierTakes: bool)
    requires Merging(s)
    ensures Merging(TakeReport(s, r, barrierTakes))
  {
    hide AcceptAnswer, Merging;
    if r.TerminalComplete? || r.id !in s.steers {
      StrayReportKeeps(s, r, barrierTakes);
    } else {
      AcceptAnswerKeeps(s, r, barrierTakes);
    }
  }

  lemma StrayReportKeeps(s: State, r: D.Report, barrierTakes: bool)
    requires Merging(s) && (r.TerminalComplete? || r.id !in s.steers)
    ensures Merging(TakeReport(s, r, barrierTakes))
  {
    hide AcceptAnswer, Merging;
    if r.TerminalComplete? {
      IndifferentKeeps(s, s.(terminalReady := true));
    } else if r.late || r.err != D.NoError || r.result.writeAdmitted {
      IndifferentKeeps(s, s.(steeringOff := true));
    } else {
      assert TakeReport(s, r, barrierTakes) == s;
    }
  }

  lemma AcceptAnswerKeeps(s: State, r: D.Report, barrierTakes: bool)
    requires Merging(s) && r.Report? && r.id in s.steers
    ensures Merging(AcceptAnswer(s, r, barrierTakes))
  {
    hide Merging, Answer, Unkeyed, Ambiguous, Enqueue, MaybePromptBarrier, GuaranteesNoDelivery;
    var reply := Answer(r.id, r.result, r.err, r.admission, r.late);
    AnswerUnkeyed(r.id, r.result, r.err, r.admission, r.late);
    if r.late {
      ReportedKeeps(s, r.id, 0, reply, Ambiguous(reply.result.outcome) || reply.result.outcome.AdmissionUnknown?);
    } else {
      var off := Ambiguous(reply.result.outcome) || GuaranteesNoDelivery(r.err);
      ReportedKeeps(s, r.id, reply.result.receiveSequence, reply, off);
      AnsweredKeeps(s, r.id, reply.result.receiveSequence, reply, off, barrierTakes);
    }
  }

  lemma FenceAdds(f: Facts, sequence: nat)
    ensures Add(f, Fence(sequence)) == f.(fenced := Max(f.fenced, sequence))
    ensures f.owed.None? ==> Legal(f, Fence(sequence))
  {
  }

  lemma FenceKeeps(s: State, sequence: nat)
    requires Merging(s)
    ensures Merging(Note(s.(barrierCompleted := Max(s.barrierCompleted, sequence)), Fence(sequence)))
  {
    hide FactsOf, Protocol, Ledger, Slots, Order;
    var f := FactsOf(s.trace);
    Unfold(s.trace, Fence(sequence));
    FenceAdds(f, sequence);
    hide Add, Legal;
    LedgerFlags(f, s.pending, s.steers, s.received);
    LedgerSame(f, Add(f, Fence(sequence)), s.pending, s.steers, s.received);
    OrderSame(f, Add(f, Fence(sequence)), s.pending, s.lastRaw, s.lastOrder);
  }

  lemma TakeBarrierResultKeeps(s: State, sequence: nat, d: Drained)
    requires Merging(s)
    ensures Merging(TakeBarrierResult(s, sequence, d))
  {
    hide Merging, DrainUpdates;
    FenceKeeps(s, sequence);
    var s1 := Note(s.(barrierBusy := false, barrierCompleted := Max(s.barrierCompleted, sequence),
                      barrierFence := s.barrierFence || sequence == 0), Fence(sequence));
    IndifferentKeeps(Note(s.(barrierCompleted := Max(s.barrierCompleted, sequence)), Fence(sequence)), s1);
    DrainUpdatesKeeps(s1, d);
  }

  // ---------------------------------------------------------------- emitting

  /** What a merge step makes of the queue and the order, before the deeds are noted. */
  function Merged(s: State, i: nat, lastRaw: nat, lastOrder: nat): State
    requires i < |s.pending|
  {
    s.(pending := Removed(s.pending, i), lastRaw := lastRaw, lastOrder := lastOrder)
  }

  ghost predicate Emittable(s: State, i: nat, e: Entry, lastRaw: nat, lastOrder: nat) {
    && Merging(s) && i < |s.pending| && e.kind == s.pending[i].kind && e.seen == e.answer
    && LegalEmission(FactsOf(s.trace), e)
    && Order(AddEmitted(FactsOf(s.trace), e), Removed(s.pending, i), lastRaw, lastOrder)
  }

  lemma SilentEmittedKeeps(s: State, i: nat, e: Entry, lastRaw: nat, lastOrder: nat)
    requires Emittable(s, i, e, lastRaw, lastOrder) && !e.kind.Steer?
    ensures Merging(Note(Merged(s, i, lastRaw, lastOrder), Emitted(e)))
  {
    hide FactsOf, Protocol, Ledger, Slots, Order, LegalEmission, Removed;
    var f, q, r := FactsOf(s.trace), s.pending, Removed(s.pending, i);
    Unfold(s.trace, Emitted(e));
    LedgerFlags(f, q, s.steers, s.received);
    OutLedger(f, q, s.steers, s.received, i, Emitted(e), e);
    OwnersWithout(q, i);
    SlotsMove(q, s.steers, s.released, s.received, r, s.steers, {});
    assert s.released + {} == s.released;
  }

  lemma SteerEmittedKeeps(s: State, i: nat, e: Entry, lastRaw: nat, lastOrder: nat)
    requires Emittable(s, i, e, lastRaw, lastOrder) && e.kind.Steer?
    ensures
      var id := e.kind.owner;
      Merging(Note(Note(Merged(s, i, lastRaw, lastOrder), Emitted(e)),
                   Answered(id, e.answer)).(released := s.released + {id}))
  {
    hide FactsOf, Protocol, Ledger, Slots, Order, LegalEmission, Removed;
    var f, q, r, id := FactsOf(s.trace), s.pending, Removed(s.pending, i), e.kind.owner;
    var g := Add(f, Emitted(e));
    var h := Add(g, Answered(id, e.answer));
    Unfold(s.trace, Emitted(e));
    Unfold(Then(s.trace, Emitted(e)), Answered(id, e.answer));
    LedgerFlags(f, q, s.steers, s.received);
    OutLedger(f, q, s.steers, s.received, i, Emitted(e), e);
    AnswerKeepsRest(f, e, r, lastRaw, lastOrder);
    SlotsEmit(q, s.steers, s.released, s.received, i, id);
  }

  lemma SlotsEmit(q: seq<Entry>, steers: seq<nat>, released: set<nat>, received: nat, i: nat, id: nat)
    requires i < |q| && q[i].kind == Steer(id) && OwnersApart(q) && Owners(q) !! SetOf(steers)
    requires Slots(q, steers, released, received)
    ensures Slots(Removed(q, i), steers, released + {id}, received)
  {
    hide Slots, Owners, SetOf, OwnersApart, Removed;
    OwnersWithout(q, i);
    assert Owner(q[i]) == {id};
    SlotsMove(q, steers, released, received, Removed(q, i), steers, {id});
  }

  lemma AnswerKeepsRest(f: Facts, e: Entry, q: seq<Entry>, lastRaw: nat, lastOrder: nat)
    requires Order(AddEmitted(f, e), q, lastRaw, lastOrder) && e.kind.Steer?
    ensures
      var h := Add(Add(f, Emitted(e)), Answered(e.kind.owner, e.answer));
      && Order(h, q, lastRaw, lastOrder) && h.accepted == f.accepted && h.fenced == f.fenced
      && h.ambiguous == f.ambiguous
  {
    hide Order;
    var g := AddEmitted(f, e);
    OrderSame(g, Add(g, Answered(e.kind.owner, e.answer)), q, lastRaw, lastOrder);
  }

  lemma EmittedKeeps(s: State, i: nat, e: Entry, lastRaw: nat, lastOrder: nat)
    requires Emittable(s, i, e, lastRaw, lastOrder)
    ensures Merging(EmitObservation(Merged(s, i, lastRaw, lastOrder), e))
  {
    hide Merging, FactsOf, Order, LegalEmission, Removed;
    if e.kind.Steer? {
      SteerEmittedKeeps(s, i, e, lastRaw, lastOrder);
    } else {
      SilentEmittedKeeps(s, i, e, lastRaw, lastOrder);
    }
  }

  lemma EmitRawKeeps(s: State, i: nat)
    requires Merging(s) && i < |s.pending| && IsNext(s.pending, |s.pending|, i)
    requires s.lastRaw <= s.pending[i].sequence != 0
    requires !s.pending[i].kind.Update? ==> s.pending[i].sequence <= s.barrierCompleted
    ensures Merging(EmitRaw(s, i))
  {
    hide FactsOf, Protocol, Ledger, Slots, Order, LegalEmission, Removed, IsNext, EmitObservation;
    var f, e := FactsOf(s.trace), s.pending[i];
    EmitRawOrder(f, s.pending, s.lastRaw, s.lastOrder, i);
    PendingIsPaired(f, s.pending, s.lastRaw, s.lastOrder, i);
    EmittedKeeps(s, i, e, e.sequence, Max(s.lastOrder, e.sequence));
    RemovedIs(s.pending, i);
  }

  lemma RemovedIs(q: seq<Entry>, i: nat)
    requires i < |q|
    ensures Removed(q, i) == q[..i] + q[i + 1..]
  {
  }

  lemma PendingIsPaired(f: Facts, q: seq<Entry>, lastRaw: nat, lastOrder: nat, i: nat)
    requires Order(f, q, lastRaw, lastOrder) && i < |q|
    ensures q[i].seen == q[i].answer
  {
    assert q[i] in q;
  }

  lemma EmitLocalKeeps(s: State, i: nat)
    requires Merging(s) && i < |s.pending| && IsNext(s.pending, |s.pending|, i) && s.pending[i].sequence == 0
    ensures Merging(EmitLocal(s, i))
  {
    hide FactsOf, Protocol, Ledger, Slots, Order, LegalEmission, Removed, IsNext, EmitObservation;
    var f, order := FactsOf(s.trace), Max(s.lastOrder, s.lastRaw) + 1;
    var e := WithLocalOrder(s.pending[i], order);
    EmitLocalOrder(f, s.pending, s.lastRaw, s.lastOrder, i, e);
    PendingIsPaired(f, s.pending, s.lastRaw, s.lastOrder, i);
    EmittedKeeps(s, i, e, s.lastRaw, order);
    RemovedIs(s.pending, i);
  }

  // ---------------------------------------------------------------- sequence regression

  predicate Paired(q: seq<Entry>) {
    forall e :: e in q ==> e.seen == e.answer
  }

  /** While the failed arbiter answers what it still holds. */
  ghost predicate Flushing(s: State) {
    var f := FactsOf(s.trace);
    && Protocol(s.trace) && s.exit == Running && s.failed && s.steeringOff
    && Ledger(f, s.pending, s.steers, s.received)
    && Slots(s.pending, s.steers, s.released, s.received)
    && f.fenced == s.barrierCompleted
    && Paired(s.pending)
  }

  lemma FlushingBegins(s: State)
    requires Merging(s)
    ensures Flushing(s.(failed := true, steeringOff := true))
  {
    hide FactsOf, Protocol, Ledger, Slots, Order;
    OrderPairs(FactsOf(s.trace), s.pending, s.lastRaw, s.lastOrder);
  }

  lemma OrderPairs(f: Facts, q: seq<Entry>, lastRaw: nat, lastOrder: nat)
    requires Order(f, q, lastRaw, lastOrder)
    ensures Paired(q)
  {
  }

  lemma FlushSteerKeeps(s: State, e: Entry)
    requires Flushing(s) && s.steers != [] && e.kind == Steer(s.steers[0]) && e.seen == e.answer
    ensures
      var id := s.steers[0];
      Flushing(Note(Note(s.(steers := s.steers[1..]), Flushed(e)),
                    Answered(id, e.answer)).(released := s.released + {id}))
  {
    hide FactsOf, Protocol, Ledger, Slots, Paired;
    var f, id := FactsOf(s.trace), s.steers[0];
    Unfold(s.trace, Flushed(e));
    Unfold(Then(s.trace, Flushed(e)), Answered(id, e.answer));
    FlushLedger(f, s.pending, s.steers, s.received, e);
    LedgerFlags(f, s.pending, s.steers, s.received);
    SlotsFlush(s.pending, s.steers, s.released, s.received);
  }

  lemma SlotsFlush(q: seq<Entry>, steers: seq<nat>, released: set<nat>, received: nat)
    requires steers != [] && Distinct(steers) && Owners(q) !! SetOf(steers) && Slots(q, steers, released, received)
    ensures Slots(q, steers[1..], released + {steers[0]}, received)
  {
    hide Slots, Owners, SetOf, Distinct;
    HeadIsApart(steers);
    SetOfHas(steers[1..], steers[0]);
    SlotsMove(q, steers, released, received, q, steers[1..], {steers[0]});
  }

  lemma {:induction false} FlushSteersKeeps(s: State, ids: seq<nat>, attempts: map<nat, Admission>)
    requires Flushing(s) && s.steers == ids
    ensures
      var t := FlushSteers(s, ids, attempts);
      Flushing(t) && t.steers == [] && t.pending == s.pending
    decreases |ids|
  {
    hide Flushing;
    if ids != [] {
      FlushSteerKeeps(s, Failure(ids[0], attempts));
      FlushSteersKeeps(Flush(s.(steers := ids[1..]), Failure(ids[0], attempts)), ids[1..], attempts);
    }
  }

  lemma FirstRemoved(q: seq<Entry>)
    requires q != []
    ensures Removed(q, 0) == q[1..] && (Paired(q) ==> Paired(q[1..]) && q[0].seen == q[0].answer)
  {
    assert q[0] in q;
  }

  lemma FlushHeadKeeps(s: State)
    requires Flushing(s) && s.pending != []
    ensures Flushing(Flush(s.(pending := s.pending[1..]), s.pending[0]))
  {
    hide Flushing;
    var e := s.pending[0];
    if e.kind.Steer? {
      FlushEntryKeeps(s);
    } else {
      DropEntryKeeps(s);
    }
  }

  lemma FlushEntryKeeps(s: State)
    requires Flushing(s) && s.pending != [] && s.pending[0].kind.Steer?
    ensures
      var e := s.pending[0];
      var id := e.kind.owner;
      Flushing(Note(Note(s.(pending := s.pending[1..]), Flushed(e)),
                    Answered(id, e.answer)).(released := s.released + {id}))
  {
    hide FactsOf, Protocol, Ledger, Slots, Paired, Removed;
    var f, q, e := FactsOf(s.trace), s.pending, s.pending[0];
    FirstRemoved(q);
    Unfold(s.trace, Flushed(e));
    Unfold(Then(s.trace, Flushed(e)), Answered(e.kind.owner, e.answer));
    LedgerFlags(f, q, s.steers, s.received);
    OutLedger(f, q, s.steers, s.received, 0, Flushed(e), e);
    SlotsEmit(q, s.steers, s.released, s.received, 0, e.kind.owner);
  }

  lemma DropEntryKeeps(s: State)
    requires Flushing(s) && s.pending != [] && !s.pending[0].kind.Steer?
    ensures Flushing(s.(pending := s.pending[1..]))
  {
    hide FactsOf, Protocol, Paired, Removed, Owners, OwnersApart, Distinct, SetOf;
    FirstRemoved(s.pending);
    OwnersWithout(s.pending, 0);
  }

  lemma {:induction false} FlushPendingKeeps(s: State, q: seq<Entry>)
    requires Flushing(s) && s.pending == q
    ensures
      var t := FlushPending(s, q);
      Flushing(t) && t.pending == [] && t.steers == s.steers
    decreases |q|
  {
    hide Flushing;
    if q != [] {
      FlushHeadKeeps(s);
      FlushPendingKeeps(Flush(s.(pending := q[1..]), q[0]), q[1..]);
    }
  }

  lemma BrokeKeeps(s: State)
    requires Flushing(s) && s.pending == [] && s.steers == []
    ensures Good(Note(s, Broke)) && s.failed
  {
    hide FactsOf, Protocol, Ledger, Slots;
    var f := FactsOf(s.trace);
    Unfold(s.trace, Broke);
    SettledLedger(f, s.received);
    LedgerSame(f, Add(f, Broke), [], [], s.received);
  }

  lemma FailSequenceKeeps(s: State, attempts: map<nat, Admission>)
    requires Merging(s)
    ensures Good(FailSequence(s, attempts))
  {
    hide Flushing, Good, FlushSteers, FlushPending;
    FlushingBegins(s);
    var s1 := s.(failed := true, steeringOff := true);
    FlushSteersKeeps(s1, s.steers, attempts);
    var s2 := FlushSteers(s1, s.steers, attempts);
    FlushPendingKeeps(s2, s.pending);
    BrokeKeeps(FlushPending(s2, s.pending));
    MergingIsNotFailed(s);
  }

  lemma MergingIsNotFailed(s: State)
    requires Merging(s)
    ensures !s.failed && s.exit == Running
  {
  }

  // ---------------------------------------------------------------- the loop

  lemma TryEmitKeeps(s: State, barrierTakes: bool, attempts: map<nat, Admission>)
    requires Merging(s)
    ensures
      var e := TryEmit(s, barrierTakes, attempts);
      Good(e.s) && (!e.again ==> Merging(e.s))
  {
    hide Good, EmitRaw, EmitLocal, FailSequence, RequestBarrier, BestOf, IsNext;
    if s.pending != [] {
      BestIsNext(s.pending, |s.pending|);
      var i := BestOf(s.pending, |s.pending|);
      NextIsIndex(s.pending, i);
      var e := s.pending[i];
      if e.sequence != 0 {
        FailSequenceKeeps(s, attempts);
        RequestKeeps(s, e.sequence, barrierTakes);
        if s.lastRaw <= e.sequence && (!e.kind.Update? ==> e.sequence <= s.barrierCompleted) {
          EmitRawKeeps(s, i);
        }
      } else {
        RequestKeeps(s, 0, barrierTakes);
        EmitLocalKeeps(s, i);
      }
    }
  }

  lemma NextIsIndex(q: seq<Entry>, i: int)
    requires i < |q| && IsNext(q, |q|, i)
    ensures 0 <= i
  {
  }

  lemma RequestKeeps(s: State, sequence: nat, barrierTakes: bool)
    requires Merging(s)
    ensures Merging(RequestBarrier(s, sequence, barrierTakes))
  {
    hide Merging, RequestBarrier;
    RequestBarrierIndifferent(s, sequence, barrierTakes);
    IndifferentKeeps(s, RequestBarrier(s, sequence, barrierTakes));
  }

  lemma QueuePromptKeeps(s: State)
    requires Merging(s)
    ensures Merging(QueuePrompt(s))
  {
    hide Merging, Enqueue;
    if s.prompt.Some? {
      EnqueueOtherKeeps(s, Prompt, s.prompt.value);
      var t := Enqueue(s, Prompt, s.prompt.value, SILENCE);
      IndifferentKeeps(t, t.(promptQueued := true));
    }
  }

  lemma BeginTerminalKeeps(s: State, cs: seq<Command>, markerTaken: bool)
    requires Merging(s)
    ensures Merging(BeginTerminal(s, cs, markerTaken))
  {
    hide Merging, AcceptCommands;
    var s00 := s.(terminalAsked := true, updatesDrained := false);
    var s0 := Note(s00, TerminalAsked);
    IndifferentKeeps(s, s00);
    ArrivalKeeps(s00, TerminalAsked);
    AcceptCommandsKeeps(s0, cs);
    IndifferentKeeps(AcceptCommands(s0, cs), BeginTerminal(s, cs, markerTaken));
  }

  lemma PrepareKeeps(s: State, p: Pass)
    requires Merging(s)
    ensures Merging(Prepare(s, p))
  {
    hide Merging, AcceptCommands, BeginTerminal, MaybePromptBarrier;
    AcceptCommandsKeeps(s, p.queued);
    var s1 := AcceptCommands(s, p.queued);
    BeginTerminalKeeps(s1, p.queuedAtTerminal, p.markerTaken);
    var s2 := if s1.prompt.Some? && !s1.terminalAsked then BeginTerminal(s1, p.queuedAtTerminal, p.markerTaken) else s1;
    MaybePromptBarrierIndifferent(s2, p.barrierTakes);
    IndifferentKeeps(s2, MaybePromptBarrier(s2, p.barrierTakes));
  }

  lemma LeaveKeeps(s: State, exit: Exit)
    requires Good(s) && exit != Running
    requires exit == ByTerminal ==> s.trace.Then? && s.trace.deed == Finished
    requires exit == ByRegression ==> s.failed
    ensures Inv(Leave(s, exit))
  {
    hide FactsOf, Protocol, Ledger, Order, Owners;
  }

  lemma FinishKeeps(s: State)
    requires Merging(s) && s.steers == [] && s.pending == []
    ensures Good(Note(s, Finished))
  {
    hide FactsOf, Protocol, Ledger, Slots, Order;
    var f := FactsOf(s.trace);
    Unfold(s.trace, Finished);
    SettledLedger(f, s.received);
    AllOut(f, s.lastRaw, s.lastOrder);
  }

  /** The cases that change nothing the invariant mentions. */
  lemma QuietSelectKeeps(s: State, p: Pass)
    requires Merging(s)
    requires p.pick.UpdatesClosed? || p.pick.PromptReady? || p.pick.ReportsClosed? || p.pick.BarrierClosed?
    ensures Merging(Select(s, p))
  {
    hide Merging;
    match p.pick {
      case UpdatesClosed => IndifferentKeeps(s, s.(updatesOpen := false));
      case PromptReady(sequence) =>
        IndifferentKeeps(s, s.(prompt := Some(sequence)));
        ArrivalKeeps(s.(prompt := Some(sequence)), Arrived(sequence));
      case ReportsClosed => IndifferentKeeps(s, s.(reportsOpen := false));
      case BarrierClosed => IndifferentKeeps(s, s.(hasBarrier := false, barrierBusy := false));
    }
  }

  lemma SelectKeeps(s: State, p: Pass)
    requires Merging(s)
    ensures if p.pick.ShuttingDown? then Inv(Select(s, p)) else Merging(Select(s, p))
  {
    hide Merging, Inv, AcceptUpdate, AcceptCommand, AcceptReport, TakeBarrierResult, Leave;
    match p.pick {
      case UpdateReady(u) => AcceptUpdateKeeps(s, u);
      case CommandReady(c) => AcceptCommandKeeps(s, c);
      case ReportReady(r) => AcceptReportKeeps(s, r, p.barrierTakes);
      case BarrierReady(sequence) => TakeBarrierResultKeeps(s, sequence, p.drainedAfter);
      case ShuttingDown =>
        MergingIsGood(s);
        LeaveKeeps(s, ByShutdown);
      case _ => QuietSelectKeeps(s, p);
    }
  }

  lemma MergingIsGood(s: State)
    requires Merging(s)
    ensures Good(s)
  {
  }

  lemma GoodIsInv(s: State)
    requires Good(s)
    ensures Inv(s)
  {
  }

  lemma AdvanceKeeps(s: State, p: Pass)
    requires Merging(s)
    ensures Inv(Advance(s, p))
  {
    hide Good, Inv, QueuePrompt, TryEmit, Select, Leave;
    QueuePromptKeeps(s);
    var q := QueuePrompt(s);
    TryEmitKeeps(q, p.barrierTakes, p.attempts);
    var e := TryEmit(q, p.barrierTakes, p.attempts);
    if e.again {
      GoodIsInv(e.s);
    } else if TerminalDue(e.s) {
      FinishKeeps(e.s);
      LeaveKeeps(Note(e.s, Finished), ByTerminal);
    } else {
      SelectKeeps(e.s, p);
      if !p.pick.ShuttingDown? {
        GoodIsInv(Select(e.s, p));
      }
    }
  }

  lemma TripKeeps(s: State, p: Pass)
    requires Inv(s)
    ensures Inv(Trip(s, p))
  {
    hide Live, Protocol, Prepare, DrainUpdates, Advance, Leave;
    if s.exit == Running {
      if p.shutdown {
        LeaveKeeps(s, ByShutdown);
      } else if s.failed {
        LeaveKeeps(s, ByRegression);
      } else {
        PrepareKeeps(s, p);
        var s1 := Prepare(s, p);
        if MustDrain(s1) {
          DrainUpdatesKeeps(s1, p.drained);
          AdvanceKeeps(DrainUpdates(s1, p.drained), p);
        } else {
          AdvanceKeeps(s1, p);
        }
      }
    }
  }

  lemma InitialInv(steeringOn: bool, steeringOff: bool)
    ensures Inv(Initial(steeringOn, steeringOff))
  {
  }
}
