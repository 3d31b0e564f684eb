/**
  The command mailbox of one turn (driver/acp/turn.go, turnHandle and steerSendAck). A send runs
  in atomic pieces, under the handle's mutex or in one select, and the arbiter and the turn's
  retirement run between them: `Apply` is one piece, by whoever takes it. Sends are numbered by
  the order in which they enter.
 */
module MailboxModel {
  import opened Options

  datatype SendResult = Pending | Accepted | Rejected | Terminal

  /** Where a send stands: waiting for room, waiting for its acknowledgement, or returned. */
  datatype Phase = Blocked | Waiting | Back(result: SendResult)

  /** `acks` and `phases` are indexed by send; `taking` is the command the arbiter has yet to acknowledge. */
  datatype State = State(
    capacity: nat, queue: seq<nat>, retired: bool, working: bool, taking: Option<nat>,
    acks: seq<SendResult>, phases: seq<Phase>, tracked: set<nat>, consumed: set<nat>)
  {
    predicate Shaped() {
      |acks| == |phases|
    }

    predicate Is(id: nat, p: Phase)
      requires Shaped()
    {
      id < |phases| && phases[id] == p
    }
  }

  datatype Piece =
    | Enter(reserved: bool, cancelled: bool)
    | Push(id: nat)
    | BlockedSeesDone(id: nat)
    | BlockedCancelled(id: nat)
    | Look(id: nat)
    | WaitSeesDone(id: nat)
    | WaitCancelled(id: nat)
    | Take
    | Acknowledge
    | ArbiterReturns
    | Retire

  function Fresh(capacity: nat): (s: State)
    ensures s.Shaped()
  {
    State(capacity, [], false, true, None, [], [], {}, {})
  }

  /** steerSendAck.resolve: the first resolution wins. */
  function Resolved(now: SendResult, to: SendResult): SendResult {
    if now == Pending then to else now
  }

  function Resolve(s: State, id: nat, to: SendResult): (t: State)
    requires s.Shaped() && id < |s.acks|
    ensures t.Shaped()
  {
    s.(acks := s.acks[id := Resolved(s.acks[id], to)])
  }

  /** A send that never got into the mailbox, or is already answered. */
  function Refuse(s: State, r: SendResult): (t: State)
    requires s.Shaped()
    ensures t.Shaped()
  {
    s.(acks := s.acks + [r], phases := s.phases + [Back(r)])
  }

  function EnterMailbox(s: State, reserved: bool, cancelled: bool): (t: State)
    requires s.Shaped()
    ensures t.Shaped() && |t.acks| == |s.acks| + 1
  {
    var id := |s.acks|;
    if s.retired then Refuse(s, Terminal)
    else if !reserved && cancelled then Refuse(s, Rejected)
    else if |s.queue| < s.capacity then
      s.(acks := s.acks + [Pending], phases := s.phases + [Waiting], tracked := s.tracked + {id},
         queue := s.queue + [id])
    else if reserved then Refuse(s, Rejected)
    else s.(acks := s.acks + [Pending], phases := s.phases + [Blocked], tracked := s.tracked + {id})
  }

  function Return(s: State, id: nat, r: SendResult): (t: State)
    requires s.Shaped() && id < |s.phases|
    ensures t.Shaped()
  {
    s.(phases := s.phases[id := Back(r)], tracked := s.tracked - {id})
  }

  /** Every acknowledgement still tracked and pending becomes terminal. */
  function RetireAcks(acks: seq<SendResult>, tracked: set<nat>): (r: seq<SendResult>)
    ensures |r| == |acks|
    ensures forall id :: 0 <= id < |acks| ==> r[id] == if id in tracked then Resolved(acks[id], Terminal) else acks[id]
  {
    seq(|acks|, id requires 0 <= id < |acks| => if id in tracked then Resolved(acks[id], Terminal) else acks[id])
  }

  /** One atomic piece; a piece that is not possible now leaves the state alone. */
  function Apply(s: State, p: Piece): (t: State)
    requires s.Shaped()
    ensures t.Shaped() && |t.acks| >= |s.acks|
  {
    match p
    case Enter(reserved, cancelled) => EnterMailbox(s, reserved, cancelled)
    case Push(id) =>
      if s.Is(id, Blocked) && |s.queue| < s.capacity
        then s.(queue := s.queue + [id], phases := s.phases[id := Waiting]) else s
    case BlockedSeesDone(id) =>
      if s.Is(id, Blocked) && s.retired then Return(Resolve(s, id, Terminal), id, Terminal) else s
    case BlockedCancelled(id) =>
      if s.Is(id, Blocked) then Return(Resolve(s, id, Rejected), id, Rejected) else s
    case Look(id) =>
      if s.Is(id, Waiting) && s.acks[id] != Pending then Return(s, id, s.acks[id]) else s
    case WaitSeesDone(id) =>
      if s.Is(id, Waiting) && s.retired then Resolve(s, id, Terminal) else s
    case WaitCancelled(id) =>
      if s.Is(id, Waiting) then Return(s, id, s.acks[id]) else s
    case Take =>
      if s.working && s.taking.None? && s.queue != [] then
        s.(queue := s.queue[1..], taking := Some(s.queue[0]), consumed := s.consumed + {s.queue[0]})
      else s
    case Acknowledge =>
      if s.taking.Some? && s.taking.value < |s.acks| then Resolve(s, s.taking.value, Accepted).(taking := None) else s
    case ArbiterReturns =>
      if s.taking.None? then s.(working := false) else s
    case Retire =>
      if !s.working && !s.retired then s.(retired := true, acks := RetireAcks(s.acks, s.tracked)) else s
  }

  function RunOf(s: State, pieces: seq<Piece>): (t: State)
    requires s.Shaped()
    ensures t.Shaped() && |t.acks| >= |s.acks|
    decreases |pieces|
  {
    if pieces == [] then s else RunOf(Apply(s, pieces[0]), pieces[1..])
  }

  // ---------------------------------------------------------------- the invariant

  predicate Distinct(q: seq<nat>) {
    forall i, j :: 0 <= i < j < |q| ==> q[i] != q[j]
  }

  /** What holds of one send. */
  predicate SendInv(s: State, id: nat)
    requires s.Shaped() && id < |s.acks|
  {
    var ack := s.acks[id];
    && (id in s.consumed <==> ack == Accepted || s.taking == Some(id))
    && (s.taking == Some(id) ==> ack == Pending)
    && (ack == Terminal ==> s.retired)
    && (ack == Rejected ==> id !in s.queue)
    && (id in s.tracked <==> !s.phases[id].Back?)
    && (s.phases[id].Blocked? ==> id !in s.queue && id !in s.consumed && (ack == Pending || ack == Terminal))
    && (s.phases[id].Back? && s.phases[id].result != Pending ==>
          || s.phases[id].result == ack
          || (s.phases[id].result == Rejected && ack == Terminal))
    && (s.phases[id].Back? && s.phases[id].result == Rejected ==> id !in s.queue)
    && (s.retired && id in s.tracked ==> ack != Pending)
  }

  predicate Inv(s: State) {
    && s.Shaped()
    && (s.taking.Some? ==> s.working && s.taking.value < |s.acks|)
    && (s.retired ==> !s.working)
    && Distinct(s.queue) && |s.queue| <= s.capacity
    && (forall id :: id in s.queue ==> id < |s.acks| && id !in s.consumed)
    && (forall id :: id in s.tracked ==> id < |s.acks|)
    && (forall id :: id in s.consumed ==> id < |s.acks|)
    && (forall id :: 0 <= id < |s.acks| ==> SendInv(s, id))
  }

  lemma DistinctSnoc(q: seq<nat>, id: nat)
    requires Distinct(q) && id !in q
    ensures Distinct(q + [id])
  {
  }

  lemma EnterKeeps(s: State, reserved: bool, cancelled: bool)
    requires Inv(s)
    ensures Inv(EnterMailbox(s, reserved, cancelled))
  {
    var t := EnterMailbox(s, reserved, cancelled);
    DistinctSnoc(s.queue, |s.acks|);
    forall id | 0 <= id < |t.acks| ensures SendInv(t, id) {
      if id < |s.acks| {
        assert SendInv(s, id);
      }
    }
  }

  /** A call that is turned away before it sends takes a number and nothing else. */
  lemma RefuseKeeps(s: State)
    requires Inv(s)
    ensures Inv(Refuse(s, Rejected))
  {
    var t := Refuse(s, Rejected);
    forall id | 0 <= id < |t.acks| ensures SendInv(t, id) {
      if id < |s.acks| {
        assert SendInv(s, id);
      }
    }
  }

  lemma PushKeeps(s: State, mine: nat)
    requires Inv(s)
    ensures Inv(Apply(s, Push(mine)))
  {
    var t := Apply(s, Push(mine));
    if s.Is(mine, Blocked) {
      assert SendInv(s, mine);
      DistinctSnoc(s.queue, mine);
    }
    forall id | 0 <= id < |t.acks| ensures SendInv(t, id) {
      assert SendInv(s, id);
    }
  }

  /** A piece that concerns one send. */
  lemma SendKeeps(s: State, p: Piece, mine: nat)
    requires Inv(s)
    requires p in {BlockedSeesDone(mine), BlockedCancelled(mine), Look(mine), WaitSeesDone(mine), WaitCancelled(mine)}
    ensures Inv(Apply(s, p))
  {
    var t := Apply(s, p);
    forall id | 0 <= id < |t.acks| ensures SendInv(t, id) {
      assert SendInv(s, id);
    }
  }

  lemma TakeKeeps(s: State)
    requires Inv(s)
    ensures Inv(Apply(s, Take))
  {
    var t := Apply(s, Take);
    if s.queue != [] {
      assert s.queue == [s.queue[0]] + s.queue[1..];
      assert s.queue[0] !in s.queue[1..];
    }
    forall id | 0 <= id < |t.acks| ensures SendInv(t, id) {
      assert SendInv(s, id);
    }
  }

  lemma ArbiterKeeps(s: State, p: Piece)
    requires Inv(s) && (p == Acknowledge || p == ArbiterReturns || p == Retire)
    ensures Inv(Apply(s, p))
  {
    var t := Apply(s, p);
    forall id | 0 <= id < |t.acks| ensures SendInv(t, id) {
      assert SendInv(s, id);
    }
  }

  lemma PieceKeeps(s: State, p: Piece)
    requires Inv(s)
    ensures Inv(Apply(s, p))
  {
    hide Inv, SendInv;
    match p {
      case Enter(reserved, cancelled) =>
        assert s.Shaped() by {
          Shape(s);
        }
        EnterKeeps(s, reserved, cancelled);
      case Push(id) => PushKeeps(s, id);
      case BlockedSeesDone(id) => SendKeeps(s, p, id);
      case BlockedCancelled(id) => SendKeeps(s, p, id);
      case Look(id) => SendKeeps(s, p, id);
      case WaitSeesDone(id) => SendKeeps(s, p, id);
      case WaitCancelled(id) => SendKeeps(s, p, id);
      case Take => TakeKeeps(s);
      case _ => ArbiterKeeps(s, p);
    }
  }

  lemma Shape(s: State)
    requires Inv(s)
    ensures s.Shaped()
  {
  }

  lemma {:induction false} RunKeeps(s: State, pieces: seq<Piece>)
    requires Inv(s)
    ensures Inv(RunOf(s, pieces))
    decreases |pieces|
  {
    if pieces != [] {
      PieceKeeps(s, pieces[0]);
      RunKeeps(Apply(s, pieces[0]), pieces[1..]);
    }
  }

  // ---------------------------------------------------------------- what the mailbox promises

  lemma {:induction false} AckIsFinal(s: State, pieces: seq<Piece>, id: nat)
    requires s.Shaped() && id < |s.acks| && s.acks[id] != Pending
    ensures RunOf(s, pieces).acks[id] == s.acks[id]
    decreases |pieces|
  {
    if pieces != [] {
      AckStays(s, pieces[0], id);
      AckIsFinal(Apply(s, pieces[0]), pieces[1..], id);
    }
  }

  /** An acknowledgement resolves at most once. */
  lemma AckStays(s: State, p: Piece, id: nat)
    requires s.Shaped() && id < |s.acks| && s.acks[id] != Pending
    ensures Apply(s, p).acks[id] == s.acks[id]
  {
  }

  lemma {:induction false} ReturnIsFinal(s: State, pieces: seq<Piece>, id: nat)
    requires s.Shaped() && id < |s.phases| && s.phases[id].Back?
    ensures RunOf(s, pieces).phases[id] == s.phases[id]
    decreases |pieces|
  {
    if pieces != [] {
      ReturnStays(s, pieces[0], id);
      ReturnIsFinal(Apply(s, pieces[0]), pieces[1..], id);
    }
  }

  lemma ReturnStays(s: State, p: Piece, id: nat)
    requires s.Shaped() && id < |s.phases| && s.phases[id].Back?
    ensures Apply(s, p).phases[id] == s.phases[id]
  {
  }

  /**
    Whatever interleaving: a send that returned terminal or rejected was not consumed by the
    arbiter, neither before it returned nor at any later time; one that returned accepted was.
   */
  lemma RefusedIsNeverConsumed(capacity: nat, before: seq<Piece>, after: seq<Piece>, id: nat)
    ensures
      var s := RunOf(Fresh(capacity), before);
      var t := RunOf(s, after);
      id < |s.phases| && s.phases[id].Back? ==>
        && (s.phases[id].result == Terminal || s.phases[id].result == Rejected ==> id !in t.consumed)
        && (s.phases[id].result == Accepted ==> id in s.consumed)
  {
    var s := RunOf(Fresh(capacity), before);
    var t := RunOf(s, after);
    RunKeeps(Fresh(capacity), before);
    RunKeeps(s, after);
    if id < |s.phases| && s.phases[id].Back? {
      assert SendInv(s, id) && SendInv(t, id);
      ReturnIsFinal(s, after, id);
    }
  }

  /** Once the turn is retired, no send that is still tracked has a pending acknowledgement, ever. */
  lemma NothingPendingAfterRetire(capacity: nat, pieces: seq<Piece>, id: nat)
    ensures
      var s := RunOf(Fresh(capacity), pieces);
      s.retired && id in s.tracked ==> id < |s.acks| && s.acks[id] != Pending
  {
    RunKeeps(Fresh(capacity), pieces);
    var s := RunOf(Fresh(capacity), pieces);
    if s.retired && id in s.tracked {
      assert SendInv(s, id);
    }
  }

  /** What the arbiter consumes it consumes once, in mailbox order, and it accepts it. */
  lemma ConsumedIsAccepted(capacity: nat, pieces: seq<Piece>, id: nat)
    ensures
      var s := RunOf(Fresh(capacity), pieces);
      id in s.consumed && s.taking != Some(id) ==> id < |s.acks| && s.acks[id] == Accepted && id !in s.queue
  {
    RunKeeps(Fresh(capacity), pieces);
    var s := RunOf(Fresh(capacity), pieces);
    if id in s.consumed {
      assert SendInv(s, id);
    }
  }
}
