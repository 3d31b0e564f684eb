/** What the mailbox does for a send: it is let in while there is room, and an arbiter at work accepts it. */
module MailboxService {
  import opened Options
  import opened MailboxModel

  /** A send that got in is in the queue, or was taken out of it by the arbiter. */
  predicate Held(s: State)
    requires s.Shaped()
  {
    forall id :: 0 <= id < |s.phases| && s.phases[id] == Waiting ==> id in s.queue || id in s.consumed
  }

  lemma TakeHolds(s: State)
    requires s.Shaped() && Held(s)
    ensures Held(Apply(s, Take))
  {
    var t := Apply(s, Take);
    forall id | 0 <= id < |t.phases| && t.phases[id] == Waiting ensures id in t.queue || id in t.consumed {
      if s.queue != [] {
        assert s.queue == [s.queue[0]] + s.queue[1..];
      }
    }
  }

  lemma PieceHolds(s: State, p: Piece)
    requires s.Shaped() && Held(s)
    ensures Held(Apply(s, p))
  {
    if p.Take? {
      TakeHolds(s);
    } else {
      var t := Apply(s, p);
      forall id | 0 <= id < |t.phases| && t.phases[id] == Waiting ensures id in t.queue || id in t.consumed {
      }
    }
  }

  lemma {:induction false} RunHolds(s: State, pieces: seq<Piece>)
    requires s.Shaped() && Held(s)
    ensures Held(RunOf(s, pieces))
    decreases |pieces|
  {
    if pieces != [] {
      PieceHolds(s, pieces[0]);
      RunHolds(Apply(s, pieces[0]), pieces[1..]);
    }
  }

  /** The arbiter takes and acknowledges `n` commands. */
  function Served(s: State, n: nat): (t: State)
    requires s.Shaped()
    ensures t.Shaped()
    decreases n
  {
    if n == 0 then s else Served(Apply(Apply(s, Take), Acknowledge), n - 1)
  }

  /** One command is taken and acknowledged. */
  lemma ServesOne(s: State)
    requires Inv(s) && s.working && s.taking.None? && s.queue != []
    ensures
      var t, id := Apply(Apply(s, Take), Acknowledge), s.queue[0];
      && Inv(t) && t.working && t.taking.None? && t.queue == s.queue[1..] && |t.acks| == |s.acks|
      && id < |t.acks| && t.acks[id] == Accepted
      && (forall k :: 0 <= k < |s.acks| && k != id ==> t.acks[k] == s.acks[k])
  {
    var id := s.queue[0];
    assert id in s.queue;
    assert SendInv(s, id);
    PieceKeeps(s, Take);
    PieceKeeps(Apply(s, Take), Acknowledge);
    hide Inv, SendInv;
  }

  lemma {:induction false} ServesAll(s: State, n: nat)
    requires Inv(s) && s.working && s.taking.None? && n == |s.queue|
    ensures Served(s, n).queue == [] && |Served(s, n).acks| == |s.acks|
    ensures forall id :: id in s.queue ==> id < |s.acks| && Served(s, n).acks[id] == Accepted
    ensures forall id :: 0 <= id < |s.acks| && s.acks[id] == Accepted ==> Served(s, n).acks[id] == Accepted
    decreases n
  {
    if n > 0 {
      ServesOne(s);
      ServesAll(Apply(Apply(s, Take), Acknowledge), n - 1);
      assert s.queue == [s.queue[0]] + s.queue[1..];
    }
    hide Inv, Apply;
  }

  /**
    At any moment of any run: a send that comes while the mailbox is open and has room gets in, unless
    its caller gave up before; and if the arbiter is at work and takes what is queued, every send that
    got in and is not answered yet is accepted.
   */
  lemma SendsAreServed(capacity: nat, pieces: seq<Piece>, reserved: bool, cancelled: bool)
    ensures
      var s := RunOf(Fresh(capacity), pieces);
      && (!s.retired && |s.queue| < capacity && (reserved || !cancelled) ==>
            Apply(s, Enter(reserved, cancelled)).queue == s.queue + [|s.acks|])
      && (s.working && s.taking.None? ==>
            forall id :: 0 <= id < |s.acks| && s.phases[id] == Waiting ==>
              id < |Served(s, |s.queue|).acks| && Served(s, |s.queue|).acks[id] == Accepted)
  {
    var s := RunOf(Fresh(capacity), pieces);
    RunKeeps(Fresh(capacity), pieces);
    RunHolds(Fresh(capacity), pieces);
    SameCapacity(Fresh(capacity), pieces);
    if s.working && s.taking.None? {
      ServesAll(s, |s.queue|);
      forall id | 0 <= id < |s.acks| && s.phases[id] == Waiting
        ensures id < |Served(s, |s.queue|).acks| && Served(s, |s.queue|).acks[id] == Accepted
      {
        assert SendInv(s, id);
      }
    }
    hide Served, RunOf;
  }

  lemma {:induction false} SameCapacity(s: State, pieces: seq<Piece>)
    requires s.Shaped()
    ensures RunOf(s, pieces).capacity == s.capacity
    decreases |pieces|
  {
    if pieces != [] {
      SameCapacity(Apply(s, pieces[0]), pieces[1..]);
    }
  }
}
