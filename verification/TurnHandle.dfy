/**
  The handle of one turn as the objects callers share: the one-shot acknowledgement, the mailbox
  (driver/acp/turn.go, steerSendAck and turnHandle) and the lane of observation slots
  (driver/acp/reservation.go). Each method is one critical section.
 */
module TurnHandles {
  import opened Options
  import opened DriverContract
  import A = Admission
  import opened M = MailboxModel
  import SteerSystem

  class SteerSendAck {
    var state: SendResult

    constructor ()
      ensures state == Pending
    {
      state := Pending;
    }

    /** The first resolution wins and is final. */
    method Resolve(to: SendResult) returns (won: bool)
      modifies this
      ensures won == (old(state) == Pending && to != Pending)
      ensures state == Resolved(old(state), to)
    {
      if to == Pending || state != Pending {
        return false;
      }
      state := to;
      won := true;
    }
  }

  class TurnHandle {
    const capacity: nat
    var queue: seq<nat>
    var retired: bool
    var working: bool
    var taking: Option<nat>
    var acks: seq<SendResult>
    var phases: seq<Phase>
    var tracked: set<nat>
    var consumed: set<nat>

    constructor (capacity: nat)
      ensures Abs() == Fresh(capacity)
    {
      this.capacity := capacity;
      queue, retired, working, taking := [], false, true, None;
      acks, phases, tracked, consumed := [], [], {}, {};
    }

    function Abs(): State
      reads this
    {
      State(capacity, queue, retired, working, taking, acks, phases, tracked, consumed)
    }

    method Resolve(id: nat, to: SendResult)
      requires Abs().Shaped() && id < |acks|
      modifies this`acks
      ensures Abs() == M.Resolve(old(Abs()), id, to)
    {
      acks := acks[id := if acks[id] == Pending then to else acks[id]];
    }

    method Return(id: nat, r: SendResult)
      requires Abs().Shaped() && id < |phases|
      modifies this`phases, this`tracked
      ensures Abs() == M.Return(old(Abs()), id, r)
    {
      phases := phases[id := Back(r)];
      tracked := tracked - {id};
    }

    /** The first critical section of sendResult; `r` is what it returns when it returns at once. */
    method Enter(reserved: bool, cancelled: bool) returns (id: nat, r: Option<SendResult>)
      requires Abs().Shaped()
      modifies this
      ensures Abs() == M.Apply(old(Abs()), M.Enter(reserved, cancelled))
      ensures id == |old(acks)| && |acks| == |phases| == id + 1
      ensures r == if phases[id].Back? then Some(phases[id].result) else None
    {
      id := |acks|;
      if retired {
        acks, phases, r := acks + [Terminal], phases + [Back(Terminal)], Some(Terminal);
        return;
      }
      if !reserved && cancelled {
        acks, phases, r := acks + [Rejected], phases + [Back(Rejected)], Some(Rejected);
        return;
      }
      if |queue| < capacity {
        queue := queue + [id];
        acks, phases, tracked, r := acks + [Pending], phases + [Waiting], tracked + {id}, None;
        return;
      }
      if reserved {
        acks, phases, r := acks + [Rejected], phases + [Back(Rejected)], Some(Rejected);
        return;
      }
      acks, phases, tracked, r := acks + [Pending], phases + [Blocked], tracked + {id}, None;
    }

    /** A blocked send finds room; it may find it after the turn retired. */
    method Push(id: nat)
      requires Abs().Shaped()
      modifies this`queue, this`phases
      ensures Abs() == M.Apply(old(Abs()), M.Push(id))
    {
      if id < |phases| && phases[id] == Blocked && |queue| < capacity {
        queue := queue + [id];
        phases := phases[id := Waiting];
      }
    }

    /** A blocked send gives up: the turn is done, or its own context is. */
    method Unblock(id: nat, done: bool)
      requires Abs().Shaped()
      modifies this`acks, this`phases, this`tracked
      ensures Abs() == M.Apply(old(Abs()), if done then M.BlockedSeesDone(id) else M.BlockedCancelled(id))
    {
      hide M.Resolve, M.Return;
      if id < |phases| && phases[id] == Blocked && (!done || retired) {
        Resolve(id, if done then Terminal else Rejected);
        Return(id, if done then Terminal else Rejected);
      }
    }

    /** waitAndUntrack: the authoritative state, if there is one. */
    method Look(id: nat)
      requires Abs().Shaped()
      modifies this`phases, this`tracked
      ensures Abs() == M.Apply(old(Abs()), M.Look(id))
    {
      if id < |phases| && phases[id] == Waiting && acks[id] != Pending {
        Return(id, acks[id]);
      }
    }

    /** waitAndUntrack: the turn is done. */
    method WaitSeesDone(id: nat)
      requires Abs().Shaped()
      modifies this`acks
      ensures Abs() == M.Apply(old(Abs()), M.WaitSeesDone(id))
    {
      if id < |phases| && phases[id] == Waiting && retired {
        Resolve(id, Terminal);
      }
    }

    /** waitAndUntrack: the caller's context is done; it returns what it sees. */
    method WaitCancelled(id: nat)
      requires Abs().Shaped()
      modifies this`phases, this`tracked
      ensures Abs() == M.Apply(old(Abs()), M.WaitCancelled(id))
    {
      if id < |phases| && phases[id] == Waiting {
        Return(id, acks[id]);
      }
    }

    method Take()
      requires Abs().Shaped()
      modifies this`queue, this`taking, this`consumed
      ensures Abs() == M.Apply(old(Abs()), M.Take)
    {
      if working && taking.None? && queue != [] {
        taking, consumed, queue := Some(queue[0]), consumed + {queue[0]}, queue[1..];
      }
    }

    method Acknowledge()
      requires Abs().Shaped()
      modifies this`acks, this`taking
      ensures Abs() == M.Apply(old(Abs()), M.Acknowledge)
    {
      if taking.Some? && taking.value < |acks| {
        Resolve(taking.value, Accepted);
        taking := None;
      }
    }

    method ArbiterReturns()
      requires Abs().Shaped()
      modifies this`working
      ensures Abs() == M.Apply(old(Abs()), M.ArbiterReturns)
    {
      if taking.None? {
        working := false;
      }
    }

    /** Every acknowledgement still tracked is resolved, once, whatever order the map gives. */
    method Retire()
      requires M.Inv(Abs())
      modifies this`retired, this`acks
      ensures Abs() == M.Apply(old(Abs()), M.Retire)
    {
      if working || retired {
        return;
      }
      retired := true;
      var left := tracked;
      while left != {}
        invariant retired && left <= tracked && |acks| == |old(acks)|
        invariant forall id :: 0 <= id < |acks| ==>
          acks[id] == if id in tracked && id !in left then Resolved(old(acks)[id], Terminal) else old(acks)[id]
        decreases |left|
      {
        var id :| id in left;
        Resolve(id, Terminal);
        left := left - {id};
      }
      assert acks == RetireAcks(old(acks), tracked);
    }
  }

  /** callerTimeoutSteerResult, on the caller's attempt. */
  method CallerTimeout(attempt: A.SteerAttempt, sent: SendResult) returns (r: SteerResult)
    modifies attempt
    ensures r == SteerSystem.CallerTimeout(old(attempt.admission), sent)
    ensures attempt.admission == A.Sealed(old(attempt.admission))
    ensures sent == Accepted || sent == Pending ==> !r.outcome.RetrySafe()
  {
    var now := attempt.CancelAndSnapshot();
    if now == A.Admitted {
      r := Local(DeliveryUnknown).(writeAdmitted := true);
    } else if now == A.PendingWriter || sent == Accepted || sent == Pending {
      r := Local(AdmissionUnknown);
    } else {
      r := Local(FallbackRequired);
    }
  }
}

/** The bounded lane of observation slots (driver/acp/reservation.go). */
module ObservationLane {
  datatype Status = Reserved | CapacityExhausted | Closed

  /** A slot, released at most once. */
  class Reservation {
    const lane: Lane
    var released: bool

    constructor (lane: Lane)
      ensures this.lane == lane && !released
    {
      this.lane := lane;
      released := false;
    }

    /** Releasing twice, or after the lane closed, changes nothing. */
    method Release()
      requires lane.Valid() && (!released && !lane.closed ==> this in lane.held)
      modifies this, lane
      ensures lane.Valid() && released && lane.closed == old(lane.closed)
      ensures old(released) ==> lane.used == old(lane.used) && lane.held == old(lane.held)
      ensures !old(released) && !lane.closed ==> lane.used == old(lane.used) - 1 && lane.held == old(lane.held) - {this}
      ensures lane.closed ==> lane.used == 0
    {
      if released {
        return;
      }
      released := true;
      if !lane.closed && lane.used > 0 {
        lane.used := lane.used - 1;
      }
      lane.held := lane.held - {this};
    }
  }

  class Lane {
    const capacity: nat
    var used: nat
    var closed: bool
    /** The reservations handed out and not yet released. */
    ghost var held: set<Reservation>

    /** While the lane is open a slot is used for each reservation not yet released, within capacity. */
    ghost predicate Valid()
      reads this, held
    {
      && (forall r :: r in held ==> r.lane == this && !r.released)
      && (if closed then used == 0 else used == |held| <= capacity)
    }

    constructor (capacity: int)
      ensures Valid() && !closed && held == {}
      ensures this.capacity == if capacity < 0 then 0 else capacity
    {
      this.capacity := if capacity < 0 then 0 else capacity;
      used, closed, held := 0, false, {};
    }

    method Reserve() returns (r: Reservation?, status: Status)
      requires Valid()
      modifies this
      ensures Valid() && closed == old(closed)
      ensures status == if closed then Closed else if old(used) == capacity then CapacityExhausted else Reserved
      ensures status == Reserved ==> r != null && fresh(r) && r.lane == this && !r.released && held == old(held) + {r}
      ensures status != Reserved ==> r == null && held == old(held) && used == old(used)
    {
      if closed {
        return null, Closed;
      }
      if used >= capacity {
        return null, CapacityExhausted;
      }
      used := used + 1;
      r := new Reservation(this);
      held := held + {r};
      status := Reserved;
    }

    /** Closing frees every slot at once; late releases are then no-ops. */
    method Close()
      requires Valid()
      modifies this
      ensures Valid() && closed && used == 0 && held == old(held)
    {
      closed := true;
      used := 0;
    }
  }
}
