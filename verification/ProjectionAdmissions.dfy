/** What the projection takes from its producers, over every interleaving. */
module ProjectionAdmissions {
  import opened Options
  import opened ProjectionModel

  /** The projection is open and has room, and a view is selected for the first time. */
  predicate Admissible(s: State, load: Load) {
    !s.closed && |s.mailbox| < MAILBOX && (load.SelectView? ==> !s.selectUsed)
  }

  /** What one call of a producer appends to what is admitted. */
  function Offered(s: State, load: Load): seq<Load> {
    if Admissible(s, load) then [load] else []
  }

  /** What producers offer, in order, when it is admissible. */
  function Admissions(s: State, steps: seq<Step>): seq<Load>
    decreases |steps|
  {
    if steps == [] then []
    else
      (if steps[0].Produce? then Offered(s, steps[0].load) else [])
      + Admissions(Apply(s, steps[0]), steps[1..])
  }

  function Loads(q: seq<Command>): seq<Load> {
    seq(|q|, i requires 0 <= i < |q| => q[i].load)
  }

  lemma PanicAdmits(s: State, bad: bool)
    ensures Panic(s, bad).admitted == s.admitted
  {
  }

  lemma CloseAckAdmits(s: State, c: Command)
    ensures CloseAck(s, c).admitted == s.admitted
  {
    PanicAdmits(s, c.id in s.acked);
    hide Panic;
  }

  lemma {:induction false} CloseAcksAdmits(s: State, q: seq<Command>)
    ensures CloseAcks(s, q).admitted == s.admitted
    decreases |q|
  {
    hide CloseAck;
    if q != [] {
      CloseAckAdmits(s, q[0]);
      CloseAcksAdmits(CloseAck(s, q[0]), q[1..]);
    }
  }

  lemma MarkClosedAdmits(s: State)
    ensures MarkClosed(s).admitted == s.admitted
  {
    PanicAdmits(s, s.spaceClosed);
    hide Panic;
  }

  lemma ClosedChannelsAdmit(s: State)
    ensures CloseEvents(s).admitted == s.admitted && CloseObservations(s).admitted == s.admitted
  {
    PanicAdmits(s, s.eventsClosed);
    PanicAdmits(s, s.observationsClosed);
    hide Panic;
  }

  lemma LeaveAdmits(s: State, exit: Exit)
    ensures Leave(s, exit).admitted == s.admitted
  {
    hide CloseAcks, MarkClosed, CloseEvents, CloseObservations;
    var s1 := MarkClosed(s);
    var s2 := CloseAcks(s1.(mailbox := []), s1.mailbox);
    var s3 := CloseAcks(s2, s2.pending).(pending := []);
    var s4 := if s3.eventsClosed then s3 else CloseEvents(s3);
    MarkClosedAdmits(s);
    CloseAcksAdmits(s1.(mailbox := []), s1.mailbox);
    CloseAcksAdmits(s2, s2.pending);
    ClosedChannelsAdmit(s3);
    ClosedChannelsAdmit(s4);
  }

  lemma TakeAdmits(s: State)
    requires s.mailbox != []
    ensures Take(s).admitted == s.admitted
  {
    hide CommandConsumed, CloseEvents, CloseObservations, CloseAck;
    var c := s.mailbox[0];
    var s0 := s.(mailbox := s.mailbox[1..]);
    var s1 := CommandConsumed(s0);
    ConsumedAdmits(s0);
    if c.load.SelectView? && !s1.selected.Some? {
      var s2 := s1.(selected := Some(c.load.view));
      ClosedChannelsAdmit(s2);
      if c.load.view.Events? {
        CloseAckAdmits(CloseObservations(s2), c);
      } else {
        CloseAckAdmits(CloseEvents(s2), c);
      }
    }
  }

  lemma ConsumedAdmits(s: State)
    ensures CommandConsumed(s).admitted == s.admitted
  {
    PanicAdmits(s, s.spaceClosed);
    hide Panic;
  }

  lemma SendAdmits(s: State)
    requires Sending(s)
    ensures Send(s).admitted == s.admitted
  {
    hide Panic, CloseAck;
    var bad := if s.selected.value.Events? then s.eventsClosed else s.observationsClosed;
    PanicAdmits(s, bad);
    CloseAckAdmits(Panic(s, bad), s.pending[0]);
  }

  lemma SelectAdmits(s: State, step: Step)
    ensures Select(s, step).admitted == s.admitted
  {
    hide Take, Send, Leave;
    if s.mailbox != [] {
      TakeAdmits(s);
    }
    if Sending(s) {
      SendAdmits(s);
    }
    LeaveAdmits(s, Aborted);
  }

  lemma OwnerAdmits(s: State, step: Step)
    ensures OwnerTrip(s, step).admitted == s.admitted
  {
    hide Select, Leave, CloseAck, InView;
    SelectAdmits(s, step);
    LeaveAdmits(s, OutputFull);
    LeaveAdmits(s, Exit.Drained);
    if Sending(s) {
      CloseAckAdmits(s, s.pending[0]);
    }
  }

  lemma PromiseAdmits(s: State, c: Command)
    ensures Promise(s, c).admitted == s.admitted
  {
    if c.HasAck() {
      assert Promise(s, c) == s.(promised := s.promised + {c.id});
    }
  }

  lemma IssueAdmits(s: State, load: Load)
    ensures Issue(s, load).admitted == s.admitted
  {
    if load.SelectView? {
      assert Issue(s, load) == s.(issued := s.issued + 1, selectUsed := true);
    }
  }

  lemma ProduceAdmits(s: State, load: Load)
    ensures Loads(Admit(s, load).admitted) == Loads(s.admitted) + Offered(s, load)
  {
    hide Issue, Promise, CloseAck;
    if Admissible(s, load) {
      assert Loads(s.admitted + [Command(s.issued, load)]) == Loads(s.admitted) + [load];
    } else {
      RefusedAdmits(s, load);
      hide Loads, Admit;
    }
  }

  lemma RefusedAdmits(s: State, load: Load)
    requires !Admissible(s, load)
    ensures Admit(s, load).admitted == s.admitted
  {
    hide Issue, Promise, CloseAck;
    if s.closed && !(load.SelectView? && s.selectUsed) {
      if load.Observation? {
        var c := Command(s.issued, load);
        IssueAdmits(s, load);
        PromiseAdmits(Issue(s, load), c);
        CloseAckAdmits(Promise(Issue(s, load), c), c);
      } else {
        IssueAdmits(s, load);
      }
    }
  }

  lemma StepAdmits(s: State, step: Step)
    ensures Loads(Apply(s, step).admitted) == Loads(s.admitted) + if step.Produce? then Offered(s, step.load) else []
  {
    hide Loads, Offered, Admit, OwnerTrip, MarkClosed;
    if step.Produce? {
      ProduceAdmits(s, step.load);
    } else {
      IdleAdmits(s, step);
      hide Apply;
    }
  }

  lemma IdleAdmits(s: State, step: Step)
    requires !step.Produce?
    ensures Apply(s, step).admitted == s.admitted
  {
    hide OwnerTrip, MarkClosed;
    match step {
      case Close => MarkClosedAdmits(s);
      case Abort => MarkClosedAdmits(s);
      case Consume =>
      case _ => OwnerAdmits(s, step);
    }
  }

  lemma {:induction false} RunAdmits(s: State, steps: seq<Step>)
    ensures Loads(RunOf(s, steps).admitted) == Loads(s.admitted) + Admissions(s, steps)
    decreases |steps|
  {
    hide Apply, Loads, Offered;
    if steps != [] {
      StepAdmits(s, steps[0]);
      RunAdmits(Apply(s, steps[0]), steps[1..]);
    }
  }

  /** In every run the projection admits, in order, exactly what it is offered while it is open and has room. */
  lemma AdmittedExactly(steps: seq<Step>)
    ensures Loads(RunOf(FRESH, steps).admitted) == Admissions(FRESH, steps)
  {
    RunAdmits(FRESH, steps);
    assert Loads([]) == [];
  }
}
