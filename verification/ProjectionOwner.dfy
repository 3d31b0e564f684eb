/**
  The projection as the object producers and its owner goroutine share (driver/acp/projection.go).
  Every method is one atomic step and is verified to do exactly what the function of the same
  name in `ProjectionModel` says.
 */
module ProjectionOwner {
  import opened Options
  import opened P = ProjectionModel

  class Projection {
    var selected: Option<View>
    var issued: nat
    var admitted: seq<Command>
    var mailbox: seq<Command>
    var pending: seq<Command>
    var delivered: seq<Command>
    var output: nat
    var selectUsed: bool
    var closed: bool
    var spaceClosed: bool
    var stopAsked: bool
    var stopping: bool
    var abortAsked: bool
    var exit: Exit
    var promised: set<nat>
    var acked: set<nat>
    var eventsClosed: bool
    var observationsClosed: bool
    var panicked: bool

    constructor ()
      ensures Abs() == FRESH
    {
      selected, issued, admitted, mailbox, pending, delivered, output := None, 0, [], [], [], [], 0;
      selectUsed, closed, spaceClosed, stopAsked, stopping, abortAsked := false, false, false, false, false, false;
      exit, promised, acked, eventsClosed, observationsClosed, panicked := Running, {}, {}, false, false, false;
    }

    function Abs(): State
      reads this
    {
      State(selected, issued, admitted, mailbox, pending, delivered, output, selectUsed, closed, spaceClosed,
            stopAsked, stopping, abortAsked, exit, promised, acked, eventsClosed, observationsClosed, panicked)
    }

    /** What the abstraction shows of the fields. */
    lemma Shows()
      ensures Abs().selected == selected && Abs().issued == issued && Abs().mailbox == mailbox
      ensures Abs().pending == pending
      ensures Abs().output == output && Abs().selectUsed == selectUsed && Abs().closed == closed
      ensures Abs().spaceClosed == spaceClosed
      ensures Abs().stopAsked == stopAsked && Abs().stopping == stopping && Abs().abortAsked == abortAsked
      ensures Abs().exit == exit
      ensures Abs().acked == acked && Abs().eventsClosed == eventsClosed
      ensures Abs().observationsClosed == observationsClosed
    {
    }

    method Panic(bad: bool)
      modifies this`panicked
      ensures Abs() == P.Panic(old(Abs()), bad)
    {
      if bad {
        assert P.Panic(old(Abs()), bad) == old(Abs()).(panicked := true);
        panicked := true;
      } else {
        assert P.Panic(old(Abs()), bad) == old(Abs());
      }
    }

    method MarkAcked(id: nat)
      modifies this`acked
      ensures Abs() == old(Abs()).(acked := old(Abs()).acked + {id})
    {
      acked := acked + {id};
    }

    method CloseAck(c: Command)
      modifies this`acked, this`panicked
      ensures Abs() == P.CloseAck(old(Abs()), c)
    {
      hide Abs, P.Panic;
      Shows();
      if c.HasAck() {
        Panic(c.id in acked);
        ghost var before := Abs();
        MarkAcked(c.id);
        PanicLeavesAcks(old(Abs()), c.id in old(Abs()).acked);
      }
    }

    method CloseAcks(q: seq<Command>)
      modifies this`acked, this`panicked
      ensures Abs() == P.CloseAcks(old(Abs()), q)
    {
      hide Abs, P.CloseAck;
      var i := 0;
      assert q[0..] == q;
      while i < |q|
        invariant 0 <= i <= |q|
        invariant P.CloseAcks(Abs(), q[i..]) == P.CloseAcks(old(Abs()), q)
      {
        assert q[i..][1..] == q[i + 1..];
        CloseAck(q[i]);
        i := i + 1;
      }
    }

    method MarkClosed()
      modifies this`closed, this`spaceClosed, this`panicked
      ensures Abs() == P.MarkClosed(old(Abs()))
    {
      hide Abs, P.Panic;
      Shows();
      if !closed {
        Panic(spaceClosed);
        ShutSpace();
      }
    }

    method ShutSpace()
      modifies this`closed, this`spaceClosed
      ensures Abs() == old(Abs()).(closed := true, spaceClosed := true)
    {
      closed, spaceClosed := true, true;
    }

    /** The generation channel is closed and replaced. */
    method CommandConsumed()
      modifies this`panicked
      ensures Abs() == P.CommandConsumed(old(Abs()))
    {
      hide Abs, P.Panic;
      Shows();
      if !closed {
        Panic(spaceClosed);
      }
    }

    method Issue(load: Load) returns (c: Command)
      modifies this`issued, this`selectUsed
      ensures c == Command(old(Abs()).issued, load) && Abs() == P.Issue(old(Abs()), load)
    {
      c := Command(issued, load);
      issued := issued + 1;
      if load.SelectView? {
        assert P.Issue(old(Abs()), load) == old(Abs()).(issued := issued, selectUsed := true);
        selectUsed := true;
      } else {
        assert P.Issue(old(Abs()), load) == old(Abs()).(issued := issued);
      }
    }

    method Promise(c: Command)
      modifies this`promised
      ensures Abs() == P.Promise(old(Abs()), c)
    {
      if c.HasAck() {
        assert P.Promise(old(Abs()), c) == old(Abs()).(promised := old(promised) + {c.id});
        promised := promised + {c.id};
      } else {
        assert P.Promise(old(Abs()), c) == old(Abs());
      }
    }

    method Post(c: Command)
      modifies this`admitted, this`mailbox
      ensures Abs() == old(Abs()).(admitted := old(Abs()).admitted + [c], mailbox := old(Abs()).mailbox + [c])
    {
      admitted, mailbox := admitted + [c], mailbox + [c];
    }

    /** enqueue, once it has an answer; a refused observation's acknowledgement is closed by its producer. */
    method Admit(load: Load)
      modifies this`issued, this`selectUsed, this`promised, this`admitted, this`mailbox, this`acked, this`panicked
      ensures Abs() == P.Admit(old(Abs()), load)
    {
      hide Abs, P.Issue, P.Promise, P.CloseAck;
      Shows();
      if load.SelectView? && selectUsed {
        return;
      }
      ghost var before := Abs();
      if closed {
        var c := Issue(load);
        if load.Observation? {
          Promise(c);
          CloseAck(c);
        }
        return;
      }
      if |mailbox| < MAILBOX {
        var c := Issue(load);
        Promise(c);
        IssueLeavesMail(before, load, c);
        Post(c);
      }
    }

    method Close()
      modifies this`closed, this`spaceClosed, this`panicked, this`stopAsked
      ensures Abs() == P.Apply(old(Abs()), P.Close)
    {
      hide Abs, P.MarkClosed;
      Shows();
      if !stopAsked {
        MarkClosed();
        AskStop();
      }
    }

    method AskStop()
      modifies this`stopAsked
      ensures Abs() == old(Abs()).(stopAsked := true)
    {
      stopAsked := true;
    }

    method AbortOwner()
      modifies this`closed, this`spaceClosed, this`panicked, this`abortAsked
      ensures Abs() == P.Apply(old(Abs()), P.Abort)
    {
      hide Abs, P.MarkClosed;
      MarkClosed();
      AskAbort();
    }

    method AskAbort()
      modifies this`abortAsked
      ensures Abs() == old(Abs()).(abortAsked := true)
    {
      abortAsked := true;
    }

    /** The consumer receives one value. */
    method Consume()
      modifies this`output
      ensures Abs() == P.Apply(old(Abs()), P.Consume)
    {
      if output > 0 {
        output := output - 1;
      }
    }

    method CloseEvents()
      modifies this`eventsClosed, this`panicked
      ensures Abs() == P.CloseEvents(old(Abs()))
    {
      hide Abs, P.Panic;
      Shows();
      Panic(eventsClosed);
      EventsAreClosed();
    }

    method EventsAreClosed()
      modifies this`eventsClosed
      ensures Abs() == old(Abs()).(eventsClosed := true)
    {
      eventsClosed := true;
    }

    method CloseObservations()
      modifies this`observationsClosed, this`panicked
      ensures Abs() == P.CloseObservations(old(Abs()))
    {
      hide Abs, P.Panic;
      Shows();
      Panic(observationsClosed);
      ObservationsAreClosed();
    }

    method ObservationsAreClosed()
      modifies this`observationsClosed
      ensures Abs() == old(Abs()).(observationsClosed := true)
    {
      observationsClosed := true;
    }

    method DropMail()
      modifies this`mailbox
      ensures Abs() == old(Abs()).(mailbox := [])
    {
      mailbox := [];
    }

    method DropPending()
      modifies this`pending
      ensures Abs() == old(Abs()).(pending := [])
    {
      pending := [];
    }

    method Exited(how: Exit)
      modifies this`exit
      ensures Abs() == old(Abs()).(exit := how)
    {
      exit := how;
    }

    /** The deferred cleanup, then the owner is done. */
    method Leave(how: Exit)
      modifies this
      ensures Abs() == P.Leave(old(Abs()), how)
    {
      hide Abs, P.MarkClosed, P.CloseAcks, P.CloseEvents, P.CloseObservations;
      MarkClosed();
      Shows();
      var left := mailbox;
      DropMail();
      CloseAcks(left);
      Shows();
      CloseAcks(pending);
      DropPending();
      Shows();
      if !eventsClosed {
        CloseEvents();
      }
      Shows();
      if !observationsClosed {
        CloseObservations();
      }
      Exited(how);
    }

    method PopMail() returns (c: Command)
      requires mailbox != []
      modifies this`mailbox
      ensures c == old(mailbox)[0] && Abs() == old(Abs()).(mailbox := old(mailbox)[1..])
    {
      c, mailbox := mailbox[0], mailbox[1..];
    }

    method Choose(view: View)
      modifies this`selected
      ensures Abs() == old(Abs()).(selected := Some(view))
    {
      selected := Some(view);
    }

    method Retain(c: Command)
      modifies this`pending
      ensures Abs() == old(Abs()).(pending := old(Abs()).pending + [c])
    {
      pending := pending + [c];
    }

    method Take()
      requires mailbox != []
      modifies this`mailbox, this`panicked, this`selected, this`eventsClosed, this`observationsClosed, this`acked,
          this`pending
      ensures old(Abs()).mailbox != [] && Abs() == P.Take(old(Abs()))
    {
      hide Abs, P.CommandConsumed, P.CloseAck, P.CloseEvents, P.CloseObservations;
      Shows();
      var c := PopMail();
      CommandConsumed();
      Shows();
      if c.load.SelectView? {
        if selected.None? {
          Choose(c.load.view);
          if c.load.view.Events? {
            CloseObservations();
          } else {
            CloseEvents();
          }
          CloseAck(c);
        }
      } else {
        Retain(c);
      }
    }

    method PopPending(sent: bool)
      requires pending != []
      modifies this`pending, this`delivered, this`output
      ensures var s := old(Abs());
        Abs() == if sent
          then s.(pending := s.pending[1..], delivered := s.delivered + [s.pending[0]], output := s.output + 1)
                 else s.(pending := s.pending[1..])
    {
      if sent {
        delivered, output := delivered + [pending[0]], output + 1;
      } else {
      }
      pending := pending[1..];
    }

    /** The select of one iteration, for the case that is ready and chosen. */
    method Select(step: Step)
      modifies this
      ensures Abs() == P.Select(old(Abs()), step)
    {
      hide Abs, P.Take, P.Send, P.Leave;
      Shows();
      match step {
        case OwnerTakes =>
          if |pending| < DEPTH && mailbox != [] {
            Take();
          }
        case OwnerSeesStop =>
          if stopAsked {
            Stop();
          }
        case OwnerSends =>
          if Sending(Abs()) && output < DEPTH {
            Send();
          }
        case OwnerSeesAbort =>
          if abortAsked {
            Leave(Aborted);
          }
        case _ =>
      }
    }

    method Stop()
      modifies this`stopping
      ensures Abs() == old(Abs()).(stopping := true)
    {
      stopping := true;
    }

    method Send()
      requires Sending(Abs())
      modifies this`pending, this`delivered, this`output, this`acked, this`panicked
      ensures Abs() == P.Send(old(Abs()))
    {
      hide Abs, P.Panic, P.CloseAck;
      Shows();
      var c := pending[0];
      ghost var before := Abs();
      var bad := if selected.value.Events? then eventsClosed else observationsClosed;
      Panic(bad);
      CloseAck(c);
      AckLeavesQueues(before, bad, c);
      PopPending(true);
    }

    /** One iteration of the owner's loop. */
    method OwnerTrip(step: Step)
      modifies this
      ensures Abs() == P.OwnerTrip(old(Abs()), step)
    {
      hide Abs, P.Select, P.Leave, P.CloseAck;
      Shows();
      if exit != Running {
        return;
      }
      if pending != [] && selected.Some? {
        var c := pending[0];
        if !InView(selected.value, c) {
          ghost var before := Abs();
          CloseAck(c);
          SkipLeavesQueues(before, c);
          PopPending(false);
          return;
        }
        if stopping && output == DEPTH {
          Leave(OutputFull);
          return;
        }
      } else if stopping && mailbox == [] {
        Leave(Drained);
        return;
      }
      Select(step);
    }
  }

  lemma PanicLeavesAcks(s: State, bad: bool)
    ensures P.Panic(s, bad).acked == s.acked
  {
  }

  lemma IssueLeavesMail(s: State, load: Load, c: Command)
    ensures P.Promise(P.Issue(s, load), c).admitted == s.admitted && P.Promise(P.Issue(s, load), c).mailbox == s.mailbox
  {
    var t := P.Issue(s, load);
    IssueKeepsMail(s, load);
    hide P.Issue;
    if c.HasAck() {
    } else {
    }
  }

  lemma IssueKeepsMail(s: State, load: Load)
    ensures P.Issue(s, load).admitted == s.admitted && P.Issue(s, load).mailbox == s.mailbox
  {
    if load.SelectView? {
    } else {
    }
  }

  lemma SkipLeavesQueues(s: State, c: Command)
    ensures P.CloseAck(s, c).pending == s.pending && P.CloseAck(s, c).delivered == s.delivered
    ensures P.CloseAck(s, c).output == s.output
  {
    if c.HasAck() {
      if c.id in s.acked {
      } else {
      }
    } else {
    }
  }

  lemma AckLeavesQueues(s: State, bad: bool, c: Command)
    ensures
      var t := P.CloseAck(P.Panic(s, bad), c);
      t.pending == s.pending && t.delivered == s.delivered && t.output == s.output
  {
    SkipLeavesQueues(P.Panic(s, bad), c);
    hide P.CloseAck;
    if bad {
    } else {
    }
  }
}
