/**
  The arbiter as the object its goroutine runs (driver/acp/turn.go, turnArbiter). `Run` is the
  loop; every method is verified to do exactly what the function of the same name in
  `ArbiterModel` says.
 */
module ArbiterLoop {
  import opened Options
  import opened DriverContract
  import opened Admission
  import opened AcpSteering
  import opened A = ArbiterModel
  import T = ArbiterTheorems
  import D = DispatcherModel

  class TurnArbiter {
    var received: nat
    var stamps: nat
    var pending: seq<Entry>
    var steers: seq<nat>
    var released: set<nat>
    var prompt: Option<nat>
    var promptQueued: bool
    var terminalAsked: bool
    var terminalReady: bool
    var updatesDrained: bool
    var promptBarrierRequested: bool
    var updatesOpen: bool
    var reportsOpen: bool
    var hasBarrier: bool
    var barrierBusy: bool
    var barrierCompleted: nat
    var barrierFence: bool
    var lastRaw: nat
    var lastOrder: nat
    var failed: bool
    const steeringOn: bool
    var steeringOff: bool
    var exit: Exit
    var trace: Trace

    constructor (steeringOn: bool, steeringOff: bool)
      ensures Abs() == Initial(steeringOn, steeringOff)
    {
      this.steeringOn := steeringOn;
      this.steeringOff := steeringOff;
      received, stamps, pending, steers, released := 0, 0, [], [], {};
      prompt, promptQueued, terminalAsked, terminalReady := None, false, false, false;
      updatesDrained, promptBarrierRequested, updatesOpen, reportsOpen := false, false, true, true;
      hasBarrier, barrierBusy, barrierCompleted, barrierFence := true, false, 0, false;
      lastRaw, lastOrder, failed, exit, trace := 0, 0, false, Running, Start;
    }

    function Abs(): State
      reads this
    {
      State(received, stamps, pending, steers, released, prompt, promptQueued, terminalAsked, terminalReady,
            updatesDrained, promptBarrierRequested, updatesOpen, reportsOpen, hasBarrier, barrierBusy,
            barrierCompleted, barrierFence, lastRaw, lastOrder, failed, steeringOn, steeringOff, exit, trace)
    }

    method Run(passes: seq<A.Pass>)
      modifies this
      ensures Abs() == T.RunOf(old(Abs()), passes)
    {
      hide A.Trip;
      var i := 0;
      assert passes[0..] == passes;
      while i < |passes|
        invariant 0 <= i <= |passes|
        invariant T.RunOf(Abs(), passes[i..]) == T.RunOf(old(Abs()), passes)
      {
        assert passes[i..][1..] == passes[i + 1..];
        Pass(passes[i]);
        i := i + 1;
      }
    }

    method Pass(p: A.Pass)
      modifies this
      ensures Abs() == Trip(old(Abs()), p)
    {
      hide A.Prepare, A.DrainUpdates, A.Advance, A.Leave;
      if exit != Running {
        return;
      }
      if p.shutdown {
        Leave(ByShutdown);
        return;
      }
      if failed {
        Leave(ByRegression);
        return;
      }
      Prepare(p);
      if MustDrain(Abs()) {
        DrainUpdates(p.drained);
        if !updatesDrained {
          return;
        }
      }
      Advance(p);
    }

    method Prepare(p: A.Pass)
      modifies this
      ensures Abs() == A.Prepare(old(Abs()), p)
    {
      hide A.AcceptCommands, A.BeginTerminal, A.MaybePromptBarrier;
      AcceptCommands(p.queued);
      if prompt.Some? && !terminalAsked {
        BeginTerminal(p.queuedAtTerminal, p.markerTaken);
      }
      MaybePromptBarrier(p.barrierTakes);
    }

    method Advance(p: A.Pass)
      modifies this
      ensures Abs() == A.Advance(old(Abs()), p)
    {
      hide Abs, A.QueuePrompt, A.TryEmit, A.Select, A.Leave;
      QueuePrompt();
      var again := TryEmit(p.barrierTakes, p.attempts);
      if again {
        return;
      }
      Shows();
      ShowsOrder();
      if prompt.Some? && terminalAsked && terminalReady && updatesDrained
         && steers == [] && pending == [] && !barrierBusy {
        Note(Finished);
        Leave(ByTerminal);
        return;
      }
      Select(p);
    }

    /** What the abstraction shows of the fields. */
    lemma Shows()
      ensures Abs().updatesOpen == updatesOpen && Abs().reportsOpen == reportsOpen && Abs().hasBarrier == hasBarrier
      ensures Abs().prompt == prompt && Abs().terminalAsked == terminalAsked && Abs().received == received
      ensures Abs().steers == steers && Abs().steeringOn == steeringOn && Abs().steeringOff == steeringOff
      ensures Abs().failed == failed && Abs().pending == pending && Abs().updatesDrained == updatesDrained
      ensures Abs().released == released
    {
    }

    method Select(p: A.Pass)
      modifies this
      ensures Abs() == A.Select(old(Abs()), p)
    {
      hide Abs, A.AcceptUpdate, A.AcceptCommand, A.AcceptReport, A.TakeBarrierResult, A.Leave;
      Shows();
      match p.pick {
        case UpdateReady(u) => if updatesOpen { AcceptUpdate(u); }
        case UpdatesClosed => CloseUpdates();
        case CommandReady(c) => AcceptCommand(c);
        case PromptReady(sequence) => if prompt.None? { TakePrompt(sequence); }
        case ReportReady(r) => if reportsOpen { AcceptReport(r, p.barrierTakes); }
        case ReportsClosed => CloseReports();
        case BarrierReady(sequence) => if hasBarrier { TakeBarrierResult(sequence, p.drainedAfter); }
        case BarrierClosed => CloseBarrier();
        case ShuttingDown => Leave(ByShutdown);
      }
    }

    method CloseUpdates()
      modifies this`updatesOpen
      ensures Abs() == old(Abs()).(updatesOpen := false)
    {
      updatesOpen := false;
    }

    method CloseReports()
      modifies this`reportsOpen
      ensures Abs() == old(Abs()).(reportsOpen := false)
    {
      reportsOpen := false;
    }

    method CloseBarrier()
      modifies this`hasBarrier, this`barrierBusy
      ensures Abs() == old(Abs()).(hasBarrier := false, barrierBusy := false)
    {
      hasBarrier, barrierBusy := false, false;
    }

    method TakePrompt(sequence: nat)
      modifies this`prompt, this`trace
      ensures Abs() == A.Note(old(Abs()).(prompt := Some(sequence)), Arrived(sequence))
    {
      prompt := Some(sequence);
      trace := Then(trace, Arrived(sequence));
    }

    /** The loop returns, and the deferred release drops what it held. */
    method Leave(how: Exit)
      modifies this`exit, this`released, this`pending, this`steers
      ensures Abs() == A.Leave(old(Abs()), how)
    {
      hide Abs, Owners, SetOf;
      Shows();
      Retire(how, released + Owners(pending) + SetOf(steers));
      Drop();
    }

    method Retire(how: Exit, freed: set<nat>)
      modifies this`exit, this`released
      ensures Abs() == old(Abs()).(exit := how, released := freed)
    {
      exit, released := how, freed;
    }

    method Drop()
      modifies this`pending, this`steers
      ensures Abs() == old(Abs()).(pending := [], steers := [])
    {
      pending, steers := [], [];
    }

    method Note(d: Deed)
      modifies this`trace
      ensures Abs() == A.Note(old(Abs()), d)
    {
      trace := Then(trace, d);
    }

    method Append(e: Entry)
      modifies this`stamps, this`pending, this`trace
      ensures Abs() == old(Abs()).(stamps := old(stamps) + 1, pending := old(pending) + [e],
                                   trace := Then(old(trace), Accepted(e)))
    {
      stamps := stamps + 1;
      pending := pending + [e];
      trace := Then(trace, Accepted(e));
    }

    method Enqueue(kind: Kind, sequence: nat, reply: Reply)
      modifies this`stamps, this`pending, this`trace
      ensures Abs() == A.Enqueue(old(Abs()), kind, sequence, reply)
    {
      Append(Entry(stamps, kind, sequence, 0, reply, reply));
    }

    method AcceptUpdate(u: Notification)
      modifies this`stamps, this`pending, this`trace
      ensures Abs() == A.AcceptUpdate(old(Abs()), u)
    {
      hide Abs, A.Enqueue;
      Note(Notified(u));
      if u.replay {
        return;
      }
      var left := u.events;
      while left > 0
        invariant
          EnqueueUpdates(Abs(), left, u.sequence) ==
            EnqueueUpdates(A.Note(old(Abs()), Notified(u)), u.events, u.sequence)
      {
        Enqueue(Update, u.sequence, SILENCE);
        left := left - 1;
      }
    }

    /** The non-blocking drain of the updates, and what it means for updatesDrained. */
    method DrainUpdates(d: Drained)
      modifies this`stamps, this`pending, this`trace, this`updatesOpen, this`updatesDrained
      ensures Abs() == A.DrainUpdates(old(Abs()), d)
    {
      hide Abs, A.AcceptUpdates;
      Shows();
      if !updatesOpen {
        UpdatesAre(false, true);
        Note(Swept(true));
        return;
      }
      AcceptUpdates(d.updates);
      UpdatesAre(!d.closed, d.updates == []);
      Note(Swept(d.updates == []));
    }

    method AcceptUpdates(us: seq<Notification>)
      modifies this`stamps, this`pending, this`trace
      ensures Abs() == A.AcceptUpdates(old(Abs()), us)
    {
      hide Abs, A.AcceptUpdate;
      var i := 0;
      assert us[0..] == us;
      while i < |us|
        invariant 0 <= i <= |us|
        invariant A.AcceptUpdates(Abs(), us[i..]) == A.AcceptUpdates(old(Abs()), us)
      {
        assert us[i..][1..] == us[i + 1..];
        AcceptUpdate(us[i]);
        i := i + 1;
      }
    }

    method UpdatesAre(isOpen: bool, isDrained: bool)
      modifies this`updatesOpen, this`updatesDrained
      ensures Abs() == old(Abs()).(updatesOpen := isOpen, updatesDrained := isDrained)
    {
      updatesOpen, updatesDrained := isOpen, isDrained;
    }

    method AcceptCommands(cs: seq<Command>)
      modifies this`received, this`released, this`steers, this`stamps, this`pending, this`trace
      ensures Abs() == A.AcceptCommands(old(Abs()), cs)
    {
      hide Abs, A.AcceptCommand;
      var i := 0;
      assert cs[0..] == cs;
      while i < |cs|
        invariant 0 <= i <= |cs|
        invariant A.AcceptCommands(Abs(), cs[i..]) == A.AcceptCommands(old(Abs()), cs)
      {
        assert cs[i..][1..] == cs[i + 1..];
        AcceptCommand(cs[i]);
        i := i + 1;
      }
    }

    method AcceptCommand(c: Command)
      modifies this`received, this`released, this`steers, this`stamps, this`pending, this`trace
      ensures Abs() == A.AcceptCommand(old(Abs()), c)
    {
      hide Abs, A.TakeCommand;
      Shows();
      var command := c.(submittable := c.submittable && reportsOpen);
      Note(Received(received, command, steeringOn && !steeringOff));
      TakeCommand(command);
    }

    /** The command is dropped, answered on the spot, or handed to the dispatcher. */
    method TakeCommand(c: Command)
      modifies this`received, this`released, this`steers, this`stamps, this`pending, this`trace
      ensures Abs() == A.TakeCommand(old(Abs()), c)
    {
      hide Abs, A.Judge, A.Place;
      Shows();
      var id := received;
      var enabled := steeringOn && !steeringOff;
      Count();
      if !c.hasReply {
        Release(id);
        return;
      }
      Note(Took(id));
      Place(id, Judge(c, enabled));
    }

    method Place(id: nat, v: Verdict)
      modifies this`steers, this`stamps, this`pending, this`trace
      ensures Abs() == A.Place(old(Abs()), id, v)
    {
      hide Abs, A.Enqueue;
      match v {
        case Local(reply) => Enqueue(Steer(id), reply.result.receiveSequence, reply);
        case Submit =>
          Await(id);
          Note(Submitted(id));
      }
    }

    method Count()
      modifies this`received
      ensures Abs() == old(Abs()).(received := old(Abs()).received + 1)
    {
      received := received + 1;
    }

    method Release(id: nat)
      modifies this`released
      ensures Abs() == old(Abs()).(released := old(Abs()).released + {id})
    {
      released := released + {id};
    }

    method Await(id: nat)
      modifies this`steers
      ensures Abs() == old(Abs()).(steers := old(Abs()).steers + [id])
    {
      steers := steers + [id];
    }

    method Forget(id: nat)
      modifies this`steers
      ensures Abs() == old(Abs()).(steers := Without(old(Abs()).steers, id))
    {
      steers := Without(steers, id);
    }

    method Disable(off: bool)
      modifies this`steeringOff
      ensures Abs() == A.Disable(old(Abs()), off)
    {
      if off {
        assert A.Disable(old(Abs()), off) == old(Abs()).(steeringOff := true);
        steeringOff := true;
      } else {
        assert A.Disable(old(Abs()), off) == old(Abs());
      }
    }

    method Ready()
      modifies this`terminalReady
      ensures Abs() == old(Abs()).(terminalReady := true)
    {
      terminalReady := true;
    }

    method AcceptReport(r: D.Report, barrierTakes: bool)
      modifies this
      ensures Abs() == A.AcceptReport(old(Abs()), r, barrierTakes)
    {
      hide Abs, A.TakeReport;
      Note(Told(r));
      TakeReport(r, barrierTakes);
    }

    method TakeReport(r: D.Report, barrierTakes: bool)
      modifies this
      ensures Abs() == A.TakeReport(old(Abs()), r, barrierTakes)
    {
      hide Abs, A.AcceptAnswer, A.Disable;
      Shows();
      if r.TerminalComplete? {
        Ready();
        return;
      }
      if r.id !in steers {
        Disable(r.late || r.err != D.NoError || r.result.writeAdmitted);
        return;
      }
      AcceptAnswer(r, barrierTakes);
    }

    method AcceptAnswer(r: D.Report, barrierTakes: bool)
      requires r.Report?
      modifies this
      ensures Abs() == A.AcceptAnswer(old(Abs()), r, barrierTakes)
    {
      hide Abs, Answer, A.MaybePromptBarrier, A.Enqueue, A.Disable, GuaranteesNoDelivery, Ambiguous;
      var reply := Answer(r.id, r.result, r.err, r.admission, r.late);
      Forget(r.id);
      Shows();
      if r.late {
        Disable(Ambiguous(reply.result.outcome) || reply.result.outcome.AdmissionUnknown?);
        Enqueue(Steer(r.id), 0, reply);
        return;
      }
      if terminalAsked && steers == [] {
        MaybePromptBarrier(barrierTakes);
      }
      Disable(Ambiguous(reply.result.outcome) || GuaranteesNoDelivery(r.err));
      Enqueue(Steer(r.id), reply.result.receiveSequence, reply);
    }

    method BeginTerminal(cs: seq<Command>, markerTaken: bool)
      modifies this
      ensures Abs() == A.BeginTerminal(old(Abs()), cs, markerTaken)
    {
      hide Abs, A.AcceptCommands;
      AskTerminal();
      AcceptCommands(cs);
      Shows();
      if !(markerTaken && reportsOpen) {
        Ready();
      }
    }

    method AskTerminal()
      modifies this`terminalAsked, this`updatesDrained, this`trace
      ensures Abs() == A.Note(old(Abs()).(terminalAsked := true, updatesDrained := false), TerminalAsked)
    {
      terminalAsked, updatesDrained := true, false;
      trace := Then(trace, TerminalAsked);
    }

    method RequestBarrier(sequence: nat, barrierTakes: bool)
      modifies this`barrierFence, this`barrierBusy
      ensures Abs() == A.RequestBarrier(old(Abs()), sequence, barrierTakes)
    {
      if !hasBarrier {
        barrierFence := true;
        return;
      }
      if (sequence != 0 && sequence <= barrierCompleted) || (sequence == 0 && barrierFence) || barrierBusy {
        return;
      }
      barrierBusy := barrierTakes;
    }

    method MaybePromptBarrier(barrierTakes: bool)
      modifies this`promptBarrierRequested, this`barrierFence, this`barrierBusy
      ensures Abs() == A.MaybePromptBarrier(old(Abs()), barrierTakes)
    {
      hide A.RequestBarrier;
      if prompt.None? || !terminalAsked || !terminalReady || promptBarrierRequested
         || steers != [] || HasPendingSteer(pending) {
        return;
      }
      promptBarrierRequested := true;
      RequestBarrier(prompt.value, barrierTakes);
    }

    method TakeBarrierResult(sequence: nat, d: Drained)
      modifies this
      ensures Abs() == A.TakeBarrierResult(old(Abs()), sequence, d)
    {
      hide Abs, A.DrainUpdates, Max;
      ShowsOrder();
      BarrierIs(Max(barrierCompleted, sequence), barrierFence || sequence == 0);
      Note(Fence(sequence));
      Shows();
      if prompt.Some? && terminalAsked {
        DrainUpdates(d);
      }
    }

    method BarrierIs(completed: nat, fence: bool)
      modifies this`barrierBusy, this`barrierCompleted, this`barrierFence
      ensures Abs() == old(Abs()).(barrierBusy := false, barrierCompleted := completed, barrierFence := fence)
    {
      barrierBusy, barrierCompleted, barrierFence := false, completed, fence;
    }

    method QueuePrompt()
      modifies this
      ensures Abs() == A.QueuePrompt(old(Abs()))
    {
      hide A.Enqueue;
      if prompt.Some? && terminalAsked && updatesDrained && !promptQueued {
        Enqueue(Prompt, prompt.value, SILENCE);
        promptQueued := true;
      }
    }

    /** The candidate: the first with the least sequence, else the first without one; -1 if there is none. */
    method NextObservationIndex() returns (best: int)
      ensures best == BestOf(pending, |pending|)
    {
      best := -1;
      var bestSequence := 0;
      var i := 0;
      while i < |pending|
        invariant 0 <= i <= |pending|
        invariant best == BestOf(pending, i)
        invariant bestSequence == if best < 0 then 0 else pending[best].sequence
      {
        if pending[i].sequence == 0 {
          if best < 0 {
            best := i;
          }
        } else if best < 0 || bestSequence == 0 || pending[i].sequence < bestSequence {
          best := i;
          bestSequence := pending[i].sequence;
        }
        i := i + 1;
      }
    }

    method EmitObservation(e: Entry)
      modifies this`trace, this`released
      ensures Abs() == A.EmitObservation(old(Abs()), e)
    {
      hide Abs;
      Note(Emitted(e));
      if e.kind.Steer? {
        Note(Answered(e.kind.owner, e.answer));
        Release(e.kind.owner);
      }
    }

    /** The candidate leaves the queue; the order moves on. */
    method Remove(index: nat, raw: nat, order: nat)
      requires index < |pending|
      modifies this`pending, this`lastRaw, this`lastOrder
      ensures Abs() == old(Abs()).(pending := old(pending)[..index] + old(pending)[index + 1..], lastRaw := raw,
                                   lastOrder := order)
    {
      pending := pending[..index] + pending[index + 1..];
      lastRaw, lastOrder := raw, order;
    }

    method EmitRaw(index: nat)
      requires index < |pending|
      modifies this`pending, this`lastRaw, this`lastOrder, this`trace, this`released
      ensures Abs() == A.EmitRaw(old(Abs()), index)
    {
      hide A.EmitObservation, Max;
      var candidate := pending[index];
      Remove(index, candidate.sequence, Max(lastOrder, candidate.sequence));
      EmitObservation(candidate);
    }

    method EmitLocal(index: nat)
      requires index < |pending|
      modifies this`pending, this`lastRaw, this`lastOrder, this`trace, this`released
      ensures Abs() == A.EmitLocal(old(Abs()), index)
    {
      hide A.EmitObservation, WithLocalOrder, Max;
      var order := Max(lastOrder, lastRaw) + 1;
      var candidate := WithLocalOrder(pending[index], order);
      Remove(index, lastRaw, order);
      EmitObservation(candidate);
    }

    method TryEmit(barrierTakes: bool, attempts: map<nat, Admission>) returns (again: bool)
      modifies this
      ensures Emission(Abs(), again) == A.TryEmit(old(Abs()), barrierTakes, attempts)
    {
      hide Abs, A.FailSequence, A.RequestBarrier, A.EmitRaw, A.EmitLocal, A.BestOf;
      Shows();
      ShowsOrder();
      if pending == [] {
        return false;
      }
      var index := NextObservationIndex();
      var candidate := pending[index];
      if candidate.sequence != 0 {
        if candidate.sequence < lastRaw {
          FailSequence(attempts);
          return true;
        }
        if !candidate.kind.Update? && candidate.sequence > barrierCompleted {
          RequestBarrier(candidate.sequence, barrierTakes);
          return false;
        }
        if candidate.kind.Update? && steers != [] {
          return false;
        }
        EmitRaw(index);
      } else {
        if HasPositive(pending) || steers != [] {
          return false;
        }
        if prompt.Some? && !barrierFence {
          RequestBarrier(0, barrierTakes);
          return false;
        }
        EmitLocal(index);
      }
      again := true;
    }

    lemma ShowsOrder()
      ensures Abs().terminalReady == terminalReady && Abs().barrierBusy == barrierBusy
      ensures Abs().lastRaw == lastRaw && Abs().barrierCompleted == barrierCompleted
      ensures Abs().barrierFence == barrierFence
    {
    }

    method Flush(e: Entry)
      modifies this`trace, this`released
      ensures Abs() == A.Flush(old(Abs()), e)
    {
      hide Abs;
      if e.kind.Steer? {
        Note(Flushed(e));
        Note(Answered(e.kind.owner, e.answer));
        Release(e.kind.owner);
      }
    }

    method FailSequence(attempts: map<nat, Admission>)
      modifies this
      ensures Abs() == A.FailSequence(old(Abs()), attempts)
    {
      hide Abs, A.FlushSteers, A.FlushPending;
      Shows();
      if failed {
        return;
      }
      Fail();
      FlushSteers(attempts);
      FlushPending();
      Note(Broke);
    }

    method Fail()
      modifies this`failed, this`steeringOff
      ensures Abs() == old(Abs()).(failed := true, steeringOff := true)
      ensures pending == old(pending) && steers == old(steers)
    {
      failed, steeringOff := true, true;
    }

    method FlushSteers(attempts: map<nat, Admission>)
      modifies this`steers, this`trace, this`released
      ensures Abs() == A.FlushSteers(old(Abs()), old(Abs()).steers, attempts)
      ensures pending == old(pending)
    {
      hide Abs, A.Flush, Failure;
      Shows();
      while steers != []
        invariant A.FlushSteers(Abs(), steers, attempts) == A.FlushSteers(old(Abs()), old(Abs()).steers, attempts)
        decreases |steers|
      {
        var id := steers[0];
        PopSteer();
        Flush(Failure(id, attempts));
      }
    }

    method PopSteer()
      requires steers != []
      modifies this`steers
      ensures Abs() == old(Abs()).(steers := old(steers)[1..]) && steers == old(steers)[1..]
    {
      steers := steers[1..];
    }

    method FlushPending()
      modifies this`pending, this`trace, this`released
      ensures Abs() == A.FlushPending(old(Abs()), old(pending))
    {
      hide Abs, A.Flush;
      while pending != []
        invariant A.FlushPending(Abs(), pending) == A.FlushPending(old(Abs()), old(pending))
        decreases |pending|
      {
        var candidate := pending[0];
        PopPending();
        Flush(candidate);
      }
    }

    method PopPending()
      requires pending != []
      modifies this`pending
      ensures Abs() == old(Abs()).(pending := old(pending)[1..]) && pending == old(pending)[1..]
    {
      pending := pending[1..];
    }
  }
}
