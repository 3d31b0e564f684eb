/**
  The dispatcher as the object its goroutine runs (driver/acp/dispatcher.go). `Run` is the loop;
  every method is verified to do exactly what the function of the same name in `DispatcherModel`
  says.
 */
module DispatcherLoop {
  import opened Options
  import opened Admission
  import opened D = DispatcherModel

  /** The passes of the loop until the dispatcher stops or the script ends. */
  function Trips(s: State, passes: seq<Pass>): State
    decreases |passes|
  {
    if passes == [] then s else Trips(Trip(s, passes[0]), passes[1..])
  }

  class Dispatcher {
    var queue: seq<nat>
    var active: Option<Active>
    var terminalRequested: bool
    var completeSent: bool
    var stopped: bool
    var att: map<nat, Admission>
    var trace: Trace

    constructor ()
      ensures Abs() == IDLE
    {
      queue, active, att, trace := [], None, map[], Start;
      terminalRequested, completeSent, stopped := false, false, false;
    }

    function Abs(): State
      reads this
    {
      State(queue, active, terminalRequested, completeSent, stopped, att, trace)
    }

    method Note(d: Deed)
      modifies this`trace
      ensures Abs() == D.Note(old(Abs()), d)
    {
      trace := Then(trace, d);
    }

    method Emit(r: Report)
      modifies this`trace
      ensures Abs() == D.Emit(old(Abs()), r)
    {
      trace := Then(trace, Reported(r));
    }

    method Mark(id: nat, admitted: bool)
      modifies this`att
      ensures Abs() == D.Mark(old(Abs()), id, admitted)
    {
      var now := D.AdmissionOf(Abs(), id);
      att := att[id := if now == NotAdmitted then now else FromFact(admitted)];
    }

    method Run(passes: seq<Pass>)
      modifies this
      ensures Abs() == Trips(old(Abs()), passes)
    {
      hide D.Trip;
      var i := 0;
      assert passes[0..] == passes;
      while i < |passes|
        invariant 0 <= i <= |passes|
        invariant Trips(Abs(), passes[i..]) == Trips(old(Abs()), passes)
      {
        assert passes[i..][1..] == passes[i + 1..];
        Pass(passes[i]);
        i := i + 1;
      }
    }

    method Pass(p: D.Pass)
      modifies this
      ensures Abs() == Trip(old(Abs()), p)
    {
      hide D.TakeJob, D.Select, D.CompleteTerminal;
      if stopped {
        return;
      }
      if active.None? && !terminalRequested && queue != [] {
        TakeJob(p.ctxDone, p.opening);
        if active.None? {
          return;
        }
      }
      CompleteTerminal();
      Select(p);
    }

    method TakeJob(ctxDone: bool, opening: Opening)
      requires queue != []
      modifies this
      ensures Abs() == D.TakeJob(old(Abs()), ctxDone, opening)
    {
      hide D.StartJob;
      var id := queue[0];
      queue := queue[1..];
      if ctxDone {
        var now := Sealed(D.AdmissionOf(Abs(), id));
        att := att[id := now];
        Emit(Unstarted(id, now));
      } else {
        StartJob(id, opening);
      }
    }

    method StartJob(id: nat, opening: Opening)
      modifies this
      ensures Abs() == D.StartJob(old(Abs()), id, opening)
    {
      var now := D.AdmissionOf(Abs(), id);
      if now != Pending {
        Emit(Unstarted(id, now));
        return;
      }
      att := att[id := PendingWriter];
      match opening {
        case Handle =>
          Note(Invoked(id));
          active := Some(Active(id, true, true, PendingWriter, false, false, false));
        case Sync =>
          Note(Invoked(id));
          active := Some(Active(id, false, false, PendingWriter, false, false, false));
        case NilHandle =>
          Note(Invoked(id));
          Note(NoHandle(id));
          Mark(id, false);
          Emit(Unstarted(id, NotAdmitted));
        case NoCapability =>
          Emit(Unstarted(id, NotAdmitted));
          Mark(id, false);
      }
    }

    method CompleteTerminal()
      modifies this`completeSent, this`trace
      ensures Abs() == D.CompleteTerminal(old(Abs()))
    {
      if terminalRequested && (active.None? || active.value.resolved) && queue == [] && !completeSent {
        Emit(TerminalComplete);
        completeSent := true;
      }
    }

    method ResolveQueued()
      modifies this`queue, this`att, this`trace
      ensures Abs() == D.ResolveQueued(old(Abs()))
    {
      hide D.Mark, D.Emit;
      while queue != []
        invariant D.ResolveQueued(Abs()) == D.ResolveQueued(old(Abs()))
        decreases |queue|
      {
        var id := queue[0];
        queue := queue[1..];
        Mark(id, false);
        Emit(Unstarted(id, NotAdmitted));
      }
    }

    method ResolveTerminalActive()
      requires active.Some?
      modifies this`active, this`att, this`trace
      ensures Abs() == D.ResolveTerminalActive(old(Abs()))
    {
      var a := active.value;
      if a.resolved {
        return;
      }
      active := Some(a.(resolved := true, timer := false));
      if a.admission != PendingWriter {
        Mark(a.id, a.admission == Admitted);
      }
      Emit(Report(a.id, Nothing(a.admission == Admitted), PlainError, a.admission, false));
    }

    method Select(p: D.Pass)
      modifies this
      ensures Abs() == D.Select(old(Abs()), p)
    {
      hide D.AcceptJob, D.AcceptTerminal, D.LearnAdmission, D.ResolveTerminalActive, D.TakeCompletion;
      match p.pick {
        case Stop => stopped := true;
        case Job(id) => AcceptJob(id);
        case Terminal => AcceptTerminal();
        case AdmissionFact(word) => TakeAdmission(p, word);
        case Completion(open, result, err, ready) =>
          if active.Some? {
            TakeCompletion(open, result, err, ready, p.ctxDone);
          }
        case Grace =>
          if active.Some? && active.value.terminal && !active.value.resolved && active.value.timer {
            ResolveTerminalActive();
          }
      }
    }

    method AcceptJob(id: nat)
      modifies this`queue, this`att, this`trace
      ensures Abs() == D.AcceptJob(old(Abs()), id)
    {
      Note(Got(id));
      if terminalRequested {
        Mark(id, false);
        Emit(Unstarted(id, NotAdmitted));
      } else {
        queue := queue + [id];
      }
    }

    method AcceptTerminal()
      modifies this
      ensures Abs() == D.AcceptTerminal(old(Abs()))
    {
      hide D.ResolveQueued, D.ResolveTerminalActive;
      terminalRequested := true;
      Note(Marker);
      ResolveQueued();
      if active.Some? {
        active := Some(active.value.(terminal := true));
        if active.value.admission != PendingWriter {
          ResolveTerminalActive();
        } else {
          active := Some(active.value.(timer := true));
        }
      }
    }

    method LearnAdmission(word: Word)
      requires active.Some?
      modifies this`active, this`att, this`trace
      ensures Abs() == D.LearnAdmission(old(Abs()), word)
    {
      active := Some(active.value.(admission := FromFact(word.Yes()), admissionOpen := false));
      Note(Said(active.value.id, word));
      Mark(active.value.id, word.Yes());
    }

    method TakeAdmission(p: D.Pass, word: Word)
      requires p.pick == AdmissionFact(word)
      modifies this`active, this`att, this`trace
      ensures Abs() == D.Select(old(Abs()), p)
    {
      hide D.LearnAdmission, D.ResolveTerminalActive;
      if AwaitsAdmission(Abs()) && !active.value.resolved {
        ghost var before := Abs();
        LearnAdmission(word);
        KeepsActive(before, word);
        if active.value.terminal {
          ResolveTerminalActive();
        }
      }
    }

    method Finish(result: ClientResult, err: ClientError, late: bool)
      requires active.Some?
      modifies this`active, this`att, this`trace
      ensures Abs() == D.Finish(old(Abs()), result, err, late)
    {
      var a := active.value;
      var answer := result;
      var admission := a.admission;
      active := None;
      if answer.writeAdmitted {
        admission := Admitted;
        Mark(a.id, true);
      } else if admission == Admitted {
        answer := answer.(writeAdmitted := true);
      } else if admission == PendingWriter {
        admission := NotAdmitted;
        Mark(a.id, false);
      }
      Emit(Report(a.id, answer, err, admission, late));
    }

    method TakeCompletion(open: bool, result: ClientResult, err: ClientError, ready: Option<Word>, ctxDone: bool)
      requires active.Some?
      modifies this`active, this`att, this`trace
      ensures Abs() == D.TakeCompletion(old(Abs()), open, result, err, ready, ctxDone)
    {
      hide Abs, D.LearnAdmission, D.Finish, D.Note;
      ResolveAdmission(ready);
      Shows();
      var a := active.value;
      Note(Returned(Return(a.id, if open then Some((result, err)) else None, ctxDone)));
      if open {
        Finish(result, err, a.resolved || ctxDone);
      } else {
        Finish(Nothing(a.admission == Admitted), PlainError, a.resolved || ctxDone);
      }
    }

    /** The admission channel is drained before a completion is consumed. */
    method ResolveAdmission(ready: Option<Word>)
      requires active.Some?
      modifies this`active, this`att, this`trace
      ensures active.Some?
      ensures
        var s := old(Abs());
        Abs() == if AwaitsAdmission(s) && ready.Some? then D.LearnAdmission(s, ready.value) else s
    {
      hide D.LearnAdmission;
      if AwaitsAdmission(Abs()) && ready.Some? {
        ghost var before := Abs();
        LearnAdmission(ready.value);
        KeepsActive(before, ready.value);
      }
    }

    /** What the abstraction shows of the fields. */
    lemma Shows()
      ensures Abs().active == active
    {
    }
  }

  lemma KeepsActive(s: State, word: Word)
    requires s.active.Some?
    ensures D.LearnAdmission(s, word).active.Some?
  {
  }
}
