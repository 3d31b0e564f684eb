/**
  What the dispatcher does not put off: an idle dispatcher calls the provider for the job that waits
  first unless there is a reason not to, and what the provider says of a call is heard.
 */
module DispatcherService {
  import opened Options
  import opened Admission
  import opened DispatcherModel
  import opened P = DispatcherProtocol

  function InvokedIn(s: State): set<nat> {
    FactsOf(s.trace).invoked
  }

  function ReportedIn(s: State): set<nat> {
    FactsOf(s.trace).reported
  }

  /** No job is called, and no report taken back. */
  predicate Quiet(s: State, t: State) {
    InvokedIn(t) == InvokedIn(s) && ReportedIn(s) <= ReportedIn(t)
  }

  lemma NoteQuiet(s: State, d: Deed)
    requires !d.Invoked?
    ensures Quiet(s, Note(s, d))
  {
  }

  lemma QuietTwice(s: State, t: State, u: State)
    requires Quiet(s, t) && Quiet(t, u)
    ensures Quiet(s, u)
  {
  }

  /** Only the trace matters. */
  lemma SameTrace(s: State, t: State)
    requires t.trace == s.trace
    ensures Quiet(s, t)
  {
  }

  lemma EmitQuiet(s: State, t: State, r: Report)
    requires t.trace == s.trace
    ensures Quiet(s, Emit(t, r))
  {
    NoteQuiet(t, Reported(r));
    SameTrace(s, t);
    QuietTwice(s, t, Emit(t, r));
  }

  lemma {:induction false} ResolveQueuedQuiet(s: State)
    ensures Quiet(s, ResolveQueued(s))
    decreases |s.queue|
  {
    if s.queue == [] {
      SameTrace(s, s);
    } else {
      var id := s.queue[0];
      var t := Mark(s.(queue := s.queue[1..]), id, false);
      var u := Emit(t, Unstarted(id, NotAdmitted));
      EmitQuiet(s, t, Unstarted(id, NotAdmitted));
      ResolveQueuedQuiet(u);
      hide Quiet;
      QuietTwice(s, u, ResolveQueued(u));
    }
  }

  lemma ResolveActiveQuiet(s: State)
    requires s.active.Some?
    ensures Quiet(s, ResolveTerminalActive(s))
  {
    var a := s.active.value;
    SameTrace(s, s);
    if !a.resolved {
      var s1 := s.(active := Some(a.(resolved := true, timer := false)));
      var s2 := if a.admission != PendingWriter then Mark(s1, a.id, a.admission == Admitted) else s1;
      EmitQuiet(s, s2, Report(a.id, Nothing(a.admission == Admitted), PlainError, a.admission, false));
    }
    hide Quiet, Emit, Mark;
  }

  lemma LearnQuiet(s: State, word: Word)
    requires s.active.Some?
    ensures Quiet(s, LearnAdmission(s, word))
  {
    var a := s.active.value;
    var s1 := s.(active := Some(a.(admission := FromFact(word.Yes()), admissionOpen := false)));
    NoteQuiet(s1, Said(a.id, word));
    SameTrace(s, s1);
    SameTrace(Note(s1, Said(a.id, word)), LearnAdmission(s, word));
    hide Quiet;
    QuietTwice(s, s1, Note(s1, Said(a.id, word)));
    QuietTwice(s, Note(s1, Said(a.id, word)), LearnAdmission(s, word));
  }

  lemma AcceptJobQuiet(s: State, id: nat)
    ensures Quiet(s, AcceptJob(s, id))
  {
    var s1 := Note(s, Got(id));
    NoteQuiet(s, Got(id));
    SameTrace(s1, s1.(queue := s1.queue + [id]));
    EmitQuiet(s1, Mark(s1, id, false), Unstarted(id, NotAdmitted));
    hide Quiet, Note, Emit, Mark;
    QuietTwice(s, s1, AcceptJob(s, id));
  }

  lemma AcceptTerminalQuiet(s: State)
    ensures Quiet(s, AcceptTerminal(s))
  {
    var s0 := s.(terminalRequested := true);
    var s1 := Note(s0, Marker);
    var s2 := ResolveQueued(s1);
    SameTrace(s, s0);
    NoteQuiet(s0, Marker);
    ResolveQueuedQuiet(s1);
    hide ResolveQueued, Note;
    QuietTwice(s, s0, s1);
    QuietTwice(s, s1, s2);
    if s2.active.Some? {
      var a := s2.active.value.(terminal := true);
      var s3, s4 := s2.(active := Some(a)), s2.(active := Some(a.(timer := true)));
      SameTrace(s2, s3);
      SameTrace(s2, s4);
      ResolveActiveQuiet(s3);
      hide Quiet, ResolveTerminalActive;
      QuietTwice(s, s2, s3);
      QuietTwice(s, s2, s4);
      QuietTwice(s, s3, ResolveTerminalActive(s3));
    }
  }

  lemma FinishQuiet(s: State, result: ClientResult, err: ClientError, late: bool)
    requires s.active.Some?
    ensures Quiet(s, Finish(s, result, err, late)) && s.active.value.id in ReportedIn(Finish(s, result, err, late))
    ensures Finish(s, result, err, late).active.None?
  {
    var a := s.active.value;
    var s1 := s.(active := None);
    var s2 := if result.writeAdmitted || a.admission == PendingWriter then Mark(s1, a.id, result.writeAdmitted) else s1;
    var admission :=
      if result.writeAdmitted then Admitted
      else if a.admission == PendingWriter then NotAdmitted
      else a.admission;
    var r := Report(a.id, result.(writeAdmitted := admission == Admitted), err, admission, late);
    assert s2.trace == s.trace && s2.active.None?;
    EmitQuiet(s, s2, r);
    EmitReports(s2, r);
    hide Quiet, Emit, Mark, FactsOf;
  }

  lemma EmitReports(s: State, r: Report)
    requires r.Report?
    ensures r.id in ReportedIn(Emit(s, r)) && Emit(s, r).active == s.active
  {
  }

  lemma NoteActive(s: State, d: Deed)
    ensures Note(s, d).active == s.active
  {
  }

  lemma ReadyQuiet(s: State, ready: Option<Word>)
    requires s.active.Some?
    ensures
      var t := if AwaitsAdmission(s) && ready.Some? then LearnAdmission(s, ready.value) else s;
      Quiet(s, t) && t.active.Some? && t.active.value.id == s.active.value.id
  {
    SameTrace(s, s);
    hide Quiet;
    if AwaitsAdmission(s) && ready.Some? {
      LearnQuiet(s, ready.value);
      assert LearnAdmission(s, ready.value).active.Some?;
    }
  }

  lemma EndOfCall(s: State, ret: Return, result: ClientResult, err: ClientError, late: bool)
    requires s.active.Some?
    ensures
      var t := Finish(Note(s, Returned(ret)), result, err, late);
      Quiet(s, t) && s.active.value.id in ReportedIn(t) && t.active.None?
  {
    var u := Note(s, Returned(ret));
    NoteQuiet(s, Returned(ret));
    NoteActive(s, Returned(ret));
    hide Quiet, Note, FactsOf;
    FinishQuiet(u, result, err, late);
    hide Finish;
    QuietTwice(s, u, Finish(u, result, err, late));
  }

  /** The end of a call: it is over, and reported. */
  lemma CompletionQuiet(
    s: State, open: bool, result: ClientResult, err: ClientError, ready: Option<Word>, ctxDone: bool)
    requires s.active.Some?
    ensures
      var t := TakeCompletion(s, open, result, err, ready, ctxDone);
      Quiet(s, t) && s.active.value.id in ReportedIn(t) && t.active.None?
  {
    var s1 := if AwaitsAdmission(s) && ready.Some? then LearnAdmission(s, ready.value) else s;
    ReadyQuiet(s, ready);
    hide Quiet, LearnAdmission, FactsOf, AwaitsAdmission, Finish, Note;
    var a := s1.active.value;
    var r := if open then result else Nothing(a.admission == Admitted);
    var ret := Return(a.id, if open then Some((result, err)) else None, ctxDone);
    var e := if open then err else PlainError;
    EndOfCall(s1, ret, r, e, a.resolved || ctxDone);
    var t := Finish(Note(s1, Returned(ret)), r, e, a.resolved || ctxDone);
    assert TakeCompletion(s, open, result, err, ready, ctxDone) == t;
    hide TakeCompletion;
    QuietTwice(s, s1, t);
  }

  lemma SelectQuiet(s: State, p: Pass)
    ensures Quiet(s, Select(s, p))
  {
    SameTrace(s, s);
    match p.pick {
      case Stop => SameTrace(s, s.(stopped := true));
      case Job(id) => AcceptJobQuiet(s, id);
      case Terminal => AcceptTerminalQuiet(s);
      case AdmissionFact(word) =>
        if AwaitsAdmission(s) && !s.active.value.resolved {
          var s1 := LearnAdmission(s, word);
          LearnQuiet(s, word);
          ResolveActiveQuiet(s1);
          hide Quiet, LearnAdmission, ResolveTerminalActive;
          assert s1.active.Some? ==> Quiet(s1, ResolveTerminalActive(s1));
          QuietTwice(s, s1, ResolveTerminalActive(s1));
        }
      case Completion(open, result, err, ready) =>
        if s.active.Some? {
          CompletionQuiet(s, open, result, err, ready, p.ctxDone);
        }
      case Grace =>
        if s.active.Some? {
          ResolveActiveQuiet(s);
        }
    }
    hide Quiet, AcceptJob, AcceptTerminal, LearnAdmission, TakeCompletion, ResolveTerminalActive;
  }

  lemma CompleteQuiet(s: State)
    ensures Quiet(s, CompleteTerminal(s)) && CompleteTerminal(s).active == s.active
  {
    SameTrace(s, s);
    EmitQuiet(s, s, TerminalComplete);
    SameTrace(Emit(s, TerminalComplete), Emit(s, TerminalComplete).(completeSent := true));
    QuietTwice(s, Emit(s, TerminalComplete), Emit(s, TerminalComplete).(completeSent := true));
    hide Quiet, Emit;
  }

  // ---------------------------------------------------------------- the job that waits first

  /** The attempt is still open, the job's context is not done, and the session can be steered. */
  predicate Startable(s: State, p: Pass, id: nat) {
    !p.ctxDone && Lookup(s.att, id) == Pending && !p.opening.NoCapability?
  }

  lemma StartJobInvokes(s: State, id: nat, p: Pass)
    requires !p.ctxDone && id !in InvokedIn(s)
    ensures
      var t := StartJob(s, id, p.opening);
      && (id in InvokedIn(t) <==> Startable(s, p, id))
      && (id in InvokedIn(t) || id in ReportedIn(t))
  {
    assert AdmissionOf(s, id) == Lookup(s.att, id);
    if AdmissionOf(s, id) == Pending {
      var s1 := s.(att := s.att[id := PendingWriter]);
      match p.opening {
        case Handle =>
        case Sync =>
        case NilHandle =>
          var s0 := Note(s1, Invoked(id));
          var s2 := Note(s0, NoHandle(id));
          assert id in InvokedIn(s0);
          NoteQuiet(s0, NoHandle(id));
          EmitQuiet(s2, Mark(s2, id, false), Unstarted(id, NotAdmitted));
        case NoCapability =>
          var s2 := Emit(s1, Unstarted(id, NotAdmitted));
          SameTrace(s, s1);
          NoteQuiet(s1, Reported(Unstarted(id, NotAdmitted)));
          SameTrace(s2, Mark(s2, id, false));
          assert id in ReportedIn(s2) && id !in InvokedIn(s2);
      }
      hide FactsOf;
    } else {
      EmitQuiet(s, s, Unstarted(id, AdmissionOf(s, id)));
    }
  }

  lemma TakeJobInvokes(s: State, p: Pass)
    requires s.queue != [] && s.active.None? && s.queue[0] !in InvokedIn(s)
    ensures
      var t, id := TakeJob(s, p.ctxDone, p.opening), s.queue[0];
      && (id in InvokedIn(t) <==> Startable(s, p, id))
      && (id in InvokedIn(t) || id in ReportedIn(t))
  {
    var id := s.queue[0];
    var s1 := s.(queue := s.queue[1..]);
    if p.ctxDone {
      var s2 := Seal(s1, id);
      EmitQuiet(s1, s2, Unstarted(id, AdmissionOf(s2, id)));
    } else {
      StartJobInvokes(s1, id, p);
    }
    hide StartJob;
  }

  /**
    At any moment of any run: the pass of an idle dispatcher calls the provider for the job that waits
    first exactly if the job's context is not done, its caller did not give it up, and the session can
    be steered; otherwise it reports the job.
   */
  lemma WaitingJobIsStarted(steps: seq<Step>, p: Pass)
    requires Possible(IDLE, steps)
    ensures
      var s := RunOf(IDLE, steps);
      var g := FactsOf(Trip(s, p).trace);
      s.queue != [] && s.active.None? && !s.terminalRequested && !s.stopped ==>
        && s.queue[0] !in FactsOf(s.trace).invoked
        && (s.queue[0] in g.invoked <==> Startable(s, p, s.queue[0]))
        && (s.queue[0] !in g.invoked ==> s.queue[0] in g.reported)
  {
    var s := RunOf(IDLE, steps);
    RunKeeps(IDLE, steps);
    if s.queue != [] && s.active.None? && !s.terminalRequested && !s.stopped {
      var id := s.queue[0];
      assert id !in InvokedIn(s) by {
        hide Flags, Sealing, Protocol;
      }
      StartOfPass(s, p, id);
    }
    hide Trip, FactsOf, RunOf, Startable;
  }

  lemma StartOfPass(s: State, p: Pass, id: nat)
    requires s.queue != [] && s.active.None? && !s.terminalRequested && !s.stopped
    requires id == s.queue[0] && id !in InvokedIn(s)
    ensures
      var t := Trip(s, p);
      && (id in InvokedIn(t) <==> Startable(s, p, id))
      && (id !in InvokedIn(t) ==> id in ReportedIn(t))
  {
    var s1 := TakeJob(s, p.ctxDone, p.opening);
    TakeJobInvokes(s, p);
    CompleteQuiet(s1);
    SelectQuiet(CompleteTerminal(s1), p);
    QuietTwice(s1, CompleteTerminal(s1), Select(CompleteTerminal(s1), p));
    hide TakeJob, CompleteTerminal, Select, Startable;
  }

  // ---------------------------------------------------------------- the provider's words

  /**
    The provider's word on a call that is not answered yet is heard, and the end of a call is the end
    of it: the call is reported, and the next one can start.
   */
  lemma ProviderIsHeard(s: State, p: Pass)
    requires s.active.Some? && !s.stopped
    ensures
      var t, a := Trip(s, p), s.active.value;
      && (p.pick.Completion? ==> t.active.None? && a.id in FactsOf(t.trace).reported)
      && (p.pick.AdmissionFact? && a.admission == PendingWriter && a.admissionOpen && !a.resolved ==>
            && t.active.Some? && t.active.value.id == a.id && !t.active.value.admissionOpen
            && t.active.value.admission == if p.pick.word.Yes() then Admitted else NotAdmitted)
      && (p.pick.AdmissionFact? && a.admission == PendingWriter && a.admissionOpen && !a.resolved && a.terminal ==>
            a.id in FactsOf(t.trace).reported)
  {
    var s1 := CompleteTerminal(s);
    var a := s.active.value;
    CompleteQuiet(s);
    assert Trip(s, p) == Select(s1, p);
    match p.pick {
      case Completion(open, result, err, ready) =>
        CompletionQuiet(s1, open, result, err, ready, p.ctxDone);
        hide TakeCompletion, CompleteTerminal, FactsOf;
      case AdmissionFact(word) =>
        if AwaitsAdmission(s1) && !a.resolved {
          var s2 := LearnAdmission(s1, word);
          assert s2.active == Some(a.(admission := FromFact(word.Yes()), admissionOpen := false));
          hide LearnAdmission, CompleteTerminal;
          if a.terminal {
            AnsweredAtOnce(s2);
            hide ResolveTerminalActive;
          }
        }
      case _ =>
    }
  }

  lemma AnsweredAtOnce(s: State)
    requires s.active.Some? && !s.active.value.resolved
    ensures
      var t, a := ResolveTerminalActive(s), s.active.value;
      a.id in ReportedIn(t) && t.active == Some(a.(resolved := true, timer := false))
  {
  }
}
