/**
  What the dispatcher never takes back: an attempt sealed as not admitted stays so, a denial stays
  a denial, a job received stays received; and only the pick of a job receives one.
 */
module DispatcherSeals {
  import opened Options
  import opened Admission
  import opened DispatcherModel
  import opened P = DispatcherProtocol

  function Denied(s: State): set<nat> {
    FactsOf(s.trace).denied
  }

  function Received(s: State): set<nat> {
    FactsOf(s.trace).got
  }

  /** The reports a trace holds. */
  function ReportsOf(t: Trace): set<Report> {
    if t.Start? then {} else ReportsOf(t.past) + (if t.deed.Reported? then {t.deed.report} else {})
  }

  function At(s: State, id: nat): Admission {
    P.Lookup(s.att, id)
  }

  /** From `s` to `t` nothing was taken back, and no job but those in `news` was received. */
  ghost predicate Kept(s: State, t: State, news: set<nat>) {
    && (forall id :: At(s, id) == NotAdmitted ==> At(t, id) == NotAdmitted)
    && Denied(s) <= Denied(t)
    && Received(s) <= Received(t) <= Received(s) + news
    && ReportsOf(s.trace) <= ReportsOf(t.trace)
  }

  lemma KeptSelf(s: State, t: State)
    requires t.att == s.att && t.trace == s.trace
    ensures Kept(s, t, {})
  {
  }

  lemma KeptTwice(s: State, t: State, u: State, one: set<nat>, two: set<nat>)
    requires Kept(s, t, one) && Kept(t, u, two)
    ensures Kept(s, u, one + two)
  {
  }

  lemma KeptMore(s: State, t: State, one: set<nat>, two: set<nat>)
    requires Kept(s, t, one) && one <= two
    ensures Kept(s, t, two)
  {
  }

  lemma NoteKept(s: State, d: Deed)
    requires !d.Got?
    ensures Kept(s, Note(s, d), {})
  {
  }

  lemma MarkKept(s: State, id: nat, admitted: bool)
    ensures Kept(s, Mark(s, id, admitted), {})
  {
  }

  lemma SealKept(s: State, id: nat)
    ensures Kept(s, Seal(s, id), {})
  {
  }

  /** Two operations in a row, fields aside. */
  lemma KeptOver(s: State, t: State, u: State)
    requires Kept(s, t, {}) && Kept(t, u, {})
    ensures Kept(s, u, {})
  {
  }

  lemma EmitAfterMark(s: State, id: nat, r: Report)
    ensures Kept(s, Emit(Mark(s, id, false), r), {})
  {
    hide Kept;
    MarkKept(s, id, false);
    NoteKept(Mark(s, id, false), Reported(r));
    KeptOver(s, Mark(s, id, false), Emit(Mark(s, id, false), r));
  }

  lemma SameKept(s: State, t: State, u: State)
    requires Kept(t, u, {}) && t.att == s.att && t.trace == s.trace
    ensures Kept(s, u, {})
  {
  }

  lemma SameEnd(s: State, t: State, u: State, news: set<nat>)
    requires Kept(s, t, news) && u.att == t.att && u.trace == t.trace
    ensures Kept(s, u, news)
  {
  }

  lemma StartJobKept(s: State, id: nat, opening: Opening)
    ensures Kept(s, StartJob(s, id, opening), {})
  {
    hide Kept;
    if AdmissionOf(s, id) != Pending {
      NoteKept(s, Reported(Unstarted(id, AdmissionOf(s, id))));
    } else {
      var s1 := s.(att := s.att[id := PendingWriter]);
      var s2 := Note(s1, Invoked(id));
      BeginKept(s, id);
      NoteKept(s1, Invoked(id));
      KeptOver(s, s1, s2);
      match opening {
        case Handle => SameEnd(s, s2, StartJob(s, id, opening), {});
        case Sync => SameEnd(s, s2, StartJob(s, id, opening), {});
        case NilHandle =>
          var s3 := Note(s2, NoHandle(id));
          NoteKept(s2, NoHandle(id));
          EmitAfterMark(s3, id, Unstarted(id, NotAdmitted));
          KeptOver(s, s2, s3);
          KeptOver(s, s3, Emit(Mark(s3, id, false), Unstarted(id, NotAdmitted)));
        case NoCapability =>
          var s3 := Emit(s1, Unstarted(id, NotAdmitted));
          NoteKept(s1, Reported(Unstarted(id, NotAdmitted)));
          MarkKept(s3, id, false);
          KeptOver(s, s1, s3);
          KeptOver(s, s3, Mark(s3, id, false));
      }
    }
  }

  lemma BeginKept(s: State, id: nat)
    requires AdmissionOf(s, id) == Pending
    ensures Kept(s, s.(att := s.att[id := PendingWriter]), {})
  {
  }

  lemma TakeJobKept(s: State, ctxDone: bool, opening: Opening)
    requires s.queue != []
    ensures Kept(s, TakeJob(s, ctxDone, opening), {})
  {
    hide Kept, StartJob;
    var id := s.queue[0];
    var s1 := s.(queue := s.queue[1..]);
    if ctxDone {
      var s2 := Seal(s1, id);
      SealKept(s1, id);
      NoteKept(s2, Reported(Unstarted(id, AdmissionOf(s2, id))));
      KeptOver(s1, s2, TakeJob(s, ctxDone, opening));
    } else {
      StartJobKept(s1, id, opening);
    }
    SameKept(s, s1, TakeJob(s, ctxDone, opening));
  }

  lemma CompleteTerminalKept(s: State)
    ensures Kept(s, CompleteTerminal(s), {})
  {
    hide Kept;
    NoteKept(s, Reported(TerminalComplete));
    SameEnd(s, Emit(s, TerminalComplete), Emit(s, TerminalComplete).(completeSent := true), {});
    KeptSelf(s, s);
  }

  lemma {:induction false} ResolveQueuedKept(s: State)
    ensures Kept(s, ResolveQueued(s), {})
    decreases |s.queue|
  {
    hide Kept;
    if s.queue == [] {
      KeptSelf(s, s);
    } else {
      var id := s.queue[0];
      var s1 := s.(queue := s.queue[1..]);
      var s2 := Emit(Mark(s1, id, false), Unstarted(id, NotAdmitted));
      EmitAfterMark(s1, id, Unstarted(id, NotAdmitted));
      SameKept(s, s1, s2);
      ResolveQueuedKept(s2);
      KeptOver(s, s2, ResolveQueued(s2));
    }
  }

  lemma ResolveTerminalActiveKept(s: State)
    requires s.active.Some?
    ensures Kept(s, ResolveTerminalActive(s), {})
  {
    hide Kept;
    var a := s.active.value;
    KeptSelf(s, s);
    var s1 := s.(active := Some(a.(resolved := true, timer := false)));
    var s2 := if a.admission != PendingWriter then Mark(s1, a.id, a.admission == Admitted) else s1;
    var r := Report(a.id, Nothing(a.admission == Admitted), PlainError, a.admission, false);
    KeptSelf(s1, s1);
    MarkKept(s1, a.id, a.admission == Admitted);
    NoteKept(s2, Reported(r));
    KeptOver(s1, s2, Emit(s2, r));
    SameKept(s, s1, Emit(s2, r));
  }

  lemma AcceptJobKept(s: State, id: nat)
    ensures Kept(s, AcceptJob(s, id), {id})
  {
    hide Kept;
    var s1 := Note(s, Got(id));
    ReceiveKept(s, id);
    if s.terminalRequested {
      EmitAfterMark(s1, id, Unstarted(id, NotAdmitted));
      KeptTwice(s, s1, AcceptJob(s, id), {id}, {});
      assert {id} + {} == {id};
    } else {
      SameEnd(s, s1, AcceptJob(s, id), {id});
    }
  }

  lemma ReceiveKept(s: State, id: nat)
    ensures Kept(s, Note(s, Got(id)), {id})
  {
  }

  lemma AcceptTerminalKept(s: State)
    ensures Kept(s, AcceptTerminal(s), {})
  {
    hide Kept, ResolveQueued, ResolveTerminalActive;
    var s0 := s.(terminalRequested := true);
    var s1 := Note(s0, Marker);
    var s2 := ResolveQueued(s1);
    NoteKept(s0, Marker);
    ResolveQueuedKept(s1);
    KeptOver(s0, s1, s2);
    SameKept(s, s0, s2);
    if s2.active.Some? {
      var a := s2.active.value.(terminal := true);
      var s3 := s2.(active := Some(a));
      SameEnd(s, s2, s3, {});
      SameEnd(s, s2, s2.(active := Some(a.(timer := true))), {});
      if a.admission != PendingWriter {
        ResolveTerminalActiveKept(s3);
        KeptOver(s, s3, ResolveTerminalActive(s3));
      }
    }
  }

  lemma LearnKept(s: State, word: Word)
    requires s.active.Some?
    ensures Kept(s, LearnAdmission(s, word), {})
  {
    hide Kept;
    var a := s.active.value;
    var s1 := s.(active := Some(a.(admission := FromFact(word.Yes()), admissionOpen := false)));
    NoteKept(s1, Said(a.id, word));
    MarkKept(Note(s1, Said(a.id, word)), a.id, word.Yes());
    KeptOver(s1, Note(s1, Said(a.id, word)), LearnAdmission(s, word));
    SameKept(s, s1, LearnAdmission(s, word));
  }

  lemma FinishKept(s: State, result: ClientResult, err: ClientError, late: bool)
    requires s.active.Some?
    ensures Kept(s, Finish(s, result, err, late), {})
  {
    hide Kept;
    var a := s.active.value;
    var admission :=
      if result.writeAdmitted then Admitted else if a.admission == PendingWriter then NotAdmitted else a.admission;
    var s1 := s.(active := None);
    var s2 := if result.writeAdmitted || a.admission == PendingWriter then Mark(s1, a.id, result.writeAdmitted) else s1;
    KeptSelf(s1, s1);
    MarkKept(s1, a.id, result.writeAdmitted);
    NoteKept(s2, Reported(Report(a.id, result.(writeAdmitted := admission == Admitted), err, admission, late)));
    KeptOver(s1, s2, Finish(s, result, err, late));
    SameKept(s, s1, Finish(s, result, err, late));
  }

  function Fresh(p: Pass): set<nat> {
    if p.pick.Job? then {p.pick.id} else {}
  }

  lemma SelectKept(s: State, p: Pass)
    ensures Kept(s, Select(s, p), Fresh(p))
  {
    hide Kept, AcceptJob, AcceptTerminal, LearnAdmission, ResolveTerminalActive, Finish;
    KeptSelf(s, s);
    match p.pick {
      case Stop => SameEnd(s, s, Select(s, p), {});
      case Job(id) => AcceptJobKept(s, id);
      case Terminal => AcceptTerminalKept(s);
      case AdmissionFact(word) =>
        if AwaitsAdmission(s) && !s.active.value.resolved {
          LearnKept(s, word);
          var s1 := LearnAdmission(s, word);
          Learned(s, word);
          if s1.active.value.terminal {
            ResolveTerminalActiveKept(s1);
            KeptOver(s, s1, ResolveTerminalActive(s1));
          }
        }
      case Completion(open, result, err, ready) =>
        if s.active.Some? {
          CompletionKept(s, open, result, err, ready, p.ctxDone);
        }
      case Grace =>
        if s.active.Some? {
          ResolveTerminalActiveKept(s);
        }
    }
  }

  lemma CompletionKept(
    s: State, open: bool, result: ClientResult, err: ClientError, ready: Option<Word>, ctxDone: bool)
    requires s.active.Some?
    ensures Kept(s, TakeCompletion(s, open, result, err, ready, ctxDone), {})
  {
    hide Kept, LearnAdmission, Finish;
    KeptSelf(s, s);
    var s1 := if AwaitsAdmission(s) && ready.Some? then LearnAdmission(s, ready.value) else s;
    if AwaitsAdmission(s) && ready.Some? {
      LearnKept(s, ready.value);
      Learned(s, ready.value);
    }
    var r := if open then result else Nothing(s1.active.value.admission == Admitted);
    var e := if open then err else PlainError;
    var d := Returned(Return(s1.active.value.id, if open then Some((result, err)) else None, ctxDone));
    var s2 := Note(s1, d);
    NoteKept(s1, d);
    KeptOver(s, s1, s2);
    FinishKept(s2, r, e, s1.active.value.resolved || ctxDone);
    KeptOver(s, s2, Finish(s2, r, e, s1.active.value.resolved || ctxDone));
  }

  /** One pass of the loop. */
  lemma TripKept(s: State, p: Pass)
    ensures Kept(s, Trip(s, p), Fresh(p))
  {
    hide Kept, TakeJob, CompleteTerminal, Select;
    KeptSelf(s, s);
    KeptMore(s, s, {}, Fresh(p));
    if !s.stopped {
      var s1 := if CanStart(s) then TakeJob(s, p.ctxDone, p.opening) else s;
      if CanStart(s) {
        TakeJobKept(s, p.ctxDone, p.opening);
        KeptMore(s, s1, {}, Fresh(p));
      }
      var s2 := CompleteTerminal(s1);
      CompleteTerminalKept(s1);
      KeptOver(s, s1, s2);
      SelectKept(s2, p);
      KeptTwice(s, s2, Select(s2, p), {}, Fresh(p));
      assert {} + Fresh(p) == Fresh(p);
    }
  }
}
