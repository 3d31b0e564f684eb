/**
  When the dispatcher denies a call without the provider's word for it: exactly when the provider
  closes a channel of the call before it has said anything.
 */
module DispatcherSilence {
  import opened Options
  import opened Admission
  import opened DispatcherModel
  import opened DispatcherProtocol

  function Silent(s: State): set<nat> {
    FactsOf(s.trace).silent
  }

  /** The state in which the select of the pass runs. */
  function Selecting(s: State, p: Pass): State {
    CompleteTerminal(if CanStart(s) then TakeJob(s, p.ctxDone, p.opening) else s)
  }

  predicate Selects(s: State, p: Pass) {
    !s.stopped && (CanStart(s) ==> TakeJob(s, p.ctxDone, p.opening).active.Some?)
  }

  /**
    A channel is closed on a call of which nothing is known: the admission channel, unless the
    completion taken with it says that the call did not cross the writer; or the completion channel,
    unless the admission channel has something to say beside it.
   */
  predicate Closes(s: State, pick: Pick) {
    && s.active.Some? && s.active.value.admission == PendingWriter
    && match pick
       case AdmissionFact(word) => s.active.value.admissionOpen && !s.active.value.resolved && word.Closed?
       case Completion(open, result, _, ready) =>
         if s.active.value.admissionOpen && ready.Some? then ready.value.Closed? && (open ==> result.writeAdmitted)
         else !open
       case _ => false
  }

  predicate Silences(s: State, step: Step) {
    step.Run? && Selects(s, step.pass) && Closes(Selecting(s, step.pass), step.pass.pick)
  }

  /** No step of the run does so. */
  predicate NeverSilenced(s: State, steps: seq<Step>)
    decreases |steps|
  {
    steps != [] ==> !Silences(s, steps[0]) && NeverSilenced(Apply(s, steps[0]), steps[1..])
  }

  ghost predicate AllBacked(s: State) {
    forall id :: Denies(s, id) ==> Backed(s, id)
  }

  /** Before, between and after the steps of the run, every denial is backed by the provider. */
  ghost predicate AlwaysBacked(s: State, steps: seq<Step>)
    decreases |steps|
  {
    AllBacked(s) && (steps != [] ==> AlwaysBacked(Apply(s, steps[0]), steps[1..]))
  }

  // ---------------------------------------------------------------- what does not silence

  lemma NoteQuiet(s: State, d: Deed)
    requires !d.Said? && !d.Returned?
    ensures Silent(Note(s, d)) == Silent(s)
  {
  }

  lemma TakeJobQuiet(s: State, ctxDone: bool, opening: Opening)
    requires s.queue != []
    ensures Silent(TakeJob(s, ctxDone, opening)) == Silent(s)
  {
    hide Silent;
    var id := s.queue[0];
    NoteQuiet(s, Reported(Unstarted(id, Sealed(AdmissionOf(s, id)))));
    NoteQuiet(s, Reported(Unstarted(id, AdmissionOf(s, id))));
    NoteQuiet(s, Reported(Unstarted(id, NotAdmitted)));
    NoteQuiet(s, Invoked(id));
    NoteQuiet(Note(s, Invoked(id)), NoHandle(id));
    NoteQuiet(Note(Note(s, Invoked(id)), NoHandle(id)), Reported(Unstarted(id, NotAdmitted)));
    SameTrace();
  }

  /** Silence is a matter of the trace alone. */
  lemma SameTrace()
    ensures forall s: State, t: State :: s.trace == t.trace ==> Silent(s) == Silent(t)
  {
  }

  lemma CompleteTerminalQuiet(s: State)
    ensures Silent(CompleteTerminal(s)) == Silent(s)
  {
  }

  lemma {:induction false} ResolveQueuedQuiet(s: State)
    ensures Silent(ResolveQueued(s)) == Silent(s)
    decreases |s.queue|
  {
    if s.queue != [] {
      var id := s.queue[0];
      ResolveQueuedQuiet(Emit(Mark(s.(queue := s.queue[1..]), id, false), Unstarted(id, NotAdmitted)));
    }
  }

  lemma ResolveTerminalActiveQuiet(s: State)
    requires s.active.Some?
    ensures Silent(ResolveTerminalActive(s)) == Silent(s)
  {
  }

  lemma AcceptTerminalQuiet(s: State)
    ensures Silent(AcceptTerminal(s)) == Silent(s)
  {
    hide Silent, ResolveQueued, ResolveTerminalActive;
    var s1 := Note(s.(terminalRequested := true), Marker);
    NoteQuiet(s.(terminalRequested := true), Marker);
    ResolveQueuedQuiet(s1);
    SameTrace();
    var s2 := ResolveQueued(s1);
    if s2.active.Some? {
      ResolveTerminalActiveQuiet(s2.(active := Some(s2.active.value.(terminal := true))));
    }
  }

  lemma AcceptJobQuiet(s: State, id: nat)
    ensures Silent(AcceptJob(s, id)) == Silent(s)
  {
    hide Silent;
    NoteQuiet(s, Got(id));
    NoteQuiet(Note(s, Got(id)), Reported(Unstarted(id, NotAdmitted)));
    SameTrace();
  }

  lemma FinishQuiet(s: State, result: ClientResult, err: ClientError, late: bool)
    requires s.active.Some?
    ensures Silent(Finish(s, result, err, late)) == Silent(s)
  {
  }

  // ---------------------------------------------------------------- what does

  lemma LearnSilences(s: State, word: Word)
    requires s.active.Some?
    ensures FactsOf(LearnAdmission(s, word).trace) == Learn(FactsOf(s.trace), s.active.value.id, word)
    ensures LearnAdmission(s, word).active.Some? && LearnAdmission(s, word).active.value.id == s.active.value.id
    ensures LearnAdmission(s, word).active.value.admission == FromFact(word.Yes())
  {
  }

  /** The word heard from the completion channel. */
  function LastWord(open: bool, result: ClientResult): Word {
    if open then Told(result.writeAdmitted) else Closed
  }

  lemma ReturnSilences(s: State, ret: Return)
    ensures Silent(Note(s, Returned(ret))) == Learn(FactsOf(s.trace), ret.id, ret.Word()).silent
  {
  }

  lemma CompletionSilences(
    s: State, open: bool, result: ClientResult, err: ClientError, ready: Option<Word>, ctxDone: bool)
    requires s.active.Some?
    ensures
      var f, id, word := FactsOf(s.trace), s.active.value.id, LastWord(open, result);
      Silent(TakeCompletion(s, open, result, err, ready, ctxDone)) ==
        if AwaitsAdmission(s) && ready.Some? then Learn(Learn(f, id, ready.value), id, word).silent
        else Learn(f, id, word).silent
  {
    hide LearnAdmission, Finish, Learn;
    var s1 := if AwaitsAdmission(s) && ready.Some? then LearnAdmission(s, ready.value) else s;
    if AwaitsAdmission(s) && ready.Some? {
      LearnSilences(s, ready.value);
    }
    var a := s1.active.value;
    var ret := Return(a.id, if open then Some((result, err)) else None, ctxDone);
    var s2 := Note(s1, Returned(ret));
    ReturnSilences(s1, ret);
    var r := if open then result else Nothing(a.admission == Admitted);
    FinishQuiet(s2, r, if open then err else PlainError, a.resolved || ctxDone);
  }

  lemma LearnOnce(f: Facts, id: nat, known: Admission, word: Word)
    requires Knows(f, id, known)
    ensures if known == PendingWriter && word.Closed? then id in Learn(f, id, word).silent
            else Learn(f, id, word).silent <= f.silent
  {
  }

  lemma LearnTwice(f: Facts, id: nat, word: Word, last: Word)
    requires Knows(f, id, PendingWriter)
    ensures
      var silent := Learn(Learn(f, id, word), id, last).silent;
      if word.Closed? && last != Told(false) then id in silent else silent <= f.silent
  {
  }

  lemma LastWordSilences(s: State, p: Pass)
    requires p.pick.Completion? && s.active.Some?
    requires Knows(FactsOf(s.trace), s.active.value.id, s.active.value.admission)
    ensures Closes(s, p.pick) ==> s.active.value.id in Silent(Select(s, p))
    ensures !Closes(s, p.pick) ==> Silent(Select(s, p)) <= Silent(s)
  {
    var f, a, word := FactsOf(s.trace), s.active.value, LastWord(p.pick.open, p.pick.result);
    CompletionSilences(s, p.pick.open, p.pick.result, p.pick.err, p.pick.ready, p.ctxDone);
    if AwaitsAdmission(s) && p.pick.ready.Some? {
      LearnTwice(f, a.id, p.pick.ready.value, word);
    } else {
      LearnOnce(f, a.id, a.admission, word);
    }
    hide TakeCompletion, Learn, Knows, FactsOf;
  }

  lemma SelectSilences(s: State, p: Pass)
    requires s.active.Some? ==> Knows(FactsOf(s.trace), s.active.value.id, s.active.value.admission)
    ensures Closes(s, p.pick) ==> s.active.value.id in Silent(Select(s, p))
    ensures !Closes(s, p.pick) ==> Silent(Select(s, p)) <= Silent(s)
  {
    hide FactsOf, Knows, AcceptJob, AcceptTerminal, LearnAdmission, ResolveTerminalActive;
    match p.pick {
      case Stop =>
      case Job(id) => AcceptJobQuiet(s, id);
      case Terminal => AcceptTerminalQuiet(s);
      case AdmissionFact(word) => AdmissionSilences(s, p);
      case Completion(open, result, err, ready) =>
        if s.active.Some? {
          hide TakeCompletion;
          LastWordSilences(s, p);
        }
      case Grace =>
        if s.active.Some? {
          ResolveTerminalActiveQuiet(s);
        }
    }
  }

  lemma AdmissionSilences(s: State, p: Pass)
    requires p.pick.AdmissionFact?
    requires s.active.Some? ==> Knows(FactsOf(s.trace), s.active.value.id, s.active.value.admission)
    ensures Closes(s, p.pick) ==> s.active.value.id in Silent(Select(s, p))
    ensures !Closes(s, p.pick) ==> Silent(Select(s, p)) <= Silent(s)
  {
    hide LearnAdmission, ResolveTerminalActive;
    if AwaitsAdmission(s) && !s.active.value.resolved {
      LearnSilences(s, p.pick.word);
      ResolveTerminalActiveQuiet(LearnAdmission(s, p.pick.word));
    }
  }

  lemma StepSilences(s: State, step: Step)
    requires Inv(s) && Enabled(s, step)
    ensures if Silences(s, step) then Silent(Apply(s, step)) != {} else Silent(Apply(s, step)) <= Silent(s)
  {
    hide Inv, Silent, TakeJob, CompleteTerminal, Select, Closes;
    if step.Run? && !s.stopped {
      var p := step.pass;
      var t := if CanStart(s) then TakeJob(s, p.ctxDone, p.opening) else s;
      if CanStart(s) {
        TakeJobKeeps(s, p.ctxDone, p.opening);
        TakeJobQuiet(s, p.ctxDone, p.opening);
      }
      CompleteTerminalKeeps(t);
      CompleteTerminalQuiet(t);
      if Selects(s, p) {
        ActiveIsKnown(CompleteTerminal(t));
        SelectSilences(CompleteTerminal(t), p);
      }
    }
    SameTrace();
  }

  lemma ActiveIsKnown(s: State)
    requires Inv(s)
    ensures s.active.Some? ==> Knows(FactsOf(s.trace), s.active.value.id, s.active.value.admission)
  {
    hide Knows, FactsOf, Protocol, Ledger, Sealing;
  }

  // ---------------------------------------------------------------- every run

  lemma {:induction false} BackedUnlessSilenced(s: State, steps: seq<Step>)
    requires Inv(s) && Possible(s, steps) && Silent(s) == {}
    ensures AlwaysBacked(s, steps) <==> NeverSilenced(s, steps)
    decreases |steps|
  {
    DenialsAreProvenWithoutSilence(s);
    hide Inv, Apply, Enabled, Silences, Denies, Backed;
    if steps != [] {
      var t := Apply(s, steps[0]);
      StepKeeps(s, steps[0]);
      StepSilences(s, steps[0]);
      if Silences(s, steps[0]) {
        DenialsAreProvenWithoutSilence(t);
        assert !AllBacked(t);
      } else {
        BackedUnlessSilenced(t, steps[1..]);
      }
    }
  }

  /**
    In every run: at no moment is an attempt recorded or reported as not admitted without the
    provider's word for it, exactly if no step closes a channel on a call of which nothing is known.
   */
  lemma DenialsAreAlwaysBacked(steps: seq<Step>)
    requires Possible(IDLE, steps)
    ensures AlwaysBacked(IDLE, steps) <==> NeverSilenced(IDLE, steps)
  {
    BackedUnlessSilenced(IDLE, steps);
  }

  // ---------------------------------------------------------------- the failing inputs

  /** The job is received, the provider is invoked, and its completion channel closes without a completion. */
  function ClosedCompletion(): seq<Step> {
    [Run(Pass(false, Handle, Job(0))), Run(Pass(false, Handle, Completion(false, Nothing(false), NoError, None)))]
  }

  /** Nothing is known of the call, and it is reported as not admitted. */
  lemma ClosedCompletionIsDenied()
    ensures
      var s := RunOf(IDLE, ClosedCompletion());
      && Possible(IDLE, ClosedCompletion())
      && s.trace.Then? && s.trace.deed == Reported(Report(0, Nothing(false), PlainError, NotAdmitted, false))
      && Denies(s, 0) && !Backed(s, 0)
  {
    var p, q := ClosedCompletion()[0], ClosedCompletion()[1];
    var s1 := Apply(IDLE, p);
    var s2 := Apply(s1, q);
    assert s1.queue == [0] && s1.trace == Then(Start, Got(0)) && s1.active.None?;
    assert ClosedCompletion()[1..] == [q] && [q][1..] == [];
    assert RunOf(IDLE, ClosedCompletion()) == RunOf(s1, [q]) == s2;
    assert Possible(s1, [q]);
  }

  /**
    The admission channel closes without a value and the terminal comes; afterwards the completion
    says that the call crossed the writer.
   */
  function ClosedAdmission(): seq<Step> {
    [Run(Pass(false, Handle, Job(0))), Run(Pass(false, Handle, AdmissionFact(Closed))),
     Run(Pass(false, Handle, Terminal)),
     Run(Pass(false, Handle, Completion(true, Nothing(true), NoError, None)))]
  }

  /** A delivered call was reported, on time, as not admitted, though the provider never contradicted itself. */
  lemma ClosedAdmissionIsDenied()
    ensures
      var s := RunOf(IDLE, ClosedAdmission());
      var f := FactsOf(s.trace);
      && Possible(IDLE, ClosedAdmission())
      && 0 in f.denied && 0 in f.crossed && 0 !in f.refused && !Backed(s, 0)
  {
    var steps := ClosedAdmission();
    RunOfFour(IDLE, steps);
    var s1 := Apply(IDLE, steps[0]);
    assert s1 == IDLE.(queue := [0], trace := Then(Start, Got(0)));
    AdmissionCloses(s1, steps[1]);
    TerminalDenies(Apply(s1, steps[1]), steps[2]);
    CompletionAdmits(Apply(Apply(s1, steps[1]), steps[2]), steps[3]);
    ClosedAdmissionFacts();
    hide Apply, FactsOf, RunOf, Possible;
  }

  function ClosedAdmissionTrace(): Trace {
    var t1 := Then(Then(Then(Start, Got(0)), Invoked(0)), Said(0, Closed));
    var t2 := Then(Then(t1, Marker), Reported(Unstarted(0, NotAdmitted)));
    Then(Then(Then(t2, Reported(TerminalComplete)), Returned(Return(0, Some((Nothing(true), NoError)), false))),
         Reported(Report(0, Nothing(true), NoError, Admitted, true)))
  }

  lemma ClosedAdmissionFacts()
    ensures
      var f := FactsOf(ClosedAdmissionTrace());
      0 in f.invoked && 0 in f.denied && 0 in f.crossed && 0 !in f.refused
  {
  }

  lemma AdmissionCloses(s: State, step: Step)
    requires s == IDLE.(queue := [0], trace := Then(Start, Got(0))) && step == ClosedAdmission()[1]
    ensures
      var t := Apply(s, step);
      && t.active == Some(Active(0, true, false, NotAdmitted, false, false, false))
      && t.queue == [] && !t.terminalRequested && !t.completeSent && !t.stopped
      && t.trace == Then(Then(s.trace, Invoked(0)), Said(0, Closed))
  {
  }

  lemma TerminalDenies(s: State, step: Step)
    requires s.active == Some(Active(0, true, false, NotAdmitted, false, false, false)) && step == ClosedAdmission()[2]
    requires s.queue == [] && !s.terminalRequested && !s.completeSent && !s.stopped
    ensures
      var t := Apply(s, step);
      && t.active == Some(Active(0, true, false, NotAdmitted, true, true, false))
      && t.queue == [] && t.terminalRequested && !t.completeSent && !t.stopped
      && t.trace == Then(Then(s.trace, Marker), Reported(Unstarted(0, NotAdmitted)))
  {
    assert ResolveQueued(Note(s.(terminalRequested := true), Marker)) == Note(s.(terminalRequested := true), Marker);
  }

  lemma CompletionAdmits(s: State, step: Step)
    requires s.active == Some(Active(0, true, false, NotAdmitted, true, true, false)) && step == ClosedAdmission()[3]
    requires s.queue == [] && s.terminalRequested && !s.completeSent && !s.stopped
    ensures
      var t := Apply(s, step);
      t.trace == Then(Then(Then(s.trace, Reported(TerminalComplete)),
                           Returned(Return(0, Some((Nothing(true), NoError)), false))),
                      Reported(Report(0, Nothing(true), NoError, Admitted, true)))
  {
  }

  lemma RunOfFour(s: State, steps: seq<Step>)
    requires |steps| == 4 && (forall k :: 1 <= k < 4 ==> steps[k].Run? && !steps[k].pass.pick.Job?)
    requires Enabled(s, steps[0])
    ensures RunOf(s, steps) == Apply(Apply(Apply(Apply(s, steps[0]), steps[1]), steps[2]), steps[3])
    ensures Possible(s, steps)
  {
    hide Apply, Submittable;
    var s1 := Apply(s, steps[0]);
    var s2 := Apply(s1, steps[1]);
    var s3 := Apply(s2, steps[2]);
    var s4 := Apply(s3, steps[3]);
    assert RunOf(s4, []) == s4 && Possible(s4, []);
    RunOfNext(s3, steps[3..], []);
    RunOfNext(s2, steps[2..], steps[3..]);
    RunOfNext(s1, steps[1..], steps[2..]);
    RunOfNext(s, steps, steps[1..]);
  }

  lemma RunOfNext(s: State, steps: seq<Step>, rest: seq<Step>)
    requires steps != [] && steps[1..] == rest && Enabled(s, steps[0])
    ensures RunOf(s, steps) == RunOf(Apply(s, steps[0]), rest)
    ensures Possible(s, steps) <==> Possible(Apply(s, steps[0]), rest)
  {
  }
}
