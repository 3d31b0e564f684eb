/**
  What the dispatcher promises over every run: any jobs, any provider, any caller sealing any
  attempt at any moment between two passes of the loop.
 */
module DispatcherProtocol {
  import opened Options
  import opened Admission
  import opened DispatcherModel

  /**
    What a trace establishes: jobs received, StartSteer calls made, provider calls that are over;
    calls of which the provider said that they crossed its writer, or that they did not, and calls
    one of whose channels was closed before it said either and which it has not refused since; jobs
    reported, reported not admitted, reported twice; the terminal marker, its completion; the return
    of a call that is yet to be reported.
   */
  datatype Facts = Facts(
    got: set<nat>, invoked: set<nat>, done: set<nat>, crossed: set<nat>, refused: set<nat>, silent: set<nat>,
    reported: set<nat>, denied: set<nat>, repeated: set<nat>, marked: bool, completed: bool,
    closing: Option<Return>)

  /** A false beside an earlier true is an omission; a closed channel says nothing. */
  function Learn(f: Facts, id: nat, word: Word): Facts {
    match word
    case Told(admitted) =>
      if admitted then f.(crossed := f.crossed + {id})
      else if id in f.crossed then f
      else f.(refused := f.refused + {id}, silent := f.silent - {id})
    case Closed =>
      if id in f.crossed || id in f.refused then f else f.(silent := f.silent + {id})
  }

  function Add(f: Facts, d: Deed): Facts {
    match d
    case Got(id) => f.(got := f.got + {id})
    case Marker => f.(marked := true)
    case Invoked(id) => f.(invoked := f.invoked + {id})
    case NoHandle(id) => f.(done := f.done + {id}, refused := f.refused + {id})
    case Said(id, word) => Learn(f, id, word)
    case Returned(ret) => Learn(f.(done := f.done + {ret.id}, closing := Some(ret)), ret.id, ret.Word())
    case Reported(Report(id, _, _, admission, _)) =>
      f.(closing := None, reported := f.reported + {id},
         denied := if admission == NotAdmitted then f.denied + {id} else f.denied,
         repeated := if id in f.reported then f.repeated + {id} else f.repeated)
    case Reported(TerminalComplete) => f.(completed := true)
  }

  function FactsOf(t: Trace): Facts {
    if t.Start? then Facts({}, {}, {}, {}, {}, {}, {}, {}, {}, false, false, None) else Add(FactsOf(t.past), t.deed)
  }

  /** The admission is what the provider let know of the call so far. */
  predicate Knows(f: Facts, id: nat, admission: Admission) {
    match admission
    case Pending => false
    case PendingWriter => id !in f.crossed && id !in f.refused && id !in f.silent
    case Admitted => id in f.crossed && id !in f.refused && id !in f.silent
    case NotAdmitted => id !in f.crossed && (id in f.refused || id in f.silent)
  }

  /** The admission reported for an invoked call, which may be over. */
  predicate Answers(f: Facts, id: nat, admission: Admission) {
    match admission
    case Pending => false
    case PendingWriter => id !in f.crossed && id !in f.refused && id !in f.silent
    case Admitted => id in f.crossed
    case NotAdmitted => id in f.refused || id in f.silent
  }

  /**
    The report that ends a call carries the provider's result and error, but for the admission, which
    is the one concluded; it is late exactly if the call was reported before or its context was done.
   */
  predicate Conveys(f: Facts, ret: Return, r: Report)
    requires r.Report?
  {
    && r.id == ret.id
    && (match ret.answer
        case Some(answer) =>
          && r.result.outcome == answer.0.outcome && r.err == answer.1
          && r.result.receiveSequence == answer.0.receiveSequence
          && r.result.responseSequence == answer.0.responseSequence
        case None => r.result.(writeAdmitted := false) == Nothing(false) && r.err == PlainError)
    && (r.result.writeAdmitted <==> r.admission == Admitted)
    && (r.late <==> ret.id in f.reported || ret.ctxDone)
  }

  /** Any other report carries no result but the admission. */
  predicate Bare(r: Report)
    requires r.Report?
  {
    r.result == Nothing(r.admission == Admitted) && r.err == PlainError && !r.late
  }

  /** What the dispatcher may do next: a call that returned is reported at once. */
  predicate Legal(f: Facts, d: Deed) {
    (f.closing.Some? ==> d.Reported? && d.report.Report?) && Allowed(f, d)
  }

  predicate Allowed(f: Facts, d: Deed) {
    match d
    case Got(id) => forall k :: k in f.got ==> k < id
    case Marker => true
    case Invoked(id) =>
      // in submission order, one at a time, never after the terminal marker
      && !f.marked
      && id in f.got && id !in f.reported
      && (forall k :: k in f.invoked ==> k < id && k in f.done)
    case NoHandle(id) => id in f.invoked && id !in f.done
    case Said(id, _) => id in f.invoked && id !in f.done && Knows(f, id, PendingWriter)
    case Returned(ret) => ret.id in f.invoked && ret.id !in f.done
    case Reported(Report(id, _, _, admission, late)) =>
      // a job that was never started is denied; any other is reported admitted only on the
      // provider's word, denied only on its word or its silence, and undecided otherwise; a second
      // report is late, comes after the completion of the terminal marker, and is the last
      && (if f.closing.Some? then Conveys(f, f.closing.value, d.report) else Bare(d.report))
      && id in f.got
      && (id !in f.invoked ==> admission == NotAdmitted && !late && id !in f.reported)
      && (id in f.invoked ==> Answers(f, id, admission))
      && (id in f.reported ==> late && id !in f.repeated && f.completed)
    case Reported(TerminalComplete) =>
      // everything received so far has been reported, exactly once
      f.marked && !f.completed && f.got == f.reported && f.repeated == {}
  }

  predicate Protocol(t: Trace) {
    t.Then? ==> Legal(FactsOf(t.past), t.deed) && Protocol(t.past)
  }

  predicate Ascending(q: seq<nat>) {
    forall i, j :: 0 <= i < j < |q| ==> q[i] < q[j]
  }

  /** Everything received is waiting, in flight or reported, and the three do not mix. */
  predicate Ledger(f: Facts, q: seq<nat>, a: Option<nat>) {
    && Ascending(q) && f.closing.None?
    && f.reported <= f.got && f.invoked <= f.got && f.done <= f.invoked
    && f.crossed <= f.invoked && f.refused <= f.invoked && f.silent <= f.invoked && f.silent !! f.refused
    && f.repeated <= f.reported && f.denied <= f.reported
    && (forall id :: id in q ==> id in f.got && id !in f.invoked && id !in f.reported)
    && (forall i, k :: i in f.invoked && k in q ==> i < k)
    && (a.Some? ==> a.value in f.invoked && a.value !in f.done && a.value !in f.repeated)
    && (forall id :: id in f.invoked && id !in f.done ==> a == Some(id))
    && (forall id :: id in f.got && id !in f.reported ==> id in q || a == Some(id))
  }

  predicate Flags(s: State, f: Facts) {
    && s.terminalRequested == f.marked
    && s.completeSent == f.completed
    && (s.completeSent ==> s.terminalRequested && (s.active.Some? ==> s.active.value.resolved))
    && (f.repeated != {} ==> s.completeSent)
    && (s.active.Some? ==>
          var a := s.active.value;
          && (a.resolved <==> a.id in f.reported)
          && (a.resolved || a.terminal ==> s.terminalRequested)
          && Knows(f, a.id, a.admission))
  }

  /**
    An attempt is sealed, and a job denied, only if the provider was never invoked for it, refused it
    or fell silent on it; and silence does seal.
   */
  ghost predicate Sealing(att: map<nat, Admission>, f: Facts, q: seq<nat>) {
    && (forall id :: Lookup(att, id) == Pending ==> id !in f.invoked)
    && (forall id :: Lookup(att, id) == NotAdmitted ==> id !in f.invoked || id in f.refused || id in f.silent)
    && (forall id :: id in f.denied ==> id in f.refused || Lookup(att, id) == NotAdmitted)
    && (forall id :: id in f.silent ==> Lookup(att, id) == NotAdmitted)
    && (forall id :: id in q ==> Untouched(Lookup(att, id)))
    && (forall id :: !Untouched(Lookup(att, id)) ==> id in f.got)
  }

  predicate Untouched(a: Admission) {
    a == Pending || a == NotAdmitted
  }

  function Lookup(att: map<nat, Admission>, id: nat): Admission {
    if id in att then att[id] else Pending
  }

  function ActiveId(s: State): Option<nat> {
    if s.active.Some? then Some(s.active.value.id) else None
  }

  ghost predicate Core(s: State) {
    var f := FactsOf(s.trace);
    && Protocol(s.trace)
    && Ledger(f, s.queue, ActiveId(s))
    && Flags(s, f)
    && Sealing(s.att, f, s.queue)
  }

  /** Between two passes of the loop. */
  ghost predicate Inv(s: State) {
    Core(s) && (s.terminalRequested ==> s.queue == [])
  }

  /** A step of the run: a pass of the loop, or a caller sealing an attempt it gives up on. */
  datatype Step = Run(pass: Pass) | CallerSeals(id: nat)

  function Apply(s: State, step: Step): State {
    match step
    case Run(p) => Trip(s, p)
    case CallerSeals(id) => Seal(s, id)
  }

  /** Jobs are submitted with fresh, growing numbers. */
  predicate Enabled(s: State, step: Step) {
    step.Run? && step.pass.pick.Job? ==> Submittable(s, step.pass.pick.id)
  }

  predicate Submittable(s: State, id: nat) {
    forall k :: k in FactsOf(s.trace).got ==> k < id
  }

  // ---------------------------------------------------------------- the ledger, deed by deed

  lemma LedgerPop(f: Facts, q: seq<nat>, a: Option<nat>)
    requires Ledger(f, q, a) && q != []
    ensures Ascending(q[1..]) && q[0] !in q[1..] && forall id :: id in q <==> id == q[0] || id in q[1..]
    ensures forall k :: k in q[1..] ==> q[0] < k
  {
    assert q == [q[0]] + q[1..];
    forall k | k in q[1..] ensures q[0] < k {
      var i :| 0 <= i < |q[1..]| && q[1..][i] == k;
      assert q[i + 1] == k;
    }
  }

  lemma GiveUpStep(f: Facts, q: seq<nat>, a: Option<nat>, att: map<nat, Admission>, r: Report)
    requires Ledger(f, q, a) && Sealing(att, f, q) && q != []
    requires r == Unstarted(q[0], NotAdmitted)
    ensures
      var g := Add(f, Reported(r));
      Ledger(g, q[1..], a) && Sealing(att[q[0] := NotAdmitted], g, q[1..]) && Legal(f, Reported(r))
  {
    LedgerPop(f, q, a);
  }

  lemma InvokeStep(f: Facts, q: seq<nat>, att: map<nat, Admission>)
    requires Ledger(f, q, None) && Sealing(att, f, q) && q != [] && !f.marked
    ensures
      var g := Add(f, Invoked(q[0]));
      && Ledger(g, q[1..], Some(q[0])) && Sealing(att[q[0] := PendingWriter], g, q[1..]) && Legal(f, Invoked(q[0]))
      && Knows(g, q[0], PendingWriter)
  {
    LedgerPop(f, q, None);
  }

  /** The provider gave no handle, and the job is reported. */
  lemma NoHandleStep(f: Facts, q: seq<nat>, id: nat, att: map<nat, Admission>, r: Report)
    requires Ledger(f, q, Some(id)) && Sealing(att, f, q) && id !in f.reported && id !in f.silent
    requires r == Unstarted(id, NotAdmitted)
    ensures
      var g := Add(f, NoHandle(id));
      var h := Add(g, Reported(r));
      && Legal(f, NoHandle(id)) && Legal(g, Reported(r)) && Ledger(h, q, None)
      && Sealing(att[id := Marked(Lookup(att, id), false)], h, q)
  {
    assert id !in q;
  }

  /** What the dispatcher concludes from the last word on a call of which it knows `known`. */
  function Verdict(known: Admission, word: Word): Admission {
    if word.Yes() then Admitted else if known == PendingWriter then NotAdmitted else known
  }

  /** The completion passed on says that the call crossed the writer; a closed channel repeats what is known. */
  predicate Crosses(known: Admission, word: Word) {
    word.Yes() || (word.Closed? && known == Admitted)
  }

  /** The attempt as the end of its call leaves it. */
  function Ended(att: map<nat, Admission>, id: nat, known: Admission, word: Word): map<nat, Admission> {
    if Crosses(known, word) || known == PendingWriter then att[id := Marked(Lookup(att, id), Crosses(known, word))]
    else att
  }

  /** The provider's last word on the active call, and its report. */
  lemma CloseStep(f: Facts, q: seq<nat>, ret: Return, att: map<nat, Admission>, known: Admission, r: Report)
    requires Ledger(f, q, Some(ret.id)) && Sealing(att, f, q) && Knows(f, ret.id, known)
    requires r.Report? && r.admission == Verdict(known, ret.Word()) && Conveys(f, ret, r)
    requires ret.id in f.reported ==> f.completed
    ensures
      var g := Add(f, Returned(ret));
      var h := Add(g, Reported(r));
      && Legal(f, Returned(ret)) && Legal(g, Reported(r)) && Ledger(h, q, None)
      && Sealing(Ended(att, ret.id, known, ret.Word()), h, q)
  {
    var g, id, word := Add(f, Returned(ret)), ret.id, ret.Word();
    ReturnStep(f, q, ret, att, known);
    CloseLedger(f, q, ret, r);
    hide Knows, Verdict, Ended, Sealing, Conveys;
    ReportStep(g, q, Ended(att, id, known, word), r);
    hide Ledger;
  }

  lemma CloseLedger(f: Facts, q: seq<nat>, ret: Return, r: Report)
    requires Ledger(f, q, Some(ret.id)) && r.Report? && Conveys(f, ret, r)
    requires ret.id in f.reported ==> f.completed
    ensures
      var g, id := Add(f, Returned(ret)), ret.id;
      && id !in q && id in g.got && id in g.invoked && id !in f.done
      && (id in g.reported ==> r.late && id !in g.repeated && g.completed)
      && g.closing == Some(ret) && Conveys(g, ret, r)
      && Ledger(Add(g, Reported(r)), q, None)
  {
    assert ret.id !in q;
  }

  lemma ReturnStep(f: Facts, q: seq<nat>, ret: Return, att: map<nat, Admission>, known: Admission)
    requires Ledger(f, q, Some(ret.id)) && Sealing(att, f, q) && Knows(f, ret.id, known)
    ensures
      var g, id, word := Add(f, Returned(ret)), ret.id, ret.Word();
      Answers(g, id, Verdict(known, word)) && Sealing(Ended(att, id, known, word), g, q)
  {
    assert ret.id !in q;
  }

  lemma ReportStep(f: Facts, q: seq<nat>, att: map<nat, Admission>, r: Report)
    requires Sealing(att, f, q) && r.Report? && r.id !in q && r.id in f.got
    requires r.admission == NotAdmitted ==> r.id in f.refused || r.id in f.silent
    ensures Sealing(att, Add(f, Reported(r)), q)
  {
  }

  /** The active job is reported while its call is still open. */
  lemma AnswerStep(f: Facts, q: seq<nat>, id: nat, att: map<nat, Admission>, r: Report)
    requires Ledger(f, q, Some(id)) && Sealing(att, f, q)
    requires r.Report? && r.id == id && id !in f.reported && Answers(f, id, r.admission) && Bare(r)
    ensures
      var g := Add(f, Reported(r));
      Legal(f, Reported(r)) && Ledger(g, q, Some(id)) && Sealing(att, g, q)
  {
  }

  lemma SaidStep(f: Facts, q: seq<nat>, id: nat, att: map<nat, Admission>, word: Word)
    requires Ledger(f, q, Some(id)) && Sealing(att, f, q) && Knows(f, id, PendingWriter)
    ensures
      var g := Add(f, Said(id, word));
      && Legal(f, Said(id, word)) && Ledger(g, q, Some(id)) && Knows(g, id, FromFact(word.Yes()))
      && Sealing(att[id := Marked(Lookup(att, id), word.Yes())], g, q)
  {
    assert id !in q;
  }

  lemma QueueStep(f: Facts, q: seq<nat>, a: Option<nat>, att: map<nat, Admission>, id: nat)
    requires Ledger(f, q, a) && Sealing(att, f, q) && forall k :: k in f.got ==> k < id
    ensures
      var g := Add(f, Got(id));
      Legal(f, Got(id)) && Ledger(g, q + [id], a) && Sealing(att, g, q + [id])
  {
    forall i | 0 <= i < |q| ensures q[i] < id {
      assert q[i] in q && q[i] in f.got;
    }
  }

  lemma DenyStep(f: Facts, q: seq<nat>, a: Option<nat>, att: map<nat, Admission>, id: nat)
    requires Ledger(f, q, a) && Sealing(att, f, q) && forall k :: k in f.got ==> k < id
    ensures
      var g := Add(f, Got(id));
      var h := Add(g, Reported(Unstarted(id, NotAdmitted)));
      && Legal(f, Got(id)) && Legal(g, Reported(Unstarted(id, NotAdmitted))) && id !in f.reported
      && Ledger(h, q, a) && Sealing(att[id := NotAdmitted], h, q)
  {
  }

  lemma SealStep(f: Facts, q: seq<nat>, att: map<nat, Admission>, id: nat)
    requires Sealing(att, f, q)
    ensures Sealing(att[id := Sealed(Lookup(att, id))], f, q)
  {
  }

  lemma RemarkStep(f: Facts, q: seq<nat>, id: nat, att: map<nat, Admission>, admitted: bool)
    requires Ledger(f, q, Some(id)) && Sealing(att, f, q) && Knows(f, id, FromFact(admitted))
    ensures Sealing(att[id := Marked(Lookup(att, id), admitted)], f, q)
  {
    assert id !in q;
  }

  // ---------------------------------------------------------------- the invariant, pass by pass

  lemma Unfold(t: Trace, d: Deed)
    ensures FactsOf(Then(t, d)) == Add(FactsOf(t), d)
    ensures Protocol(Then(t, d)) <==> Legal(FactsOf(t), d) && Protocol(t)
  {
  }

  lemma GiveUpKeeps(s: State)
    requires Core(s) && s.queue != []
    ensures
      var id := s.queue[0];
      Core(Emit(s.(queue := s.queue[1..], att := s.att[id := NotAdmitted]), Unstarted(id, NotAdmitted)))
  {
    hide Ledger, Sealing;
    GiveUpStep(FactsOf(s.trace), s.queue, ActiveId(s), s.att, Unstarted(s.queue[0], NotAdmitted));
    QueuedIsNotActive(s);
  }

  lemma QueuedIsNotActive(s: State)
    requires Core(s) && s.queue != []
    ensures s.active.Some? ==> s.queue[0] != s.active.value.id
    ensures Untouched(AdmissionOf(s, s.queue[0]))
    ensures s.queue[0] !in FactsOf(s.trace).reported
  {
    assert s.queue[0] in s.queue;
  }

  /** The admission of the queue's head is recorded as given up, whichever way it got there. */
  lemma SealedHead(s: State)
    requires Core(s) && s.queue != []
    ensures
      var id := s.queue[0];
      && Sealed(AdmissionOf(s, id)) == NotAdmitted == Marked(AdmissionOf(s, id), false)
      && (AdmissionOf(s, id) != Pending ==> AdmissionOf(s, id) == NotAdmitted && s.att[id := NotAdmitted] == s.att)
  {
    QueuedIsNotActive(s);
    var id := s.queue[0];
    if AdmissionOf(s, id) != Pending {
      assert s.att[id := NotAdmitted] == s.att;
    }
  }

  lemma {:induction false} ResolveQueuedKeeps(s: State)
    requires Core(s)
    ensures
      var t := ResolveQueued(s);
      && t.queue == [] && t.active == s.active && t.terminalRequested == s.terminalRequested
      && Core(t)
    decreases |s.queue|
  {
    hide Core;
    if s.queue != [] {
      GiveUpKeeps(s);
      SealedHead(s);
      var id := s.queue[0];
      ResolveQueuedKeeps(Emit(s.(queue := s.queue[1..], att := s.att[id := NotAdmitted]), Unstarted(id, NotAdmitted)));
    }
  }

  function Invocation(s: State): State
    requires s.queue != []
  {
    var id := s.queue[0];
    Note(s.(queue := s.queue[1..], att := s.att[id := PendingWriter]), Invoked(id))
  }

  lemma InvocationKeeps(s: State, async: bool)
    requires Core(s) && CanStart(s)
    ensures
      var id, t := s.queue[0], Invocation(s);
      && Core(t.(active := Some(Active(id, async, async, PendingWriter, false, false, false))))
      && Core(Emit(Mark(Note(t, NoHandle(id)), id, false), Unstarted(id, NotAdmitted)))
  {
    hide Ledger, Sealing, Legal, FactsOf, Protocol;
    var f, id, t := FactsOf(s.trace), s.queue[0], Invocation(s);
    QueuedIsNotActive(s);
    Unfold(s.trace, Invoked(id));
    InvokeStep(f, s.queue, s.att);
    var g := Add(f, Invoked(id));
    assert id !in g.reported;
    NoHandleStep(g, t.queue, id, t.att, Unstarted(id, NotAdmitted));
    Unfold(t.trace, NoHandle(id));
    Unfold(Then(t.trace, NoHandle(id)), Reported(Unstarted(id, NotAdmitted)));
  }

  lemma TakeJobKeeps(s: State, ctxDone: bool, opening: Opening)
    requires Inv(s) && CanStart(s)
    ensures Inv(TakeJob(s, ctxDone, opening))
  {
    hide Core;
    var id := s.queue[0];
    SealedHead(s);
    GiveUpKeeps(s);
    InvocationKeeps(s, opening == Handle);
    if ctxDone {
    } else if AdmissionOf(s, id) != Pending {
    } else if opening == NoCapability {
      assert s.att[id := PendingWriter][id := NotAdmitted] == s.att[id := NotAdmitted];
    } else {
    }
  }

  /** Once the loop has seen to it, a settled terminal is announced. */
  predicate Announced(s: State) {
    s.terminalRequested && (s.active.None? || s.active.value.resolved) ==> s.completeSent
  }

  lemma CompleteTerminalKeeps(s: State)
    requires Inv(s)
    ensures Inv(CompleteTerminal(s)) && Announced(CompleteTerminal(s))
  {
    hide Protocol, FactsOf;
    Unfold(s.trace, Reported(TerminalComplete));
  }

  lemma AcceptJobKeeps(s: State, id: nat)
    requires Inv(s) && Submittable(s, id)
    ensures Inv(AcceptJob(s, id))
  {
    hide Ledger, Sealing, Legal, FactsOf, Protocol;
    var f := FactsOf(s.trace);
    Unfold(s.trace, Got(id));
    if s.terminalRequested {
      DenyStep(f, s.queue, ActiveId(s), s.att, id);
      Unfold(Then(s.trace, Got(id)), Reported(Unstarted(id, NotAdmitted)));
      ActiveWasGot(s);
    } else {
      QueueStep(f, s.queue, ActiveId(s), s.att, id);
    }
  }

  lemma ActiveWasGot(s: State)
    requires Core(s)
    ensures s.active.Some? ==> s.active.value.id in FactsOf(s.trace).got
  {
  }

  lemma ResolveTerminalActiveKeeps(s: State)
    requires Inv(s) && s.active.Some? && s.terminalRequested && (s.completeSent ==> s.active.value.resolved)
    ensures Inv(ResolveTerminalActive(s))
  {
    hide Ledger, Sealing, Legal, FactsOf, Protocol;
    var a := s.active.value;
    if !a.resolved {
      var r := Report(a.id, Nothing(a.admission == Admitted), PlainError, a.admission, false);
      var f := FactsOf(s.trace);
      AnswerStep(f, s.queue, a.id, s.att, r);
      if a.admission != PendingWriter {
        RemarkStep(Add(f, Reported(r)), s.queue, a.id, s.att, a.admission == Admitted);
      }
      Unfold(s.trace, Reported(r));
    }
  }

  lemma MarkerKeeps(s: State)
    requires Inv(s)
    ensures Core(Note(s.(terminalRequested := true), Marker))
  {
    hide FactsOf, Protocol, Sealing;
    Unfold(s.trace, Marker);
    MarkerSealing(s.att, FactsOf(s.trace), s.queue);
  }

  lemma MarkerSealing(att: map<nat, Admission>, f: Facts, q: seq<nat>)
    requires Sealing(att, f, q)
    ensures Sealing(att, Add(f, Marker), q)
  {
  }

  lemma WarnedKeeps(s: State, timer: bool)
    requires Inv(s) && s.active.Some? && s.terminalRequested
    ensures Inv(s.(active := Some(s.active.value.(terminal := true))))
    ensures Inv(s.(active := Some(s.active.value.(terminal := true, timer := timer))))
  {
    hide Ledger, Sealing, Protocol, FactsOf;
  }

  lemma AcceptTerminalKeeps(s: State)
    requires Inv(s) && Announced(s)
    ensures Inv(AcceptTerminal(s))
  {
    hide Core, ResolveTerminalActive;
    MarkerKeeps(s);
    ResolveQueuedKeeps(Note(s.(terminalRequested := true), Marker));
    var t := ResolveQueued(Note(s.(terminalRequested := true), Marker));
    if t.active.Some? {
      WarnedKeeps(t, true);
      Quiet(t);
      if t.active.value.admission != PendingWriter {
        ResolveTerminalActiveKeeps(t.(active := Some(t.active.value.(terminal := true))));
      }
    }
  }

  /** A completed terminal leaves no unanswered call. */
  lemma Quiet(s: State)
    requires Core(s)
    ensures s.completeSent && s.active.Some? ==> s.active.value.resolved
  {
  }

  lemma LearnKeeps(s: State, word: Word)
    requires Inv(s) && AwaitsAdmission(s)
    ensures Inv(LearnAdmission(s, word))
  {
    hide Ledger, Sealing, Legal, FactsOf, Protocol, Knows;
    var id := s.active.value.id;
    SaidStep(FactsOf(s.trace), s.queue, id, s.att, word);
    Unfold(s.trace, Said(id, word));
  }

  lemma AdmissionFactKeeps(s: State, p: Pass)
    requires Inv(s) && p.pick.AdmissionFact?
    ensures Inv(Select(s, p))
  {
    hide Core, LearnAdmission, ResolveTerminalActive;
    if AwaitsAdmission(s) && !s.active.value.resolved {
      LearnKeeps(s, p.pick.word);
      Quiet(s);
      Learned(s, p.pick.word);
      var t := LearnAdmission(s, p.pick.word);
      if t.active.value.terminal {
        WarnedRequested(s);
        ResolveTerminalActiveKeeps(t);
      }
    }
  }

  lemma Learned(s: State, word: Word)
    requires s.active.Some?
    ensures
      var t := LearnAdmission(s, word);
      && t.active == Some(s.active.value.(admission := FromFact(word.Yes()), admissionOpen := false))
      && t.terminalRequested == s.terminalRequested && t.completeSent == s.completeSent
  {
  }

  lemma WarnedRequested(s: State)
    requires Core(s)
    ensures s.active.Some? && (s.active.value.terminal || s.active.value.resolved) ==> s.terminalRequested
  {
  }

  /** What finishing is given: the completion received, or nothing but what is known of the admission. */
  predicate Given(known: Admission, ret: Return, result: ClientResult, err: ClientError) {
    match ret.answer
    case Some(answer) => result == answer.0 && err == answer.1
    case None => result == Nothing(known == Admitted) && err == PlainError
  }

  lemma FinishKeeps(s: State, ret: Return, result: ClientResult, err: ClientError, late: bool)
    requires Inv(s) && Announced(s) && s.active.Some? && ret.id == s.active.value.id
    requires late == (s.active.value.resolved || ret.ctxDone) && Given(s.active.value.admission, ret, result, err)
    ensures Inv(Finish(Note(s, Returned(ret)), result, err, late))
  {
    hide Ledger, Sealing, Legal, FactsOf, Protocol, Flags, Finish, Answers, Verdict, Ended, Conveys, Given;
    var f, known := FactsOf(s.trace), s.active.value.admission;
    FinishIsLegal(s);
    FinishFlags(s, ret, result, err, late);
    var r := FinishShape(s, ret, result, err, late);
    CloseStep(f, s.queue, ret, s.att, known, r);
    Unfold(s.trace, Returned(ret));
    Unfold(Then(s.trace, Returned(ret)), Reported(r));
  }

  /** What finishing does: the job is reported with the verdict, the attempt marked with it or left alone. */
  lemma FinishShape(s: State, ret: Return, result: ClientResult, err: ClientError, late: bool) returns (r: Report)
    requires s.active.Some? && ret.id == s.active.value.id && Given(s.active.value.admission, ret, result, err)
    requires
      var f, a := FactsOf(s.trace), s.active.value;
      late == (a.resolved || ret.ctxDone) && (a.resolved <==> a.id in f.reported)
    ensures
      var f, id, known, word := FactsOf(s.trace), ret.id, s.active.value.admission, ret.Word();
      var t := Finish(Note(s, Returned(ret)), result, err, late);
      && t.queue == s.queue && t.active.None? && t.terminalRequested == s.terminalRequested
      && t.trace == Then(Then(s.trace, Returned(ret)), Reported(r))
      && r.Report? && r.admission == Verdict(known, word) && Conveys(f, ret, r)
      && t.att == Ended(s.att, id, known, word)
  {
    hide FactsOf;
    var a := s.active.value;
    var admission := Verdict(a.admission, ret.Word());
    r := Report(a.id, result.(writeAdmitted := admission == Admitted), err, admission, late);
  }

  lemma FinishIsLegal(s: State)
    requires Inv(s) && Announced(s) && s.active.Some?
    ensures
      var f, a := FactsOf(s.trace), s.active.value;
      && (a.resolved <==> a.id in f.reported) && (a.resolved ==> f.completed)
      && Knows(f, a.id, a.admission)
  {
    hide Sealing, Protocol, FactsOf, Knows;
  }

  lemma FinishFlags(s: State, ret: Return, result: ClientResult, err: ClientError, late: bool)
    requires Inv(s) && Announced(s) && s.active.Some? && ret.id == s.active.value.id
    ensures
      var t := Finish(Note(s, Returned(ret)), result, err, late);
      Flags(t, FactsOf(t.trace))
  {
    hide Ledger, Sealing, Protocol, FactsOf, Knows;
    var t := Finish(Note(s, Returned(ret)), result, err, late);
    Unfold(s.trace, t.trace.past.deed);
    Unfold(t.trace.past, t.trace.deed);
  }

  lemma CompletionKeeps(s: State, p: Pass)
    requires Inv(s) && Announced(s) && p.pick.Completion?
    ensures Inv(Select(s, p))
  {
    hide Core, LearnAdmission, Finish;
    if s.active.Some? && AwaitsAdmission(s) && p.pick.ready.Some? {
      LearnKeeps(s, p.pick.ready.value);
      Learned(s, p.pick.ready.value);
    }
    if s.active.Some? {
      var t := if AwaitsAdmission(s) && p.pick.ready.Some? then LearnAdmission(s, p.pick.ready.value) else s;
      var known := t.active.value.admission;
      var r := if p.pick.open then p.pick.result else Nothing(known == Admitted);
      var answer := if p.pick.open then Some((p.pick.result, p.pick.err)) else None;
      var ret := Return(t.active.value.id, answer, p.ctxDone);
      FinishKeeps(t, ret, r, if p.pick.open then p.pick.err else PlainError, t.active.value.resolved || p.ctxDone);
    }
  }

  lemma GraceKeeps(s: State, p: Pass)
    requires Inv(s) && p.pick.Grace?
    ensures Inv(Select(s, p))
  {
    hide Core, ResolveTerminalActive;
    WarnedRequested(s);
    Quiet(s);
    if s.active.Some? && s.active.value.terminal && !s.active.value.resolved && s.active.value.timer {
      ResolveTerminalActiveKeeps(s);
    }
  }

  lemma StopKeeps(s: State)
    requires Inv(s)
    ensures Inv(s.(stopped := true))
  {
  }

  lemma SelectKeeps(s: State, p: Pass)
    requires Inv(s) && Announced(s) && (p.pick.Job? ==> Submittable(s, p.pick.id))
    ensures Inv(Select(s, p))
  {
    hide Core, Announced, Submittable, AcceptTerminal, AcceptJob;
    match p.pick {
      case Job(id) => AcceptJobKeeps(s, id);
      case Terminal => AcceptTerminalKeeps(s);
      case Stop => StopKeeps(s);
      case AdmissionFact(_) => AdmissionFactKeeps(s, p);
      case Completion(_, _, _, _) => CompletionKeeps(s, p);
      case Grace => GraceKeeps(s, p);
    }
  }

  /** Starting a job is not receiving one. */
  lemma TakeJobSubmittable(s: State, ctxDone: bool, opening: Opening, id: nat)
    requires s.queue != [] && Submittable(s, id)
    ensures Submittable(TakeJob(s, ctxDone, opening), id)
  {
    hide FactsOf, TakeJob;
    TakeJobReceivesNothing(s, ctxDone, opening);
  }

  function Received(t: Trace): set<nat> {
    FactsOf(t).got
  }

  lemma OtherDeed(t: Trace, d: Deed)
    requires !d.Got?
    ensures Received(Then(t, d)) == Received(t)
  {
  }

  lemma StartJobReceivesNothing(s: State, id: nat, opening: Opening)
    ensures Received(StartJob(s, id, opening).trace) == Received(s.trace)
  {
    hide Received;
    var t := s.trace;
    OtherDeed(t, Reported(Unstarted(id, AdmissionOf(s, id))));
    OtherDeed(t, Reported(Unstarted(id, NotAdmitted)));
    OtherDeed(t, Invoked(id));
    OtherDeed(Then(t, Invoked(id)), NoHandle(id));
    OtherDeed(Then(Then(t, Invoked(id)), NoHandle(id)), Reported(Unstarted(id, NotAdmitted)));
  }

  lemma TakeJobReceivesNothing(s: State, ctxDone: bool, opening: Opening)
    requires s.queue != []
    ensures Received(TakeJob(s, ctxDone, opening).trace) == Received(s.trace)
  {
    hide Received, StartJob;
    var id := s.queue[0];
    StartJobReceivesNothing(s.(queue := s.queue[1..]), id, opening);
    OtherDeed(s.trace, Reported(Unstarted(id, Sealed(AdmissionOf(s, id)))));
  }

  lemma CompleteTerminalSubmittable(s: State, id: nat)
    requires Submittable(s, id)
    ensures Submittable(CompleteTerminal(s), id)
  {
  }

  lemma TripKeeps(s: State, p: Pass)
    requires Inv(s) && Enabled(s, Run(p))
    ensures Inv(Trip(s, p))
  {
    hide Inv, Submittable, TakeJob, CompleteTerminal, Select, Announced;
    if !s.stopped {
      var t := s;
      if CanStart(s) {
        TakeJobKeeps(s, p.ctxDone, p.opening);
        if p.pick.Job? {
          TakeJobSubmittable(s, p.ctxDone, p.opening, p.pick.id);
        }
        t := TakeJob(s, p.ctxDone, p.opening);
      }
      CompleteTerminalKeeps(t);
      if p.pick.Job? {
        CompleteTerminalSubmittable(t, p.pick.id);
      }
      SelectKeeps(CompleteTerminal(t), p);
    }
  }

  lemma CallerSealsKeeps(s: State, id: nat)
    requires Inv(s)
    ensures Inv(Seal(s, id))
  {
    hide Ledger, Sealing, Protocol, FactsOf;
    SealStep(FactsOf(s.trace), s.queue, s.att, id);
  }

  lemma StepKeeps(s: State, step: Step)
    requires Inv(s) && Enabled(s, step)
    ensures Inv(Apply(s, step))
  {
    hide Inv;
    match step {
      case Run(p) => TripKeeps(s, p);
      case CallerSeals(id) => CallerSealsKeeps(s, id);
    }
  }

  // ---------------------------------------------------------------- every run

  function RunOf(s: State, steps: seq<Step>): State
    decreases |steps|
  {
    if steps == [] then s else RunOf(Apply(s, steps[0]), steps[1..])
  }

  predicate Possible(s: State, steps: seq<Step>)
    decreases |steps|
  {
    steps != [] ==> Enabled(s, steps[0]) && Possible(Apply(s, steps[0]), steps[1..])
  }

  lemma {:induction false} RunKeeps(s: State, steps: seq<Step>)
    requires Inv(s) && Possible(s, steps)
    ensures Inv(RunOf(s, steps))
    decreases |steps|
  {
    hide Inv, Apply, Enabled;
    if steps != [] {
      StepKeeps(s, steps[0]);
      RunKeeps(Apply(s, steps[0]), steps[1..]);
    }
  }

  /**
    Every deed of every run was allowed when it was done: provider calls start in submission
    order, one at a time and never after the terminal marker; nothing is reported admitted or
    denied on a guess; the terminal completes once, when every job received so far has been
    reported exactly once; only after that can a report repeat, once, and then it says late.
   */
  lemma DispatcherProtocolHolds(steps: seq<Step>)
    requires Possible(IDLE, steps)
    ensures Protocol(RunOf(IDLE, steps).trace)
  {
    RunKeeps(IDLE, steps);
  }

  /** The attempt is recorded, or was reported, as not admitted. */
  predicate Denies(s: State, id: nat) {
    AdmissionOf(s, id) == NotAdmitted || id in FactsOf(s.trace).denied
  }

  /** The provider was never invoked for the call, or gave no handle, or said itself that it did not admit it. */
  predicate Backed(s: State, id: nat) {
    id !in FactsOf(s.trace).invoked || id in FactsOf(s.trace).refused
  }

  /**
    A denial is backed exactly if the provider did not fall silent on the call: none of its
    channels was closed before it said anything, or it has refused the call since.
   */
  lemma DenialsAreProven(steps: seq<Step>, id: nat)
    requires Possible(IDLE, steps)
    ensures
      var s := RunOf(IDLE, steps);
      Denies(s, id) ==> (Backed(s, id) <==> id !in FactsOf(s.trace).silent)
  {
    RunKeeps(IDLE, steps);
    DenialIsProven(RunOf(IDLE, steps), id);
  }

  lemma DenialIsProven(s: State, id: nat)
    requires Inv(s)
    ensures Denies(s, id) ==> (Backed(s, id) <==> id !in FactsOf(s.trace).silent)
  {
    assert AdmissionOf(s, id) == Lookup(s.att, id);
  }

  /** At any time, all denials are backed exactly if there is no call on which the provider fell silent. */
  lemma DenialsAreProvenWithoutSilence(s: State)
    requires Inv(s)
    ensures (forall id :: Denies(s, id) ==> Backed(s, id)) <==> FactsOf(s.trace).silent == {}
  {
    forall id ensures Denies(s, id) ==> (Backed(s, id) <==> id !in FactsOf(s.trace).silent) {
      DenialIsProven(s, id);
    }
    forall id | id in FactsOf(s.trace).silent ensures Denies(s, id) && !Backed(s, id) {
      assert AdmissionOf(s, id) == Lookup(s.att, id);
    }
  }

  /** Every job received is waiting, being called, or reported. */
  lemma NoJobIsLost(steps: seq<Step>, id: nat)
    requires Possible(IDLE, steps)
    ensures
      var s := RunOf(IDLE, steps);
      var f := FactsOf(s.trace);
      id in f.got ==> id in s.queue || ActiveId(s) == Some(id) || id in f.reported
  {
    RunKeeps(IDLE, steps);
  }

  // ---------------------------------------------------------------- the grace period

  /** A call the terminal marker caught unanswered has its grace timer running. */
  predicate Guarded(s: State) {
    s.terminalRequested && s.active.Some? && !s.active.value.resolved ==>
      s.active.value.terminal && s.active.value.timer && s.active.value.admission == PendingWriter
  }

  lemma {:induction false} ResolveQueuedShape(s: State)
    ensures
      var t := ResolveQueued(s);
      t.active == s.active && t.terminalRequested == s.terminalRequested && t.queue == []
    decreases |s.queue|
  {
    if s.queue != [] {
      var id := s.queue[0];
      ResolveQueuedShape(Emit(Mark(s.(queue := s.queue[1..]), id, false), Unstarted(id, NotAdmitted)));
    }
  }

  lemma SelectGuarded(s: State, p: Pass)
    requires Guarded(s)
    ensures Guarded(Select(s, p))
  {
    hide ResolveQueued, TakeCompletion, LearnAdmission, AcceptJob;
    match p.pick {
      case Terminal => ResolveQueuedShape(Note(s.(terminalRequested := true), Marker));
      case Completion(open, result, err, ready) => CompletionShape(s, open, result, err, ready, p.ctxDone);
      case AdmissionFact(word) => LearnShape(s, word);
      case Job(id) => AcceptJobShape(s, id);
      case _ =>
    }
  }

  lemma LearnShape(s: State, word: Word)
    ensures s.active.Some? ==>
      var t := LearnAdmission(s, word);
      && t.active.Some? && t.active.value.terminal == s.active.value.terminal
      && t.active.value.resolved == s.active.value.resolved && t.terminalRequested == s.terminalRequested
  {
  }

  lemma AcceptJobShape(s: State, id: nat)
    ensures AcceptJob(s, id).active == s.active && AcceptJob(s, id).terminalRequested == s.terminalRequested
  {
  }

  lemma CompletionShape(
    s: State, open: bool, result: ClientResult, err: ClientError, ready: Option<Word>, ctxDone: bool)
    ensures s.active.Some? ==> TakeCompletion(s, open, result, err, ready, ctxDone).active.None?
  {
  }

  lemma StepGuarded(s: State, step: Step)
    requires Guarded(s)
    ensures Guarded(Apply(s, step))
  {
    hide Select;
    if step.Run? && !s.stopped {
      var t := if CanStart(s) then TakeJob(s, step.pass.ctxDone, step.pass.opening) else s;
      assert Guarded(CompleteTerminal(t));
      SelectGuarded(CompleteTerminal(t), step.pass);
    }
  }

  lemma {:induction false} RunGuarded(s: State, steps: seq<Step>)
    requires Guarded(s)
    ensures Guarded(RunOf(s, steps))
    decreases |steps|
  {
    hide Apply, Guarded;
    if steps != [] {
      StepGuarded(s, steps[0]);
      RunGuarded(Apply(s, steps[0]), steps[1..]);
    }
  }

  /** However broken the provider: the terminal completes once the grace timer fires, in two passes. */
  lemma GraceCompletesTerminal(steps: seq<Step>, p: Pass, next: Pass)
    requires Possible(IDLE, steps) && p.pick == Grace
    ensures
      var s := RunOf(IDLE, steps);
      s.terminalRequested && !s.stopped ==> Trip(Trip(s, p), next).completeSent
  {
    var s := RunOf(IDLE, steps);
    RunKeeps(IDLE, steps);
    RunGuarded(IDLE, steps);
    if s.terminalRequested && !s.stopped {
      GraceStep(s, p);
      SelectCompletes(Trip(s, p), next);
    }
  }

  lemma GraceStep(s: State, p: Pass)
    requires Guarded(s) && Inv(s) && s.terminalRequested && !s.stopped && p.pick == Grace
    ensures
      var t := Trip(s, p);
      && t.terminalRequested && !t.stopped && t.queue == []
      && (t.active.None? || t.active.value.resolved)
  {
    hide Protocol, Ledger, Sealing, FactsOf;
  }

  lemma SelectCompletes(s: State, p: Pass)
    requires s.terminalRequested && !s.stopped && s.queue == [] && (s.active.None? || s.active.value.resolved)
    ensures Trip(s, p).completeSent
  {
    if p.pick.Terminal? {
      ResolveQueuedSent(Note(CompleteTerminal(s).(terminalRequested := true), Marker));
    }
  }

  lemma {:induction false} ResolveQueuedSent(s: State)
    ensures ResolveQueued(s).completeSent == s.completeSent
    decreases |s.queue|
  {
    if s.queue != [] {
      var id := s.queue[0];
      ResolveQueuedSent(Emit(Mark(s.(queue := s.queue[1..]), id, false), Unstarted(id, NotAdmitted)));
    }
  }
}
