/**
  The arbiter comes to its end: once the prompt's result is there, every steering call is reported and
  the dispatcher has completed the terminal, the answers of the barrier worker are all it waits for.
 */
module ArbiterProgress {
  import opened Options
  import opened DriverContract
  import opened Admission
  import opened AcpSteering
  import opened ArbiterModel
  import D = DispatcherModel

  /** The end is due, and no sequence exceeds `top`. */
  predicate Winding(s: State, top: nat) {
    && s.exit == Running && s.prompt.Some? && s.prompt.value <= top
    && s.terminalAsked && s.terminalReady && s.steers == [] && s.hasBarrier
    && (s.failed ==> s.pending == []) && Below(s.pending, top)
  }

  predicate Below(q: seq<Entry>, top: nat) {
    forall e :: e in q ==> e.sequence <= top
  }

  /**
    Nothing arrives but the answer of the barrier worker, and that only if it was asked; a second prompt
    result is no arrival.
   */
  function Answering(s: State, top: nat): Pass {
    Quiet(if s.barrierBusy then BarrierReady(AnswerTo(s, top)) else PromptReady(0))
  }

  function AnswerTo(s: State, top: nat): nat {
    if s.barrierCompleted < top then top else 0
  }

  function Quiet(pick: Pick): Pass {
    Pass(false, [], [], true, Drained([], false), true, map[], pick, Drained([], false))
  }

  function AfterAnswers(s: State, top: nat, n: nat): State
    decreases n
  {
    if n == 0 then s else AfterAnswers(Trip(s, Answering(s, top)), top, n - 1)
  }

  function One(owed: bool): nat {
    if owed then 1 else 0
  }

  /** What is still to be done, at most: observations, facts to establish, a question to ask or to hear of. */
  function Work(s: State, top: nat): nat {
    if s.exit != Running then 0
    else if s.failed then 1
    else 2 + 3 * (|s.pending| + One(!s.promptQueued)) + 2 * Missing(s, top) + Errand(s, top)
  }

  function Missing(s: State, top: nat): nat {
    One(s.barrierCompleted < top) + One(!s.barrierFence) + One(!s.updatesDrained) + One(!s.promptBarrierRequested)
  }

  function Errand(s: State, top: nat): nat {
    if s.barrierCompleted < top || !s.barrierFence then One(!s.barrierBusy) else One(s.barrierBusy)
  }

  /** Fields that change during a pass, and those that do not. */
  predicate Stays(s: State, t: State) {
    && t.exit == s.exit && t.prompt == s.prompt && t.terminalAsked == s.terminalAsked
    && t.terminalReady == s.terminalReady && t.steers == s.steers && t.hasBarrier == s.hasBarrier
    && t.failed == s.failed
  }

  predicate SameQueue(s: State, t: State) {
    t.pending == s.pending && t.promptQueued == s.promptQueued
  }

  predicate SameBarrier(s: State, t: State) {
    t.barrierCompleted == s.barrierCompleted && t.barrierFence == s.barrierFence
  }

  lemma Requested(s: State, sequence: nat)
    requires s.hasBarrier
    ensures
      var t := RequestBarrier(s, sequence, true);
      && Stays(s, t) && SameQueue(s, t) && SameBarrier(s, t) && t.updatesDrained == s.updatesDrained
      && t.promptBarrierRequested == s.promptBarrierRequested && (s.barrierBusy ==> t.barrierBusy)
      && (sequence > s.barrierCompleted || (sequence == 0 && !s.barrierFence) ==> t.barrierBusy)
      && (t.barrierBusy && !s.barrierBusy ==> sequence > s.barrierCompleted || (sequence == 0 && !s.barrierFence))
  {
    var t := RequestBarrier(s, sequence, true);
    if t != s {
      assert t == s.(barrierBusy := true);
    }
  }

  lemma PromptRequested(s: State)
    requires s.hasBarrier
    ensures
      var t := MaybePromptBarrier(s, true);
      && Stays(s, t) && SameQueue(s, t) && SameBarrier(s, t) && t.updatesDrained == s.updatesDrained
      && (s.promptBarrierRequested ==> t.promptBarrierRequested && t.barrierBusy == s.barrierBusy)
      && (!t.promptBarrierRequested ==> t.barrierBusy == s.barrierBusy)
      && (s.barrierBusy ==> t.barrierBusy)
      && (t.barrierBusy && !s.barrierBusy && s.prompt.Some? ==>
            s.prompt.value > s.barrierCompleted || !s.barrierFence)
      && (s.prompt.Some? && s.terminalAsked && s.terminalReady && s.steers == [] && s.pending == [] ==>
            t.promptBarrierRequested)
  {
    var t := MaybePromptBarrier(s, true);
    if t != s {
      var u := s.(promptBarrierRequested := true);
      Requested(u, s.prompt.value);
      assert t == RequestBarrier(u, s.prompt.value, true);
    }
    hide RequestBarrier;
  }

  lemma NothingDrained(s: State)
    ensures
      var t := DrainUpdates(s, Drained([], false));
      && Stays(s, t) && SameQueue(s, t) && SameBarrier(s, t) && t.updatesDrained
      && t.promptBarrierRequested == s.promptBarrierRequested && t.barrierBusy == s.barrierBusy
  {
    if s.updatesOpen {
      assert AcceptUpdates(s, []) == s;
      hide AcceptUpdates;
    }
  }

  lemma Prepared(s: State, pick: Pick)
    requires s.prompt.Some? && s.terminalAsked
    ensures Prepare(s, Quiet(pick)) == MaybePromptBarrier(s, true)
  {
    assert AcceptCommands(s, []) == s;
    hide MaybePromptBarrier;
  }

  /** The prompt's observation, once it is due. */
  lemma PromptQueued(s: State, top: nat)
    requires Winding(s, top)
    ensures
      var t := QueuePrompt(s);
      && Stays(s, t) && SameBarrier(s, t) && t.updatesDrained == s.updatesDrained && Below(t.pending, top)
      && t.promptBarrierRequested == s.promptBarrierRequested && t.barrierBusy == s.barrierBusy
      && |t.pending| + One(!t.promptQueued) == |s.pending| + One(!s.promptQueued)
      && (s.updatesDrained ==> t.promptQueued) && (!s.updatesDrained ==> t.pending == s.pending)
      && (t.promptQueued == s.promptQueued ==> t.pending == s.pending)
  {
    var t := QueuePrompt(s);
    if s.updatesDrained && !s.promptQueued {
      assert t.promptQueued;
      assert t.pending == s.pending + [Entry(s.stamps, Prompt, s.prompt.value, 0, SILENCE, SILENCE)];
    } else {
      assert t == s;
    }
  }

  lemma {:induction false} BestIsPositive(q: seq<Entry>, n: nat)
    requires 0 < n <= |q|
    ensures q[BestOf(q, n)].sequence == 0 ==> forall k :: 0 <= k < n ==> q[k].sequence == 0
    decreases n
  {
    if n > 1 {
      BestIsPositive(q, n - 1);
    }
  }

  /** An emission leaves these fields alone. */
  predicate Published(s: State, t: State) {
    && Stays(s, t) && SameQueue(s, t) && SameBarrier(s, t) && t.updatesDrained == s.updatesDrained
    && t.promptBarrierRequested == s.promptBarrierRequested && t.barrierBusy == s.barrierBusy
  }

  lemma ObservationOut(s: State, e: Entry)
    ensures Published(s, EmitObservation(s, e))
  {
    var u := Note(s, Emitted(e));
    assert Published(s, u);
    if e.kind.Steer? {
      assert Published(u, Note(u, Answered(e.kind.owner, e.answer)).(released := s.released + {e.kind.owner}));
    }
  }

  lemma RawOut(s: State, i: nat)
    requires i < |s.pending|
    ensures
      var t := EmitRaw(s, i);
      && Stays(s, t) && SameBarrier(s, t) && t.updatesDrained == s.updatesDrained
      && t.pending == s.pending[..i] + s.pending[i + 1..] && t.promptQueued == s.promptQueued
      && t.promptBarrierRequested == s.promptBarrierRequested && t.barrierBusy == s.barrierBusy
  {
    var e := s.pending[i];
    var rest := s.pending[..i] + s.pending[i + 1..];
    ObservationOut(s.(pending := rest, lastRaw := e.sequence, lastOrder := Max(s.lastOrder, e.sequence)), e);
    hide EmitObservation;
  }

  lemma LocalOut(s: State, i: nat)
    requires i < |s.pending|
    ensures
      var t := EmitLocal(s, i);
      && Stays(s, t) && SameBarrier(s, t) && t.updatesDrained == s.updatesDrained
      && t.pending == s.pending[..i] + s.pending[i + 1..] && t.promptQueued == s.promptQueued
      && t.promptBarrierRequested == s.promptBarrierRequested && t.barrierBusy == s.barrierBusy
  {
    var order := Max(s.lastOrder, s.lastRaw) + 1;
    var rest := s.pending[..i] + s.pending[i + 1..];
    hide WithLocalOrder, EmitObservation;
    var u, e := s.(pending := rest, lastOrder := order), WithLocalOrder(s.pending[i], order);
    ObservationOut(u, e);
    assert EmitLocal(s, i) == EmitObservation(u, e);
    hide EmitLocal;
  }

  lemma {:induction false} Flushed(s: State, q: seq<Entry>)
    requires s.pending == q
    ensures
      var t := FlushPending(s, q);
      t.exit == s.exit && t.failed == s.failed && t.pending == []
      && t.prompt == s.prompt && t.terminalAsked == s.terminalAsked && t.terminalReady == s.terminalReady
      && t.steers == s.steers && t.hasBarrier == s.hasBarrier
    decreases |q|
  {
    if q != [] {
      Flushed(Flush(s.(pending := q[1..]), q[0]), q[1..]);
    }
  }

  /** The order is broken: everything pending is flushed. */
  lemma Broken(s: State, top: nat)
    requires Winding(s, top) && !s.failed
    ensures
      var t := FailSequence(s, map[]);
      Winding(t, top) && t.failed
  {
    var u := s.(failed := true, steeringOff := true);
    Flushed(u, s.pending);
    assert FlushSteers(u, [], map[]) == u;
    hide FlushPending;
  }

  /** What a try to emit comes to: something is out, or the order broke, or a barrier stands in the way. */
  lemma Tried(s: State, top: nat)
    requires Winding(s, top) && !s.failed
    ensures
      var e := TryEmit(s, true, map[]);
      && Winding(e.s, top)
      && (e.again ==> e.s.failed || OneOut(s, e.s))
      && (!e.again ==>
            && Stays(s, e.s) && SameQueue(s, e.s) && SameBarrier(s, e.s) && e.s.updatesDrained == s.updatesDrained
            && e.s.promptBarrierRequested == s.promptBarrierRequested
            && (s.pending == [] ==> e.s == s)
            && (s.pending != [] ==> e.s.barrierBusy && (s.barrierCompleted < top || !s.barrierFence)))
  {
    if s.pending != [] {
      var i := BestOf(s.pending, |s.pending|);
      var e := s.pending[i];
      assert e in s.pending;
      BestIsPositive(s.pending, |s.pending|);
      if e.sequence != 0 {
        if e.sequence < s.lastRaw {
          Broken(s, top);
        } else if !e.kind.Update? && e.sequence > s.barrierCompleted {
          Requested(s, e.sequence);
        } else {
          RawOut(s, i);
          FewerBelow(s.pending, i, top);
        }
      } else {
        assert !HasPositive(s.pending);
        if !s.barrierFence {
          Requested(s, 0);
        } else {
          LocalOut(s, i);
          FewerBelow(s.pending, i, top);
        }
      }
    }
    hide EmitRaw, EmitLocal, RequestBarrier, FailSequence, BestOf, HasPositive;
  }

  predicate OneOut(s: State, t: State) {
    && Stays(s, t) && SameBarrier(s, t) && t.updatesDrained == s.updatesDrained
    && |t.pending| == |s.pending| - 1 && t.promptQueued == s.promptQueued
    && t.promptBarrierRequested == s.promptBarrierRequested && t.barrierBusy == s.barrierBusy
  }

  lemma FewerBelow(q: seq<Entry>, i: nat, top: nat)
    requires i < |q| && Below(q, top)
    ensures Below(q[..i] + q[i + 1..], top)
  {
  }

  /** The barrier worker's answer. */
  lemma WorkerAnswers(s: State, top: nat, sequence: nat)
    requires Winding(s, top) && !s.failed
    ensures
      var t := TakeBarrierResult(s, sequence, Drained([], false));
      && Stays(s, t) && SameQueue(s, t) && t.updatesDrained && !t.barrierBusy
      && t.promptBarrierRequested == s.promptBarrierRequested
      && t.barrierCompleted == Max(s.barrierCompleted, sequence)
      && t.barrierFence == (s.barrierFence || sequence == 0)
  {
    var u := Note(s.(barrierBusy := false, barrierCompleted := Max(s.barrierCompleted, sequence),
                     barrierFence := s.barrierFence || sequence == 0), Fence(sequence));
    NothingDrained(u);
    hide DrainUpdates;
  }

  /** An answer that was waited for. */
  lemma AnswerWorks(s: State, top: nat)
    requires Winding(s, top) && !s.failed && s.barrierBusy
    ensures
      var t := Select(s, Quiet(BarrierReady(AnswerTo(s, top))));
      Winding(t, top) && Work(t, top) < Work(s, top)
  {
    WorkerAnswers(s, top, AnswerTo(s, top));
    hide TakeBarrierResult;
  }

  /** The rest of a pass: less is to be done, if what was asked for at its begin is still what is asked for. */
  lemma AdvanceWorks(s: State, top: nat, asked: bool, pick: Pick)
    requires Winding(s, top) && !s.failed && (asked ==> s.barrierBusy)
    requires pick == if asked then BarrierReady(AnswerTo(s, top)) else PromptReady(0)
    requires s.pending == [] && !s.updatesDrained ==> s.barrierBusy
    ensures
      var t := Advance(s, Quiet(pick));
      && (t.exit == Running ==> Winding(t, top)) && Work(t, top) <= Work(s, top)
      && (asked == s.barrierBusy ==> Work(t, top) < Work(s, top))
      && t.exit in {Running, ByTerminal}
  {
    var p := Quiet(pick);
    var q := QueuePrompt(s);
    PromptQueued(s, top);
    assert Winding(q, top) && Work(q, top) == Work(s, top);
    var e := TryEmit(q, true, map[]);
    Tried(q, top);
    assert Advance(s, p) ==
      if e.again then e.s
      else if TerminalDue(e.s) then Leave(Note(e.s, Finished), ByTerminal)
      else Select(e.s, p);
    hide QueuePrompt, TryEmit, Advance;
    if e.again {
      LessWork(q, e.s, top);
    } else if TerminalDue(e.s) {
      assert Leave(Note(e.s, Finished), ByTerminal).exit == ByTerminal;
      StillWorking(s, top);
      hide Winding;
    } else {
      BusyWork(q, e.s, top);
      if asked {
        assert AnswerTo(e.s, top) == AnswerTo(s, top);
        AnswerWorks(e.s, top);
        hide Select, Winding, Work, AnswerTo, Stays, SameQueue, SameBarrier;
      } else {
        assert Select(e.s, p) == e.s;
        hide Select, Work, AnswerTo;
      }
    }
  }

  /** What a barrier asked for is worth. */
  lemma BusyWork(s: State, t: State, top: nat)
    requires Winding(s, top) && !s.failed && Winding(t, top) && Stays(s, t) && SameQueue(s, t) && SameBarrier(s, t)
    requires t.updatesDrained == s.updatesDrained && t.promptBarrierRequested == s.promptBarrierRequested
    requires s.pending == [] ==> t == s
    requires s.pending != [] ==> t.barrierBusy && (s.barrierCompleted < top || !s.barrierFence)
    ensures Work(t, top) <= Work(s, top)
    ensures s.pending != [] && !s.barrierBusy ==> Work(t, top) < Work(s, top)
  {
  }

  lemma LessWork(s: State, t: State, top: nat)
    requires Winding(s, top) && !s.failed && Winding(t, top) && (t.failed || OneOut(s, t))
    ensures Work(t, top) < Work(s, top)
  {
  }

  /** The prompt's barrier, if it is asked for now. */
  lemma PreparedWork(s: State, top: nat)
    requires Winding(s, top) && !s.failed
    ensures
      var t := MaybePromptBarrier(s, true);
      && Winding(t, top) && !t.failed && Work(t, top) <= Work(s, top) && (s.barrierBusy ==> t.barrierBusy)
      && (t.barrierBusy != s.barrierBusy ==> Work(t, top) < Work(s, top))
      && t.barrierCompleted == s.barrierCompleted
      && (t.pending == [] ==> t.promptBarrierRequested)
  {
    PromptRequested(s);
    hide MaybePromptBarrier;
  }

  lemma TripWorks(s: State, top: nat)
    requires Winding(s, top)
    ensures
      var t := Trip(s, Answering(s, top));
      && (t.exit == Running ==> Winding(t, top)) && Work(t, top) < Work(s, top)
      && t.exit in {Running, ByTerminal, ByRegression}
  {
    var p := Answering(s, top);
    if s.failed {
      assert Trip(s, p) == Leave(s, ByRegression);
    } else {
      var s1 := MaybePromptBarrier(s, true);
      Prepared(s, p.pick);
      PreparedWork(s, top);
      hide Prepare, MaybePromptBarrier;
      if MustDrain(s1) {
        var s2 := DrainUpdates(s1, Drained([], false));
        NothingDrained(s1);
        assert Winding(s2, top) && Work(s2, top) < Work(s1, top);
        assert AnswerTo(s2, top) == AnswerTo(s, top) && !s.barrierBusy;
        hide DrainUpdates, Advance;
        AdvanceWorks(s2, top, s.barrierBusy, p.pick);
      } else {
        assert AnswerTo(s1, top) == AnswerTo(s, top);
        hide DrainUpdates, Advance;
        AdvanceWorks(s1, top, s.barrierBusy, p.pick);
      }
    }
  }

  lemma {:induction false} AnswersWork(s: State, top: nat, n: nat)
    requires Winding(s, top) && Work(s, top) <= n
    ensures AfterAnswers(s, top, n).exit in {ByTerminal, ByRegression}
    decreases n
  {
    hide Trip, Winding, Answering;
    assert s.exit == Running && n > 0 by {
      StillWorking(s, top);
    }
    TripWorks(s, top);
    var t := Trip(s, Answering(s, top));
    if t.exit == Running {
      AnswersWork(t, top, n - 1);
    } else {
      Over(t, top, n - 1);
    }
  }

  lemma StillWorking(s: State, top: nat)
    requires Winding(s, top)
    ensures s.exit == Running && Work(s, top) > 0
  {
  }

  lemma {:induction false} Over(s: State, top: nat, n: nat)
    requires s.exit != Running
    ensures AfterAnswers(s, top, n) == s
    decreases n
  {
    if n > 0 {
      Over(s, top, n - 1);
    }
  }

  /**
    From any state in which the prompt's result has arrived, no steering call is out, the terminal is
    complete and the barrier worker lives: its answers alone, each to a question the arbiter asked, bring
    it to its end, the terminal's or that of a sequence regression, within a number of passes that the
    observations pending bound.
   */
  lemma ArbiterComesToItsEnd(s: State, top: nat)
    requires Winding(s, top)
    ensures AfterAnswers(s, top, 3 * |s.pending| + 14).exit in {ByTerminal, ByRegression}
  {
    assert Work(s, top) <= 3 * |s.pending| + 14;
    AnswersWork(s, top, 3 * |s.pending| + 14);
    hide Winding, Work, AfterAnswers;
  }

  // ---------------------------------------------------------------- the terminal is asked for

  /** The prompt's result and the terminal marker are not forgotten. */
  predicate Remembers(s: State, t: State) {
    (s.prompt.Some? ==> t.prompt == s.prompt) && (s.terminalAsked ==> t.terminalAsked)
  }

  lemma RemembersTwice(s: State, t: State, u: State)
    requires Remembers(s, t) && Remembers(t, u)
    ensures Remembers(s, u)
  {
  }

  lemma AcceptCommandRemembers(s: State, c: Command)
    ensures Remembers(s, AcceptCommand(s, c))
  {
    var d := c.(submittable := c.submittable && s.reportsOpen);
    var s1 := Note(s, Received(s.received, d, Enabled(s)));
    assert s1.prompt == s.prompt && s1.terminalAsked == s.terminalAsked;
    TakeCommandRemembers(s1, d);
    hide TakeCommand, Note;
  }

  lemma TakeCommandRemembers(s: State, c: Command)
    ensures Remembers(s, TakeCommand(s, c))
  {
    hide TakeCommand;
    if c.hasReply {
      PlacedRemembers(s, c);
    } else {
      DroppedRemembers(s, c);
    }
  }

  lemma PlacedRemembers(s: State, c: Command)
    requires c.hasReply
    ensures Remembers(s, TakeCommand(s, c))
  {
    hide Judge, Enqueue, Remembers, Enabled;
    match Judge(c, Enabled(s)) {
      case Local(reply) => LocalRemembers(s, reply);
      case Submit => SubmitRemembers(s);
    }
  }

  /** The state in which a command has been taken. */
  function Taken(s: State): State {
    Note(s.(received := s.received + 1), Took(s.received))
  }

  lemma LocalRemembers(s: State, reply: Reply)
    ensures Remembers(s, Enqueue(Taken(s), Steer(s.received), reply.result.receiveSequence, reply))
  {
    SameRemembers(s, Enqueue(Taken(s), Steer(s.received), reply.result.receiveSequence, reply));
    hide Remembers;
  }

  lemma SubmitRemembers(s: State)
    ensures Remembers(s, Note(Taken(s).(steers := s.steers + [s.received]), Submitted(s.received)))
  {
    SameRemembers(s, Note(Taken(s).(steers := s.steers + [s.received]), Submitted(s.received)));
    hide Remembers;
  }

  lemma DroppedRemembers(s: State, c: Command)
    requires !c.hasReply
    ensures Remembers(s, TakeCommand(s, c))
  {
    hide Place, Judge, Note, Enabled;
  }

  lemma {:induction false} AcceptCommandsRemember(s: State, cs: seq<Command>)
    ensures Remembers(s, AcceptCommands(s, cs))
    decreases |cs|
  {
    hide AcceptCommand;
    if cs != [] {
      AcceptCommandRemembers(s, cs[0]);
      AcceptCommandsRemember(AcceptCommand(s, cs[0]), cs[1..]);
    }
  }

  lemma {:induction false} EnqueueUpdatesRemember(s: State, events: nat, sequence: nat)
    ensures Remembers(s, EnqueueUpdates(s, events, sequence))
    decreases events
  {
    if events > 0 {
      EnqueueUpdatesRemember(Enqueue(s, Update, sequence, SILENCE), events - 1, sequence);
    }
  }

  lemma AcceptUpdateRemembers(s: State, u: Notification)
    ensures Remembers(s, AcceptUpdate(s, u))
  {
    EnqueueUpdatesRemember(Note(s, Notified(u)), u.events, u.sequence);
    hide EnqueueUpdates;
  }

  lemma {:induction false} AcceptUpdatesRemember(s: State, us: seq<Notification>)
    ensures Remembers(s, AcceptUpdates(s, us))
    decreases |us|
  {
    hide AcceptUpdate;
    if us != [] {
      AcceptUpdateRemembers(s, us[0]);
      AcceptUpdatesRemember(AcceptUpdate(s, us[0]), us[1..]);
    }
  }

  lemma DrainRemembers(s: State, d: Drained)
    ensures Remembers(s, DrainUpdates(s, d))
  {
    AcceptUpdatesRemember(s, d.updates);
    hide AcceptUpdates;
  }

  lemma RequestRemembers(s: State, sequence: nat, barrierTakes: bool)
    ensures Remembers(s, RequestBarrier(s, sequence, barrierTakes))
  {
  }

  lemma PromptBarrierRemembers(s: State, barrierTakes: bool)
    ensures Remembers(s, MaybePromptBarrier(s, barrierTakes))
  {
    if s.prompt.Some? {
      RequestRemembers(s.(promptBarrierRequested := true), s.prompt.value, barrierTakes);
    }
    hide RequestBarrier;
  }

  lemma AnswerRemembers(s: State, r: D.Report, barrierTakes: bool)
    requires r.Report?
    ensures Remembers(s, AcceptAnswer(s, r, barrierTakes))
  {
    var s1 := s.(steers := Without(s.steers, r.id));
    var s2 := if s1.terminalAsked && s1.steers == [] then MaybePromptBarrier(s1, barrierTakes) else s1;
    PromptBarrierRemembers(s1, barrierTakes);
    assert Remembers(s, s2);
    hide MaybePromptBarrier, Without;
    QueuedRemembers(s, s1, r);
    QueuedRemembers(s, s2, r);
    hide Remembers, Answer, Ambiguous, GuaranteesNoDelivery, Enqueue, Disable;
  }

  /** The last thing an answer comes to. */
  function QueuedAnswer(s: State, r: D.Report): State
    requires r.Report?
  {
    var reply := Answer(r.id, r.result, r.err, r.admission, r.late);
    var outcome := reply.result.outcome;
    if r.late then Enqueue(Disable(s, Ambiguous(outcome) || outcome.AdmissionUnknown?), Steer(r.id), 0, reply)
    else
      Enqueue(Disable(s, Ambiguous(outcome) || GuaranteesNoDelivery(r.err)), Steer(r.id), reply.result.receiveSequence,
              reply)
  }

  lemma QueuedRemembers(s: State, t: State, r: D.Report)
    requires r.Report? && Remembers(s, t)
    ensures Remembers(s, QueuedAnswer(t, r))
  {
    var reply := Answer(r.id, r.result, r.err, r.admission, r.late);
    hide Answer, Ambiguous, GuaranteesNoDelivery, Enqueue, Disable;
    var outcome := reply.result.outcome;
    var off := Ambiguous(outcome) || if r.late then outcome.AdmissionUnknown? else GuaranteesNoDelivery(r.err);
    var sequence := if r.late then 0 else reply.result.receiveSequence;
    OffRemembers(s, t, off);
    EnqueueRemembers(s, Disable(t, off), Steer(r.id), sequence, reply);
    hide Remembers;
  }

  lemma OffRemembers(s: State, t: State, off: bool)
    requires Remembers(s, t)
    ensures Remembers(s, Disable(t, off))
  {
  }

  lemma EnqueueRemembers(s: State, t: State, kind: Kind, sequence: nat, reply: Reply)
    requires Remembers(s, t)
    ensures Remembers(s, Enqueue(t, kind, sequence, reply))
  {
  }

  lemma ReportRemembers(s: State, r: D.Report, barrierTakes: bool)
    ensures Remembers(s, AcceptReport(s, r, barrierTakes))
  {
    var s1 := Note(s, Told(r));
    assert Remembers(s, s1);
    assert Remembers(s, s1.(terminalReady := true));
    hide Note, Disable, AcceptAnswer, Remembers;
    if r.TerminalComplete? {
    } else if r.id in s1.steers {
      AnswerRemembers(s1, r, barrierTakes);
      RemembersTwice(s, s1, AcceptAnswer(s1, r, barrierTakes));
    } else {
      OffRemembers(s, s1, r.late || r.err != D.NoError || r.result.writeAdmitted);
    }
  }

  lemma {:induction false} FlushRemembers(s: State, q: seq<Entry>)
    ensures Remembers(s, FlushPending(s, q))
    decreases |q|
  {
    if q != [] {
      FlushRemembers(Flush(s.(pending := q[1..]), q[0]), q[1..]);
    }
  }

  lemma {:induction false} FlushSteersRemember(s: State, ids: seq<nat>, attempts: map<nat, Admission>)
    ensures Remembers(s, FlushSteers(s, ids, attempts))
    decreases |ids|
  {
    if ids != [] {
      var u := s.(steers := ids[1..]);
      assert Remembers(u, Flush(u, Failure(ids[0], attempts)));
      hide Flush, Failure;
      FlushSteersRemember(Flush(u, Failure(ids[0], attempts)), ids[1..], attempts);
    }
  }

  lemma FailRemembers(s: State, attempts: map<nat, Admission>)
    ensures Remembers(s, FailSequence(s, attempts))
  {
    var u := s.(failed := true, steeringOff := true);
    FlushSteersRemember(u, s.steers, attempts);
    FlushRemembers(FlushSteers(u, s.steers, attempts), s.pending);
    hide FlushSteers, FlushPending;
  }

  lemma EmitRemembers(s: State, barrierTakes: bool, attempts: map<nat, Admission>)
    ensures Remembers(s, TryEmit(s, barrierTakes, attempts).s)
  {
    if s.pending != [] {
      var i := BestOf(s.pending, |s.pending|);
      FailRemembers(s, attempts);
      RequestRemembers(s, s.pending[i].sequence, barrierTakes);
      RequestRemembers(s, 0, barrierTakes);
      RawOut(s, i);
      LocalOut(s, i);
    }
    hide FailSequence, RequestBarrier, EmitRaw, EmitLocal, BestOf, HasPositive;
  }

  lemma SelectRemembers(s: State, p: Pass)
    ensures Remembers(s, Select(s, p))
  {
    assert Remembers(s, s);
    hide AcceptUpdate, AcceptCommand, AcceptReport, TakeBarrierResult, Leave, Note, Remembers;
    match p.pick {
      case UpdateReady(u) => AcceptUpdateRemembers(s, u);
      case CommandReady(c) => AcceptCommandRemembers(s, c);
      case ReportReady(r) => ReportRemembers(s, r, p.barrierTakes);
      case BarrierReady(sequence) => BarrierRemembers(s, sequence, p.drainedAfter);
      case _ =>
        QuietRemembers(s, p);
        hide Select;
    }
  }

  lemma QuietRemembers(s: State, p: Pass)
    requires p.pick in {UpdatesClosed, ReportsClosed, BarrierClosed, ShuttingDown} || p.pick.PromptReady?
    ensures Remembers(s, Select(s, p))
  {
    match p.pick {
      case PromptReady(sequence) => ArrivalRemembers(s, sequence);
      case ShuttingDown => LeaveRemembers(s, ByShutdown);
      case UpdatesClosed => SameRemembers(s, s.(updatesOpen := false));
      case ReportsClosed => SameRemembers(s, s.(reportsOpen := false));
      case BarrierClosed => SameRemembers(s, s.(hasBarrier := false, barrierBusy := false));
    }
    hide Remembers, Leave, Note;
  }

  lemma ArrivalRemembers(s: State, sequence: nat)
    ensures
      Remembers(s, if s.prompt.None? then Note(s.(prompt := Some(sequence)), Arrived(sequence)) else s)
  {
    if s.prompt.Some? {
      SameRemembers(s, s);
      hide Remembers;
    }
  }

  lemma SameRemembers(s: State, t: State)
    requires t.prompt == s.prompt && t.terminalAsked == s.terminalAsked
    ensures Remembers(s, t)
  {
  }

  lemma LeaveRemembers(s: State, exit: Exit)
    ensures Remembers(s, Leave(s, exit))
  {
  }

  lemma BarrierRemembers(s: State, sequence: nat, d: Drained)
    ensures Remembers(s, TakeBarrierResult(s, sequence, d))
  {
    var u := Note(s.(barrierBusy := false, barrierCompleted := Max(s.barrierCompleted, sequence),
                     barrierFence := s.barrierFence || sequence == 0), Fence(sequence));
    assert Remembers(s, u);
    DrainRemembers(u, d);
    hide DrainUpdates;
  }

  lemma AdvanceRemembers(s: State, p: Pass)
    ensures Remembers(s, Advance(s, p))
  {
    var q := QueuePrompt(s);
    var e := TryEmit(q, p.barrierTakes, p.attempts);
    assert Remembers(s, q);
    EmitRemembers(q, p.barrierTakes, p.attempts);
    SelectRemembers(e.s, p);
    assert Remembers(e.s, Leave(Note(e.s, Finished), ByTerminal));
    hide QueuePrompt, TryEmit, Select, Leave;
  }

  lemma BeginAsks(s: State, cs: seq<Command>, markerTaken: bool)
    ensures BeginTerminal(s, cs, markerTaken).terminalAsked && Remembers(s, BeginTerminal(s, cs, markerTaken))
    ensures !markerTaken ==> BeginTerminal(s, cs, markerTaken).terminalReady
  {
    var u := Note(s.(terminalAsked := true, updatesDrained := false), TerminalAsked);
    assert Remembers(s, u);
    AcceptCommandsRemember(u, cs);
    hide AcceptCommands;
  }

  lemma PrepareAsks(s: State, p: Pass)
    requires s.prompt.Some?
    ensures Prepare(s, p).terminalAsked && Remembers(s, Prepare(s, p))
  {
    var s1 := AcceptCommands(s, p.queued);
    var s2 := if s1.prompt.Some? && !s1.terminalAsked then BeginTerminal(s1, p.queuedAtTerminal, p.markerTaken) else s1;
    AcceptCommandsRemember(s, p.queued);
    BeginAsks(s1, p.queuedAtTerminal, p.markerTaken);
    PromptBarrierRemembers(s2, p.barrierTakes);
    hide AcceptCommands, BeginTerminal, MaybePromptBarrier;
  }

  /** The pass after the prompt's result arrived asks for the terminal, whatever else there is to do. */
  lemma PromptAsksForTerminal(s: State, p: Pass)
    requires s.exit == Running && s.prompt.Some? && !s.failed && !p.shutdown
    ensures Trip(s, p).terminalAsked && Trip(s, p).prompt == s.prompt
  {
    var s1 := Prepare(s, p);
    PrepareAsks(s, p);
    var s2 := DrainUpdates(s1, p.drained);
    DrainRemembers(s1, p.drained);
    AdvanceRemembers(s1, p);
    AdvanceRemembers(s2, p);
    hide Prepare, DrainUpdates, Advance, MustDrain;
  }
}
