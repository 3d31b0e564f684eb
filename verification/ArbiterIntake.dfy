/**
  Nothing that reaches the arbiter is lost, and nothing is made up: what it accepts and submits is
  exactly what the updates, the commands, the reports and the prompt result call for.
 */
module ArbiterIntake {
  import opened Options
  import opened DriverContract
  import opened Admission
  import opened AcpSteering
  import opened ArbiterModel
  import opened ArbiterProtocol
  import opened ArbiterTheorems
  import D = DispatcherModel

  /** An observation of an update, or of a steering call. */
  datatype Item = Observed(sequence: nat) | Replied(id: nat, sequence: nat, reply: Reply)

  /**
    `due` and `dueCalls` are the observations and provider calls that what arrived calls for, `got`
    and `calls` those accepted and submitted; `out` are the calls without a report. `swept` says that
    the last look for updates found none since the terminal was asked for, `timely` that every
    prompt observation was accepted then, for the prompt result that arrived, and for the first time.
   */
  datatype Inflow = Inflow(
    due: seq<Item>, got: seq<Item>, dueCalls: seq<nat>, calls: seq<nat>, out: set<nat>,
    prompt: Option<nat>, prompts: seq<nat>, asked: bool, swept: bool, timely: bool)

  function Copies(n: nat, item: Item): seq<Item> {
    if n == 0 then [] else [item] + Copies(n - 1, item)
  }

  /** The provider is called: the caller still waits, the call is well formed, new and possible. */
  predicate Deliverable(c: Command, enabled: bool) {
    !c.cancelled && c.admission == Pending && c.valid && c.textual && enabled && c.submittable
  }

  /** Otherwise the answer says whether a retry is safe; only a switched-off driver is no error. */
  function Refusal(c: Command, enabled: bool): Reply {
    if c.cancelled || c.admission == NotAdmitted then Reply(DriverContract.Local(FallbackRequired), true)
    else if c.admission != Pending then Reply(DriverContract.Local(AdmissionUnknown), true)
    else if c.valid && enabled && c.textual then Reply(DriverContract.Local(FallbackRequired), true)
    else Reply(DriverContract.Local(Unsupported), !c.valid || enabled)
  }

  function Flow(f: Inflow, d: Deed): Inflow {
    match d
    case Notified(u) => if u.replay then f else f.(due := f.due + Copies(u.events, Observed(u.sequence)))
    case Received(id, c, enabled) =>
      if !c.hasReply then f
      else if Deliverable(c, enabled) then f.(dueCalls := f.dueCalls + [id], out := f.out + {id})
      else f.(due := f.due + [Replied(id, 0, Refusal(c, enabled))])
    case Told(Report(id, result, err, admission, late)) =>
      if id !in f.out then f
      else
        var reply := Answer(id, result, err, admission, late);
        f.(out := f.out - {id}, due := f.due + [Replied(id, reply.result.receiveSequence, reply)])
    case Arrived(sequence) => f.(prompt := Some(sequence), timely := f.timely && f.prompt.None?)
    case TerminalAsked => f.(asked := true, swept := false)
    case Swept(empty) => f.(swept := empty)
    case Accepted(e) =>
      (match e.kind
       case Update => f.(got := f.got + [Observed(e.sequence)])
       case Steer(id) => f.(got := f.got + [Replied(id, e.sequence, e.answer)])
       case Prompt =>
         var inTime := f.prompt == Some(e.sequence) && f.asked && f.swept && f.prompts == [];
         f.(prompts := f.prompts + [e.sequence], timely := f.timely && inTime))
    case Submitted(id) => f.(calls := f.calls + [id])
    case _ => f
  }

  function InflowOf(t: Trace): Inflow {
    if t.Start? then Inflow([], [], [], [], {}, None, [], false, false, true) else Flow(InflowOf(t.past), t.deed)
  }

  /** The fields that the intake looks at. */
  datatype View = View(
    prompt: Option<nat>, asked: bool, drained: bool, queued: bool, exit: Exit, failed: bool,
    steers: seq<nat>, received: nat)

  function ViewOf(s: State): View {
    View(s.prompt, s.terminalAsked, s.updatesDrained, s.promptQueued, s.exit, s.failed, s.steers, s.received)
  }

  /**
    What the arbiter's fields say is what the trace says, and the calls that wait for a report are
    those that are out.
   */
  ghost predicate Even(f: Inflow, v: View) {
    && f.due == f.got && f.dueCalls == f.calls
    && f.timely && f.prompt == v.prompt && f.asked == v.asked && f.swept == v.drained
    && (v.queued ==> v.prompt.Some?)
    && f.prompts == (if v.queued then [v.prompt.value] else [])
    && (v.exit == ByTerminal ==> v.queued)
    && (v.exit == Running && !v.failed ==> Waits(f.out, v.steers, v.received))
  }

  ghost predicate Waits(out: set<nat>, steers: seq<nat>, received: nat) {
    Distinct(steers) && (forall id :: id in steers ==> id < received) && forall id :: id in out <==> id in steers
  }

  ghost predicate Balanced(s: State) {
    Even(InflowOf(s.trace), ViewOf(s))
  }

  ghost predicate Open(s: State) {
    Balanced(s) && s.exit == Running && !s.failed
  }

  lemma FlowThen(t: Trace, d: Deed)
    ensures InflowOf(Then(t, d)) == Flow(InflowOf(t), d)
  {
  }

  /** The deeds that are no part of the intake. */
  predicate Outgoing(d: Deed) {
    d.Took? || d.Fence? || d.Emitted? || d.Flushed? || d.Answered? || d.Broke? || d.Finished?
  }

  lemma OutgoingKeeps(t: Trace, d: Deed)
    requires Outgoing(d)
    ensures InflowOf(Then(t, d)) == InflowOf(t)
  {
  }

  /** The same intake and the same view of it. */
  predicate Alike(s: State, t: State) {
    ViewOf(t) == ViewOf(s) && InflowOf(t.trace) == InflowOf(s.trace)
  }

  lemma AlikeBalances(s: State, t: State)
    requires Alike(s, t)
    ensures Balanced(s) ==> Balanced(t)
    ensures Open(s) ==> Open(t)
  {
  }

  /** The loop ends, or stops merging. */
  lemma EndBalances(s: State, t: State)
    requires Balanced(s) && InflowOf(t.trace) == InflowOf(s.trace)
    requires ViewOf(t) == ViewOf(s).(exit := t.exit, failed := t.failed, steers := t.steers)
    requires (t.exit == ByTerminal ==> t.promptQueued) && (t.exit != Running || t.failed)
    ensures Balanced(t)
  {
  }

  // ---------------------------------------------------------------- updates

  lemma {:induction false} CopiesSnoc(n: nat, item: Item)
    ensures Copies(n + 1, item) == Copies(n, item) + [item]
  {
    if n != 0 {
      CopiesSnoc(n - 1, item);
    }
  }

  lemma {:induction false} EnqueuedUpdates(s: State, n: nat, sequence: nat)
    ensures
      var t, f := EnqueueUpdates(s, n, sequence), InflowOf(s.trace);
      InflowOf(t.trace) == f.(got := f.got + Copies(n, Observed(sequence))) && ViewOf(t) == ViewOf(s)
    decreases n
  {
    if n != 0 {
      var s1 := Enqueue(s, Update, sequence, SILENCE);
      EnqueuedUpdates(s1, n - 1, sequence);
      var got, item := InflowOf(s.trace).got, Observed(sequence);
      assert InflowOf(s1.trace).got == got + [item];
      assert (got + [item]) + Copies(n - 1, item) == got + ([item] + Copies(n - 1, item));
    } else {
      assert InflowOf(s.trace).got + [] == InflowOf(s.trace).got;
    }
  }

  lemma UpdatesEven(f: Inflow, v: View, items: seq<Item>)
    requires Even(f, v)
    ensures Even(f.(due := f.due + items, got := f.got + items), v)
  {
  }

  lemma AcceptUpdateBalances(s: State, u: Notification)
    requires Open(s)
    ensures Open(AcceptUpdate(s, u))
  {
    var f, s1 := InflowOf(s.trace), Note(s, Notified(u));
    var items := Copies(u.events, Observed(u.sequence));
    FlowThen(s.trace, Notified(u));
    EnqueuedUpdates(s1, u.events, u.sequence);
    UpdatesEven(f, ViewOf(s), items);
    assert ViewOf(s1) == ViewOf(s);
    hide InflowOf, EnqueueUpdates, Copies, Even;
  }

  lemma {:induction false} AcceptUpdatesBalances(s: State, us: seq<Notification>)
    requires Open(s)
    ensures Open(AcceptUpdates(s, us))
    decreases |us|
  {
    hide Open, AcceptUpdate;
    if us != [] {
      AcceptUpdateBalances(s, us[0]);
      AcceptUpdatesBalances(AcceptUpdate(s, us[0]), us[1..]);
    }
  }

  lemma SweepBalances(s: State, empty: bool, isOpen: bool)
    requires Open(s)
    ensures Open(Note(s.(updatesOpen := isOpen, updatesDrained := empty), Swept(empty)))
  {
    FlowThen(s.trace, Swept(empty));
    hide InflowOf;
  }

  lemma DrainUpdatesBalances(s: State, d: Drained)
    requires Open(s)
    ensures Open(DrainUpdates(s, d))
  {
    hide Open, AcceptUpdates;
    AcceptUpdatesBalances(s, d.updates);
    SweepBalances(s, true, s.updatesOpen);
    assert s.(updatesOpen := s.updatesOpen, updatesDrained := true) == s.(updatesDrained := true);
    SweepBalances(AcceptUpdates(s, d.updates), d.updates == [], !d.closed);
  }

  // ---------------------------------------------------------------- commands and reports

  lemma JudgeIsDeliverable(c: Command, enabled: bool)
    ensures Judge(c, enabled) == if Deliverable(c, enabled) then Submit else Verdict.Local(Refusal(c, enabled))
    ensures Refusal(c, enabled).result.receiveSequence == 0
  {
  }

  lemma RefusalEven(f: Inflow, v: View, c: Command, enabled: bool, e: Entry)
    requires Even(f, v) && c.hasReply && !Deliverable(c, enabled)
    requires e.kind == Steer(v.received) && e.sequence == 0 && e.answer == Refusal(c, enabled)
    ensures Even(Flow(Flow(f, Received(v.received, c, enabled)), Accepted(e)), v.(received := v.received + 1))
  {
    hide Refusal, Deliverable;
  }

  lemma RefusalBalances(s: State, c: Command)
    requires Open(s) && c.hasReply && !Deliverable(c, Enabled(s))
    ensures
      var s1 := Note(s, Received(s.received, c, Enabled(s)));
      var s2 := s1.(received := s.received + 1);
      Open(Enqueue(Note(s2, Took(s.received)), Steer(s.received), 0, Refusal(c, Enabled(s))))
  {
    var id, enabled, reply := s.received, Enabled(s), Refusal(c, Enabled(s));
    var e := Entry(s.stamps, Steer(id), 0, 0, reply, reply);
    var t := Then(s.trace, Received(id, c, enabled));
    FlowThen(s.trace, Received(id, c, enabled));
    OutgoingKeeps(t, Took(id));
    FlowThen(Then(t, Took(id)), Accepted(e));
    RefusalEven(InflowOf(s.trace), ViewOf(s), c, enabled, e);
    hide Refusal, Deliverable, Enabled, InflowOf, Flow, Even;
  }

  lemma SubmitEven(f: Inflow, v: View, c: Command, enabled: bool)
    requires Even(f, v) && v.exit == Running && !v.failed && c.hasReply && Deliverable(c, enabled)
    ensures Even(Flow(Flow(f, Received(v.received, c, enabled)), Submitted(v.received)),
                 v.(received := v.received + 1, steers := v.steers + [v.received]))
  {
    hide Refusal, Deliverable;
    assert forall k :: k in v.steers + [v.received] <==> k in v.steers || k == v.received;
  }

  lemma SubmitBalances(s: State, c: Command)
    requires Open(s) && c.hasReply && Deliverable(c, Enabled(s))
    ensures
      var s1 := Note(s, Received(s.received, c, Enabled(s)));
      var s2 := Note(s1.(received := s.received + 1), Took(s.received));
      Open(Note(s2.(steers := s.steers + [s.received]), Submitted(s.received)))
  {
    var id, enabled := s.received, Enabled(s);
    var t := Then(s.trace, Received(id, c, enabled));
    FlowThen(s.trace, Received(id, c, enabled));
    OutgoingKeeps(t, Took(id));
    FlowThen(Then(t, Took(id)), Submitted(id));
    SubmitEven(InflowOf(s.trace), ViewOf(s), c, enabled);
    hide Deliverable, Enabled, InflowOf, Flow, Even;
  }

  lemma DropBalances(s: State, c: Command, enabled: bool, freed: set<nat>)
    requires Open(s) && !c.hasReply
    ensures Open(Note(s, Received(s.received, c, enabled)).(received := s.received + 1, released := freed))
  {
    FlowThen(s.trace, Received(s.received, c, enabled));
    hide InflowOf;
  }

  lemma AcceptCommandBalances(s: State, c: Command)
    requires Open(s)
    ensures Open(AcceptCommand(s, c))
  {
    var d := c.(submittable := c.submittable && s.reportsOpen);
    JudgeIsDeliverable(d, Enabled(s));
    var freed := s.released + {s.received};
    hide Open, Judge, Refusal, Deliverable, Enqueue;
    if !d.hasReply {
      DropBalances(s, d, Enabled(s), freed);
    } else if Deliverable(d, Enabled(s)) {
      SubmitBalances(s, d);
    } else {
      RefusalBalances(s, d);
    }
  }

  lemma {:induction false} AcceptCommandsBalances(s: State, cs: seq<Command>)
    requires Open(s)
    ensures Open(AcceptCommands(s, cs))
    decreases |cs|
  {
    hide Open, AcceptCommand;
    if cs != [] {
      AcceptCommandBalances(s, cs[0]);
      AcceptCommandsBalances(AcceptCommand(s, cs[0]), cs[1..]);
    }
  }

  lemma ToldOutside(s: State, r: D.Report)
    requires Open(s) && (r.TerminalComplete? || r.id !in s.steers)
    ensures Alike(s, Note(s, Told(r)))
  {
  }

  lemma ToldEven(f: Inflow, v: View, r: D.Report, e: Entry)
    requires Even(f, v) && v.exit == Running && !v.failed && r.Report? && r.id in v.steers && e.kind == Steer(r.id)
    requires e.answer == Answer(r.id, r.result, r.err, r.admission, r.late)
    requires e.sequence == e.answer.result.receiveSequence
    ensures Even(Flow(Flow(f, Told(r)), Accepted(e)), v.(steers := Without(v.steers, r.id)))
  {
    WithoutElements(v.steers, r.id);
    assert forall k :: k in Without(v.steers, r.id) <==> k in SetOf(Without(v.steers, r.id));
    assert forall k :: k in v.steers <==> k in SetOf(v.steers);
    hide Answer, Without, SetOf;
  }

  lemma ToldInside(s: State, r: D.Report, t: State)
    requires Open(s) && r.Report? && r.id in s.steers
    requires t.trace == Then(s.trace, Told(r)) && ViewOf(t) == ViewOf(s).(steers := Without(s.steers, r.id))
    ensures
      var reply := Answer(r.id, r.result, r.err, r.admission, r.late);
      Open(Enqueue(t, Steer(r.id), reply.result.receiveSequence, reply))
  {
    var reply := Answer(r.id, r.result, r.err, r.admission, r.late);
    var e := Entry(t.stamps, Steer(r.id), reply.result.receiveSequence, 0, reply, reply);
    FlowThen(s.trace, Told(r));
    FlowThen(t.trace, Accepted(e));
    ToldEven(InflowOf(s.trace), ViewOf(s), r, e);
    hide Answer, Without, InflowOf, Flow, Even;
  }

  lemma LateIsLocal(r: D.Report)
    requires r.Report? && r.late
    ensures Answer(r.id, r.result, r.err, r.admission, r.late).result.receiveSequence == 0
  {
  }

  lemma BarrierFields(s: State, sequence: nat, barrierTakes: bool)
    ensures
      var t := RequestBarrier(s, sequence, barrierTakes);
      ViewOf(t) == ViewOf(s) && t.trace == s.trace
  {
  }

  lemma PromptBarrierFields(s: State, barrierTakes: bool)
    ensures
      var t := MaybePromptBarrier(s, barrierTakes);
      ViewOf(t) == ViewOf(s) && t.trace == s.trace
  {
    if s.prompt.Some? {
      BarrierFields(s.(promptBarrierRequested := true), s.prompt.value, barrierTakes);
    }
    hide RequestBarrier;
  }

  lemma DisableFields(s: State, off: bool)
    ensures ViewOf(Disable(s, off)) == ViewOf(s) && Disable(s, off).trace == s.trace
  {
  }

  lemma AcceptAnswerBalances(s: State, r: D.Report, barrierTakes: bool)
    requires Open(s) && r.Report? && r.id in s.steers
    ensures Open(AcceptAnswer(Note(s, Told(r)), r, barrierTakes))
  {
    var reply := Answer(r.id, r.result, r.err, r.admission, r.late);
    var s1 := Note(s, Told(r)).(steers := Without(s.steers, r.id));
    var s2 := if s1.terminalAsked && s1.steers == [] then MaybePromptBarrier(s1, barrierTakes) else s1;
    assert s1.trace == Then(s.trace, Told(r)) && ViewOf(s1) == ViewOf(s).(steers := Without(s.steers, r.id));
    PromptBarrierFields(s1, barrierTakes);
    var off1 := Ambiguous(reply.result.outcome) || reply.result.outcome.AdmissionUnknown?;
    var off2 := Ambiguous(reply.result.outcome) || GuaranteesNoDelivery(r.err);
    DisableFields(s1, off1);
    DisableFields(s2, off2);
    hide Open, ViewOf, Answer, MaybePromptBarrier, Without, Enqueue, Disable, Ambiguous, GuaranteesNoDelivery;
    if r.late {
      LateIsLocal(r);
      ToldInside(s, r, Disable(s1, off1));
    } else {
      ToldInside(s, r, Disable(s2, off2));
    }
  }

  lemma AcceptReportBalances(s: State, r: D.Report, barrierTakes: bool)
    requires Open(s)
    ensures Open(AcceptReport(s, r, barrierTakes))
  {
    if r.TerminalComplete? || r.id !in s.steers {
      StrayBalances(s, r, barrierTakes);
    } else {
      hide Open, AcceptAnswer;
      AcceptAnswerBalances(s, r, barrierTakes);
    }
  }

  lemma StrayBalances(s: State, r: D.Report, barrierTakes: bool)
    requires Open(s) && (r.TerminalComplete? || r.id !in s.steers)
    ensures Open(AcceptReport(s, r, barrierTakes))
  {
    var s1 := Note(s, Told(r));
    ToldOutside(s, r);
    if r.TerminalComplete? {
      assert AcceptReport(s, r, barrierTakes) == s1.(terminalReady := true);
    } else {
      DisableFields(s1, r.late || r.err != D.NoError || r.result.writeAdmitted);
    }
    hide InflowOf, AcceptAnswer, Disable;
    AlikeBalances(s, AcceptReport(s, r, barrierTakes));
  }

  // ---------------------------------------------------------------- the terminal

  lemma AskBalances(s: State)
    requires Open(s)
    ensures Open(Note(s.(terminalAsked := true, updatesDrained := false), TerminalAsked))
  {
    FlowThen(s.trace, TerminalAsked);
    hide InflowOf;
  }

  lemma BeginTerminalBalances(s: State, cs: seq<Command>, markerTaken: bool)
    requires Open(s)
    ensures Open(BeginTerminal(s, cs, markerTaken))
  {
    var s1 := Note(s.(terminalAsked := true, updatesDrained := false), TerminalAsked);
    var s2 := AcceptCommands(s1, cs);
    AskBalances(s);
    AcceptCommandsBalances(s1, cs);
    hide AcceptCommands;
    assert Alike(s2, BeginTerminal(s, cs, markerTaken)) by {
      hide InflowOf;
    }
    hide InflowOf;
    AlikeBalances(s2, BeginTerminal(s, cs, markerTaken));
  }

  lemma ArriveBalances(s: State, sequence: nat)
    requires Open(s) && s.prompt.None?
    ensures Open(Note(s.(prompt := Some(sequence)), Arrived(sequence)))
  {
    FlowThen(s.trace, Arrived(sequence));
    hide InflowOf;
  }

  lemma PromptEven(f: Inflow, v: View, e: Entry)
    requires Even(f, v) && v.asked && v.drained && !v.queued && e.kind.Prompt? && v.prompt == Some(e.sequence)
    ensures Even(Flow(f, Accepted(e)), v.(queued := true))
  {
  }

  /** The prompt's observation is accepted once its result is there and the updates are drained. */
  lemma QueuePromptBalances(s: State)
    requires Open(s)
    ensures
      var t := QueuePrompt(s);
      && Open(t) && ViewOf(t) == ViewOf(s).(queued := t.promptQueued)
      && (t.prompt.Some? && t.terminalAsked && t.updatesDrained ==> t.promptQueued)
  {
    if s.prompt.Some? && s.terminalAsked && s.updatesDrained && !s.promptQueued {
      var e := Entry(s.stamps, Prompt, s.prompt.value, 0, SILENCE, SILENCE);
      FlowThen(s.trace, Accepted(e));
      PromptEven(InflowOf(s.trace), ViewOf(s), e);
      hide InflowOf, Flow, Even;
    } else {
      assert QueuePrompt(s) == s;
    }
  }

  // ---------------------------------------------------------------- what goes out

  lemma OutgoingFields(s: State, d: Deed)
    requires Outgoing(d)
    ensures Alike(s, Note(s, d))
  {
    OutgoingKeeps(s.trace, d);
    hide InflowOf;
  }

  lemma ReplyFields(s: State, id: nat, reply: Reply, freed: set<nat>)
    ensures Alike(s, Note(s, Answered(id, reply)).(released := freed))
  {
    OutgoingKeeps(s.trace, Answered(id, reply));
    hide InflowOf;
  }

  lemma EmitObservationFields(s: State, e: Entry)
    ensures Alike(s, EmitObservation(s, e))
  {
    OutgoingFields(s, Emitted(e));
    var s1 := Note(s, Emitted(e));
    match e.kind {
      case Steer(id) => ReplyFields(s1, id, e.answer, s.released + {id});
      case _ =>
    }
    hide ViewOf, InflowOf;
  }

  lemma FlushFields(s: State, e: Entry)
    ensures Alike(s, Flush(s, e))
  {
    match e.kind {
      case Steer(id) =>
        OutgoingKeeps(s.trace, Flushed(e));
        OutgoingKeeps(Then(s.trace, Flushed(e)), Answered(id, e.answer));
      case _ =>
    }
    hide InflowOf;
  }

  lemma {:induction false} FlushSteersFields(s: State, ids: seq<nat>, attempts: map<nat, Admission>)
    ensures
      var t := FlushSteers(s, ids, attempts);
      ViewOf(t) == ViewOf(s).(steers := t.steers) && InflowOf(t.trace) == InflowOf(s.trace)
    decreases |ids|
  {
    hide Flush, Failure, InflowOf;
    if ids != [] {
      var s1 := s.(steers := ids[1..]);
      FlushFields(s1, Failure(ids[0], attempts));
      assert ViewOf(s1) == ViewOf(s).(steers := ids[1..]);
      FlushSteersFields(Flush(s1, Failure(ids[0], attempts)), ids[1..], attempts);
      hide ViewOf;
    }
  }

  lemma {:induction false} FlushPendingFields(s: State, q: seq<Entry>)
    ensures Alike(s, FlushPending(s, q))
    decreases |q|
  {
    hide Flush, InflowOf;
    if q != [] {
      var s1 := s.(pending := q[1..]);
      FlushFields(s1, q[0]);
      assert ViewOf(s1) == ViewOf(s);
      FlushPendingFields(Flush(s1, q[0]), q[1..]);
      hide ViewOf;
    }
  }

  lemma FailSequenceBalances(s: State, attempts: map<nat, Admission>)
    requires Open(s)
    ensures Balanced(FailSequence(s, attempts)) && FailSequence(s, attempts).exit == Running
  {
    var s0 := s.(failed := true, steeringOff := true);
    var s1 := FlushSteers(s0, s.steers, attempts);
    var s2 := FlushPending(s1, s.pending);
    FlushSteersFields(s0, s.steers, attempts);
    FlushPendingFields(s1, s.pending);
    OutgoingKeeps(s2.trace, Broke);
    hide InflowOf, FlushSteers, FlushPending;
    EndBalances(s, Note(s2, Broke));
  }

  /** An emission leaves the intake alone; a regression ends it. */
  lemma TryEmitBalances(s: State, barrierTakes: bool, attempts: map<nat, Admission>)
    requires Open(s)
    ensures
      var e := TryEmit(s, barrierTakes, attempts);
      && Balanced(e.s) && e.s.exit == Running && (!e.again ==> Open(e.s) && ViewOf(e.s) == ViewOf(s))
  {
    hide InflowOf, FailSequence, RequestBarrier, EmitObservation, WithLocalOrder, HasPositive, BestOf;
    if s.pending != [] {
      var i := BestOf(s.pending, |s.pending|);
      EmitBalances(s, i);
      FailSequenceBalances(s, attempts);
      BarrierBalances(s, s.pending[i].sequence, barrierTakes);
      BarrierBalances(s, 0, barrierTakes);
    }
    hide Balanced, Open, ViewOf, EmitRaw, EmitLocal;
  }

  lemma EmitBalances(s: State, i: nat)
    requires Open(s) && i < |s.pending|
    ensures Open(EmitRaw(s, i)) && Open(EmitLocal(s, i))
  {
    var e, rest, order := s.pending[i], s.pending[..i] + s.pending[i + 1..], Max(s.lastOrder, s.lastRaw) + 1;
    var t := s.(pending := rest, lastRaw := e.sequence, lastOrder := Max(s.lastOrder, e.sequence));
    var u := s.(pending := rest, lastOrder := order);
    EmitObservationFields(t, e);
    EmitObservationFields(u, WithLocalOrder(e, order));
    assert ViewOf(t) == ViewOf(s) && ViewOf(u) == ViewOf(s);
    hide InflowOf, EmitObservation, WithLocalOrder;
    AlikeBalances(s, EmitRaw(s, i));
    AlikeBalances(s, EmitLocal(s, i));
  }

  lemma BarrierBalances(s: State, sequence: nat, barrierTakes: bool)
    requires Open(s)
    ensures
      var t := RequestBarrier(s, sequence, barrierTakes);
      Open(t) && ViewOf(t) == ViewOf(s)
  {
    BarrierFields(s, sequence, barrierTakes);
    hide InflowOf, RequestBarrier;
    AlikeBalances(s, RequestBarrier(s, sequence, barrierTakes));
  }

  lemma LeaveBalances(s: State, how: Exit)
    requires Balanced(s) && how != Running && (how == ByTerminal ==> s.promptQueued)
    ensures Balanced(Leave(s, how))
  {
    hide InflowOf, Owners, SetOf;
    EndBalances(s, Leave(s, how));
  }

  // ---------------------------------------------------------------- the loop

  lemma FenceBalances(s: State, sequence: nat)
    requires Open(s)
    ensures
      Open(Note(s.(barrierBusy := false, barrierCompleted := Max(s.barrierCompleted, sequence),
                   barrierFence := s.barrierFence || sequence == 0), Fence(sequence)))
  {
    OutgoingKeeps(s.trace, Fence(sequence));
    hide InflowOf;
    AlikeBalances(s, Note(s.(barrierBusy := false, barrierCompleted := Max(s.barrierCompleted, sequence),
                             barrierFence := s.barrierFence || sequence == 0), Fence(sequence)));
  }

  lemma TakeBarrierResultBalances(s: State, sequence: nat, d: Drained)
    requires Open(s)
    ensures Open(TakeBarrierResult(s, sequence, d))
  {
    var s1 := Note(s.(barrierBusy := false, barrierCompleted := Max(s.barrierCompleted, sequence),
                      barrierFence := s.barrierFence || sequence == 0), Fence(sequence));
    FenceBalances(s, sequence);
    DrainUpdatesBalances(s1, d);
    hide Open, DrainUpdates;
  }

  lemma QuietSelectBalances(s: State, p: Pass)
    requires Open(s) && (p.pick.UpdatesClosed? || p.pick.ReportsClosed? || p.pick.BarrierClosed?)
    ensures Open(Select(s, p))
  {
    hide InflowOf;
    AlikeBalances(s, Select(s, p));
  }

  lemma SelectBalances(s: State, p: Pass)
    requires Open(s)
    ensures if p.pick.ShuttingDown? then Balanced(Select(s, p)) else Open(Select(s, p))
  {
    match p.pick {
      case ShuttingDown => LeaveBalances(s, ByShutdown);
      case _ => OpenSelectBalances(s, p);
    }
    hide Open, Balanced, Leave;
  }

  lemma OpenSelectBalances(s: State, p: Pass)
    requires Open(s) && !p.pick.ShuttingDown?
    ensures Open(Select(s, p))
  {
    hide Open, AcceptUpdate, AcceptCommand, AcceptReport, TakeBarrierResult;
    match p.pick {
      case UpdateReady(u) => AcceptUpdateBalances(s, u);
      case CommandReady(c) => AcceptCommandBalances(s, c);
      case PromptReady(sequence) => if s.prompt.None? { ArriveBalances(s, sequence); }
      case ReportReady(r) => AcceptReportBalances(s, r, p.barrierTakes);
      case BarrierReady(sequence) => TakeBarrierResultBalances(s, sequence, p.drainedAfter);
      case _ => QuietSelectBalances(s, p);
    }
  }

  lemma PrepareBalances(s: State, p: Pass)
    requires Open(s)
    ensures Open(Prepare(s, p))
  {
    var s1 := AcceptCommands(s, p.queued);
    var s2 := if s1.prompt.Some? && !s1.terminalAsked then BeginTerminal(s1, p.queuedAtTerminal, p.markerTaken) else s1;
    AcceptCommandsBalances(s, p.queued);
    BeginTerminalBalances(s1, p.queuedAtTerminal, p.markerTaken);
    PromptBarrierFields(s2, p.barrierTakes);
    hide InflowOf, AcceptCommands, BeginTerminal, MaybePromptBarrier;
    AlikeBalances(s2, Prepare(s, p));
  }

  lemma AdvanceBalances(s: State, p: Pass)
    requires Open(s)
    ensures Balanced(Advance(s, p))
  {
    var q := QueuePrompt(s);
    QueuePromptBalances(s);
    TryEmitBalances(q, p.barrierTakes, p.attempts);
    var e := TryEmit(q, p.barrierTakes, p.attempts);
    OutgoingKeeps(e.s.trace, Finished);
    hide InflowOf, QueuePrompt, TryEmit, Select, Leave;
    if e.again {
    } else if TerminalDue(e.s) {
      AlikeBalances(e.s, Note(e.s, Finished));
      LeaveBalances(Note(e.s, Finished), ByTerminal);
    } else {
      SelectBalances(e.s, p);
    }
  }

  lemma TripBalances(s: State, p: Pass)
    requires Balanced(s)
    ensures Balanced(Trip(s, p))
  {
    hide InflowOf, Prepare, DrainUpdates, Advance, Leave;
    if s.exit == Running {
      if p.shutdown {
        LeaveBalances(s, ByShutdown);
      } else if s.failed {
        LeaveBalances(s, ByRegression);
      } else {
        PrepareBalances(s, p);
        var s1 := Prepare(s, p);
        if MustDrain(s1) {
          DrainUpdatesBalances(s1, p.drained);
          AdvanceBalances(DrainUpdates(s1, p.drained), p);
        } else {
          AdvanceBalances(s1, p);
        }
      }
    }
  }

  lemma {:induction false} RunBalances(s: State, passes: seq<Pass>)
    requires Balanced(s)
    ensures Balanced(RunOf(s, passes))
    decreases |passes|
  {
    hide Balanced, Trip;
    if passes != [] {
      TripBalances(s, passes[0]);
      RunBalances(Trip(s, passes[0]), passes[1..]);
    }
  }

  /**
    In every run the observations accepted beside the prompt's are, in order, one for each event of
    each live notification and none of a replay, the refusal of each command that cannot be
    delivered, and the answer of each report of a call that was out; and the provider calls
    submitted are, in order, those of the deliverable commands.
   */
  lemma IntakeIsExact(steeringOn: bool, steeringOff: bool, passes: seq<Pass>)
    ensures
      var f := InflowOf(Turn(steeringOn, steeringOff, passes).trace);
      f.got == f.due && f.calls == f.dueCalls
  {
    RunBalances(Initial(steeringOn, steeringOff), passes);
  }

  // ---------------------------------------------------------------- the prompt's observation

  /** The sequences of the prompt observations in `q`. */
  function PromptsOf(q: seq<Entry>): seq<nat> {
    if q == [] then []
    else PromptsOf(q[..|q| - 1]) + (if q[|q| - 1].kind.Prompt? then [q[|q| - 1].sequence] else [])
  }

  lemma {:induction false} AcceptedPrompts(t: Trace)
    ensures PromptsOf(AcceptedBy(t)) == InflowOf(t).prompts
  {
    if t.Then? {
      AcceptedPrompts(t.past);
      if t.deed.Accepted? {
        var q := AcceptedBy(t.past);
        assert (q + [t.deed.entry])[..|q|] == q;
      }
    }
  }

  lemma {:induction false} NoPrompt(q: seq<Entry>, i: nat)
    requires i < |q| && q[i].kind.Prompt?
    ensures PromptsOf(q) != []
    decreases |q|
  {
    if i < |q| - 1 {
      NoPrompt(q[..|q| - 1], i);
    }
  }

  /** With one prompt observation in `q`, all that are one are the same. */
  lemma {:induction false} OnePrompt(q: seq<Entry>, i: nat, j: nat)
    requires |PromptsOf(q)| <= 1 && i < |q| && j < |q| && q[i].kind.Prompt? && q[j].kind.Prompt?
    ensures i == j && PromptsOf(q) == [q[i].sequence]
    decreases |q|
  {
    var front := q[..|q| - 1];
    if i < |q| - 1 && j < |q| - 1 {
      OnePrompt(front, i, j);
      NoPrompt(front, i);
    } else if i < |q| - 1 {
      NoPrompt(front, i);
    } else if j < |q| - 1 {
      NoPrompt(front, j);
    }
  }

  lemma {:induction false} PromptPositions(q: seq<Entry>)
    ensures PromptsOf(q) != [] ==> exists i :: 0 <= i < |q| && q[i].kind.Prompt?
    decreases |q|
  {
    if q != [] {
      var front := q[..|q| - 1];
      PromptPositions(front);
      if PromptsOf(front) != [] {
        var i :| 0 <= i < |front| && front[i].kind.Prompt?;
        assert q[i].kind.Prompt?;
      }
    }
  }

  /**
    If every prompt observation of `r` has the stamp `k` and the sequence `v`, and stamps do not repeat,
    there is one at the most.
   */
  lemma {:induction false} OneByStamp(r: seq<Entry>, k: nat, v: nat)
    requires forall i :: 0 <= i < |r| && r[i].kind.Prompt? ==> r[i].stamp == k && r[i].sequence == v
    requires forall i, j :: 0 <= i < j < |r| ==> r[i].stamp != r[j].stamp
    ensures PromptsOf(r) == [] || PromptsOf(r) == [v]
    decreases |r|
  {
    if r != [] {
      var front := r[..|r| - 1];
      OneByStamp(front, k, v);
      PromptPositions(front);
      if r[|r| - 1].kind.Prompt? {
        assert forall i :: 0 <= i < |front| ==> front[i].stamp != k && !front[i].kind.Prompt?;
      }
    }
  }

  /** What is published of an accepted list: each entry once at the most, but for its local key. */
  ghost predicate Publishes(r: seq<Entry>, q: seq<Entry>) {
    && (forall i :: 0 <= i < |r| ==> r[i].stamp < |q| && q[r[i].stamp] == Plain(r[i]))
    && (forall i, j :: 0 <= i < j < |r| ==> r[i].stamp != r[j].stamp)
  }

  lemma EmittedIsPublished(r: seq<Entry>, f: Facts)
    requires MergedSoFar(r, f)
    ensures Publishes(r, f.accepted)
  {
    assert forall i :: 0 <= i < |r| ==> r[i] in r;
    forall i, j | 0 <= i < j < |r| ensures r[i].stamp != r[j].stamp {
      assert Placed(r[i], r[j]);
      assert r[i].stamp == r[j].stamp ==> Plain(r[i]) == Plain(r[j]);
    }
  }

  lemma PublishedPrompts(r: seq<Entry>, q: seq<Entry>)
    requires Publishes(r, q) && |PromptsOf(q)| <= 1
    ensures PromptsOf(r) == [] || PromptsOf(r) == PromptsOf(q)
  {
    PromptPositions(r);
    if PromptsOf(r) != [] {
      var i :| 0 <= i < |r| && r[i].kind.Prompt?;
      var k := r[i].stamp;
      assert q[k].kind.Prompt?;
      OnePrompt(q, k, k);
      forall j | 0 <= j < |r| && r[j].kind.Prompt? ensures r[j].stamp == k && r[j].sequence == q[k].sequence {
        OnePrompt(q, k, r[j].stamp);
      }
      OneByStamp(r, k, q[k].sequence);
    }
  }

  lemma AllPrompts(r: seq<Entry>, q: seq<Entry>, k: nat)
    requires Publishes(r, q) && k < |q| && q[k].kind.Prompt? && exists i :: 0 <= i < |r| && r[i].stamp == k
    ensures PromptsOf(r) != []
  {
    var i :| 0 <= i < |r| && r[i].stamp == k;
    NoPrompt(r, i);
  }

  lemma EmittedPrompts(t: Trace)
    requires Protocol(t) && |InflowOf(t).prompts| <= 1
    ensures PromptsOf(EmittedBy(t)) == [] || PromptsOf(EmittedBy(t)) == InflowOf(t).prompts
    ensures AllEmitted(FactsOf(t)) ==> PromptsOf(EmittedBy(t)) == InflowOf(t).prompts
  {
    var q, r, f := AcceptedBy(t), EmittedBy(t), FactsOf(t);
    AcceptedPrompts(t);
    MergeSoFar(t);
    EmittedIsPublished(r, f);
    PublishedPrompts(r, q);
    PromptPositions(q);
    hide FactsOf, InflowOf, Protocol, Publishes, PromptsOf;
    if AllEmitted(f) && PromptsOf(q) != [] {
      var k :| 0 <= k < |q| && q[k].kind.Prompt?;
      assert k in f.emitted;
      var e :| e in r && e.stamp == k;
      var i :| 0 <= i < |r| && r[i] == e;
      AllPrompts(r, q, k);
    }
  }

  /**
    In every run: at an exit by terminal exactly one prompt observation was published, with the
    sequence of the prompt result that arrived; at any other time at most that one, and none before
    the result arrived. It was accepted only when the updates had been drained (`timely`).
   */
  lemma PromptIsPublishedOnce(steeringOn: bool, steeringOff: bool, passes: seq<Pass>)
    ensures
      var s := Turn(steeringOn, steeringOff, passes);
      var out := PromptsOf(EmittedBy(s.trace));
      && InflowOf(s.trace).timely && InflowOf(s.trace).prompt == s.prompt
      && (out == [] || (s.prompt.Some? && out == [s.prompt.value]))
      && (s.exit == ByTerminal ==> s.prompt.Some? && out == [s.prompt.value])
  {
    var s := Turn(steeringOn, steeringOff, passes);
    RunBalances(Initial(steeringOn, steeringOff), passes);
    TurnInv(steeringOn, steeringOff, passes);
    EmittedPrompts(s.trace);
    if s.exit == ByTerminal {
      Unfold(s.trace.past, Finished);
    }
  }
}
