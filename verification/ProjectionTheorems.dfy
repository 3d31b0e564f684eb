/** What the owner promises, over every interleaving with producers, a consumer, close and abort. */
module ProjectionTheorems {
  import opened Options
  import opened ProjectionModel

  /** The commands of one view, in order. */
  function Filter(v: View, q: seq<Command>): seq<Command> {
    if q == [] then [] else Filter(v, q[..|q| - 1]) + (if InView(v, q[|q| - 1]) then [q[|q| - 1]] else [])
  }

  lemma FilterSnoc(v: View, q: seq<Command>, c: Command)
    ensures Filter(v, q + [c]) == Filter(v, q) + (if InView(v, c) then [c] else [])
  {
    assert (q + [c])[..|q|] == q;
  }

  lemma {:induction false} FilterConcat(v: View, q: seq<Command>, r: seq<Command>)
    ensures Filter(v, q + r) == Filter(v, q) + Filter(v, r)
    decreases |r|
  {
    if r == [] {
      assert q + r == q;
    } else {
      FilterConcat(v, q, r[..|r| - 1]);
      FilterSnoc(v, q + r[..|r| - 1], r[|r| - 1]);
      assert q + r == (q + r[..|r| - 1]) + [r[|r| - 1]];
      assert (Filter(v, q) + Filter(v, r[..|r| - 1])) + (if InView(v, r[|r| - 1]) then [r[|r| - 1]] else [])
          == Filter(v, q) + Filter(v, r);
    }
  }

  lemma FilterCons(v: View, c: Command, q: seq<Command>)
    ensures Filter(v, [c] + q) == (if InView(v, c) then [c] else []) + Filter(v, q)
  {
    FilterConcat(v, [c], q);
    FilterSnoc(v, [], c);
    assert [] + [c] == [c];
  }

  /** Everything admitted for a view was delivered or is still held; nothing is delivered unselected. */
  predicate Flow(v: View, selected: Option<View>, admitted: seq<Command>, delivered: seq<Command>, held: seq<Command>) {
    && (selected == None ==> delivered == [])
    && (selected == None || selected == Some(v) ==> Filter(v, admitted) == delivered + Filter(v, held))
  }

  predicate Ascending(q: seq<Command>) {
    forall i, j :: 0 <= i < j < |q| ==> q[i].id < q[j].id
  }

  function AckOf(c: Command): set<nat> {
    if c.HasAck() then {c.id} else {}
  }

  /** The acknowledgements of the commands held. */
  function AcksOf(q: seq<Command>): set<nat> {
    if q == [] then {} else AcksOf(q[..|q| - 1]) + AckOf(q[|q| - 1])
  }

  /** Each acknowledgement promised is closed, or belongs to one command that is still held. */
  ghost predicate Acks(held: seq<Command>, issued: nat, promised: set<nat>, acked: set<nat>) {
    && Ascending(held)
    && (forall c :: c in held ==> c.id < issued)
    && (forall id :: id in promised ==> id < issued)
    && AcksOf(held) !! acked
    && promised == acked + AcksOf(held)
  }

  predicate NoSelect(q: seq<Command>) {
    forall c :: c in q ==> !c.load.SelectView?
  }

  predicate OneSelect(q: seq<Command>) {
    forall i, j :: 0 <= i < j < |q| && q[i].load.SelectView? ==> !q[j].load.SelectView?
  }

  /** A view is selected by one command, which is gone once it took effect. */
  predicate Selection(selected: Option<View>, used: bool, pending: seq<Command>, mailbox: seq<Command>) {
    && NoSelect(pending) && OneSelect(mailbox)
    && (!used || selected.Some? ==> NoSelect(mailbox))
    && (selected.Some? ==> used)
  }

  predicate Channels(s: State) {
    && !s.panicked
    && s.spaceClosed == s.closed
    && (s.stopAsked || s.stopping || s.abortAsked ==> s.closed)
    && s.eventsClosed == (s.selected == Some(Observations))
    && s.observationsClosed == (s.selected == Some(Events))
    && |s.pending| <= DEPTH && |s.mailbox| <= MAILBOX && s.output <= DEPTH
  }

  ghost predicate Live(s: State) {
    && s.exit == Running
    && Channels(s)
    && Flow(Events, s.selected, s.admitted, s.delivered, s.pending + s.mailbox)
    && Flow(Observations, s.selected, s.admitted, s.delivered, s.pending + s.mailbox)
    && Acks(s.pending + s.mailbox, s.issued, s.promised, s.acked)
    && Selection(s.selected, s.selectUsed, s.pending, s.mailbox)
  }

  /** After the owner returned. */
  ghost predicate Gone(s: State) {
    && s.exit != Running
    && !s.panicked && s.closed && s.spaceClosed && s.eventsClosed && s.observationsClosed
    && s.pending == [] && s.mailbox == []
    && s.promised == s.acked && (forall id :: id in s.acked ==> id < s.issued)
    && s.output <= DEPTH
    && (s.selected == None ==> s.delivered == [])
    && (forall v :: s.selected == Some(v) ==>
          && s.delivered <= Filter(v, s.admitted)
          && (s.exit == Drained ==> s.delivered == Filter(v, s.admitted)))
  }

  ghost predicate Inv(s: State) {
    Live(s) || Gone(s)
  }

  // ---------------------------------------------------------------- acknowledgements

  lemma AcksSnoc(q: seq<Command>, c: Command)
    ensures AcksOf(q + [c]) == AcksOf(q) + AckOf(c)
  {
    assert (q + [c])[..|q|] == q;
  }

  lemma {:induction false} AcksConcat(q: seq<Command>, r: seq<Command>)
    ensures AcksOf(q + r) == AcksOf(q) + AcksOf(r)
    decreases |r|
  {
    if r == [] {
      assert q + r == q;
    } else {
      AcksConcat(q, r[..|r| - 1]);
      AcksSnoc(q + r[..|r| - 1], r[|r| - 1]);
      assert q + r == (q + r[..|r| - 1]) + [r[|r| - 1]];
    }
  }

  lemma {:induction false} AcksAreOfCommands(q: seq<Command>, id: nat)
    requires id in AcksOf(q)
    ensures exists c :: c in q && c.id == id
  {
    var front, last := q[..|q| - 1], q[|q| - 1];
    if id in AckOf(last) {
      assert last in q;
    } else {
      AcksAreOfCommands(front, id);
      var c :| c in front && c.id == id;
      assert c in q;
    }
  }

  lemma AcksHead(q: seq<Command>)
    requires q != [] && Ascending(q)
    ensures Ascending(q[1..]) && (forall c :: c in q[1..] ==> c in q)
    ensures AcksOf(q) == AckOf(q[0]) + AcksOf(q[1..]) && AckOf(q[0]) !! AcksOf(q[1..])
  {
    AcksConcat([q[0]], q[1..]);
    assert [q[0]] + q[1..] == q;
    AcksSnoc([], q[0]);
    assert [] + [q[0]] == [q[0]];
    forall id | id in AcksOf(q[1..]) ensures id !in AckOf(q[0]) {
      AcksAreOfCommands(q[1..], id);
      var c :| c in q[1..] && c.id == id;
      var i :| 0 <= i < |q[1..]| && q[1..][i] == c;
      assert q[i + 1] == c;
    }
  }

  /** The first command held is acknowledged and let go. */
  lemma AckHeadStep(held: seq<Command>, issued: nat, promised: set<nat>, acked: set<nat>)
    requires Acks(held, issued, promised, acked) && held != []
    ensures Acks(held[1..], issued, promised, acked + AckOf(held[0]))
    ensures held[0].HasAck() ==> held[0].id !in acked
  {
    AcksHead(held);
    assert held[0].HasAck() ==> held[0].id in AckOf(held[0]);
  }

  lemma CloseAckShape(s: State, c: Command)
    requires !s.panicked && (c.HasAck() ==> c.id !in s.acked)
    ensures CloseAck(s, c) == s.(acked := s.acked + AckOf(c))
  {
    assert s.acked + {} == s.acked;
  }

  lemma {:induction false} CloseAcksShape(s: State, q: seq<Command>)
    requires !s.panicked && Ascending(q) && AcksOf(q) !! s.acked
    ensures CloseAcks(s, q) == s.(acked := s.acked + AcksOf(q))
    decreases |q|
  {
    if q == [] {
      assert s.acked + {} == s.acked;
    } else {
      AcksHead(q);
      assert q[0].HasAck() ==> q[0].id in AckOf(q[0]);
      CloseAckShape(s, q[0]);
      CloseAcksShape(CloseAck(s, q[0]), q[1..]);
      assert (s.acked + AckOf(q[0])) + AcksOf(q[1..]) == s.acked + AcksOf(q);
    }
  }

  // ---------------------------------------------------------------- the flow

  /** The first command held leaves, delivered if it is in the selected view. */
  lemma FlowHead(
    v: View, selected: View, admitted: seq<Command>, delivered: seq<Command>, held: seq<Command>,
    after: seq<Command>)
    requires Flow(v, Some(selected), admitted, delivered, held) && held != []
    requires after == if InView(selected, held[0]) then delivered + [held[0]] else delivered
    ensures Flow(v, Some(selected), admitted, after, held[1..])
  {
    assert held == [held[0]] + held[1..];
    FilterCons(v, held[0], held[1..]);
    if selected == v {
      if InView(v, held[0]) {
        assert delivered + ([held[0]] + Filter(v, held[1..])) == (delivered + [held[0]]) + Filter(v, held[1..]);
      } else {
        assert [] + Filter(v, held[1..]) == Filter(v, held[1..]);
      }
    }
  }

  /** A command that is in no view leaves from the middle, and takes effect as a selection. */
  lemma FlowSelect(
    v: View, selected: View, admitted: seq<Command>, before: seq<Command>, c: Command, after: seq<Command>)
    requires Flow(v, None, admitted, [], before + [c] + after) && c.load.SelectView?
    ensures Flow(v, Some(selected), admitted, [], before + after)
  {
    FilterConcat(v, before + [c], after);
    FilterSnoc(v, before, c);
    FilterConcat(v, before, after);
    assert Filter(v, before) + [] == Filter(v, before);
  }

  lemma FlowAdmit(
    v: View, selected: Option<View>, admitted: seq<Command>, delivered: seq<Command>, held: seq<Command>,
    c: Command)
    requires Flow(v, selected, admitted, delivered, held)
    ensures Flow(v, selected, admitted + [c], delivered, held + [c])
  {
    FilterSnoc(v, admitted, c);
    FilterSnoc(v, held, c);
  }

  // ---------------------------------------------------------------- the invariant, step by step

  /** Where the commands of `before + after` stand in `before + [c] + after`. */
  lemma MiddleOut(before: seq<Command>, c: Command, after: seq<Command>)
    requires Ascending(before + [c] + after)
    ensures Ascending(before + after)
    ensures forall x :: x in before + after ==> x in before + [c] + after && x.id != c.id
  {
    var held, rest := before + [c] + after, before + after;
    assert held[|before|] == c;
    assert forall i :: 0 <= i < |rest| ==> rest[i] == held[if i < |before| then i else i + 1];
  }

  lemma AckMiddle(
    before: seq<Command>, c: Command, after: seq<Command>, issued: nat, promised: set<nat>, acked: set<nat>)
    requires Acks(before + [c] + after, issued, promised, acked)
    ensures Acks(before + after, issued, promised, acked + AckOf(c))
    ensures c.HasAck() ==> c.id !in acked
  {
    AcksConcat(before + [c], after);
    AcksSnoc(before, c);
    AcksConcat(before, after);
    MiddleOut(before, c, after);
    forall id | id in AcksOf(before + after) ensures id !in AckOf(c) {
      AcksAreOfCommands(before + after, id);
    }
    assert c.HasAck() ==> c.id in AckOf(c);
  }

  lemma AckAdmit(held: seq<Command>, c: Command, issued: nat, promised: set<nat>, acked: set<nat>)
    requires Acks(held, issued, promised, acked) && c.id == issued
    ensures Acks(held + [c], issued + 1, promised + AckOf(c), acked)
  {
    AcksSnoc(held, c);
    assert forall i :: 0 <= i < |held| ==> held[i] in held;
    forall id | id in AckOf(c) ensures id !in acked {
    }
  }

  lemma AdmitKeeps(s: State, load: Load)
    requires Live(s)
    ensures Live(Admit(s, load))
  {
    hide Flow, Acks;
    var c := Command(s.issued, load);
    if load.SelectView? && s.selectUsed {
    } else if s.closed {
      RefusedKeeps(s, load);
    } else if |s.mailbox| < MAILBOX {
      var held := s.pending + s.mailbox;
      assert s.pending + (s.mailbox + [c]) == held + [c];
      FlowAdmit(Events, s.selected, s.admitted, s.delivered, held, c);
      FlowAdmit(Observations, s.selected, s.admitted, s.delivered, held, c);
      AckAdmit(held, c, s.issued, s.promised, s.acked);
      assert Promise(s, c).promised == s.promised + AckOf(c);
    }
  }

  lemma RefusedKeeps(s: State, load: Load)
    requires Live(s) && s.closed && !(load.SelectView? && s.selectUsed)
    ensures Live(Admit(s, load))
  {
    hide Flow;
    var c := Command(s.issued, load);
    var held := s.pending + s.mailbox;
    if load.Observation? {
      assert c.id !in s.acked;
    }
    forall id | id in AcksOf(held) ensures id < s.issued {
      AcksAreOfCommands(held, id);
    }
  }

  lemma CloseAndAbortKeep(s: State)
    requires Live(s)
    ensures Live(Apply(s, Close)) && Live(Apply(s, Abort)) && Live(Apply(s, Consume))
  {
    hide Flow, Acks, Selection;
  }

  lemma TakeContentKeeps(s: State)
    requires Live(s) && s.mailbox != [] && !s.mailbox[0].load.SelectView? && |s.pending| < DEPTH
    ensures Live(Take(s))
  {
    hide Flow, Acks;
    var c := s.mailbox[0];
    assert s.mailbox == [c] + s.mailbox[1..];
    assert (s.pending + [c]) + s.mailbox[1..] == s.pending + s.mailbox;
  }

  lemma TakeSelectKeeps(s: State)
    requires Live(s) && s.mailbox != [] && s.mailbox[0].load.SelectView?
    ensures Live(Take(s))
  {
    hide Flow, Acks;
    var c, rest := s.mailbox[0], s.mailbox[1..];
    assert s.mailbox == [c] + rest && c in s.mailbox;
    assert s.pending + s.mailbox == s.pending + [c] + rest;
    assert s.selected.None?;
    assert s.delivered == [] by {
      NothingUnselected(s);
    }
    FlowSelect(Events, c.load.view, s.admitted, s.pending, c, rest);
    FlowSelect(Observations, c.load.view, s.admitted, s.pending, c, rest);
    AckMiddle(s.pending, c, rest, s.issued, s.promised, s.acked);
    assert NoSelect(rest) by {
      OnlySelect(s.mailbox);
    }
  }

  lemma NothingUnselected(s: State)
    requires Live(s) && s.selected.None?
    ensures s.delivered == []
  {
  }

  lemma OnlySelect(q: seq<Command>)
    requires q != [] && OneSelect(q) && q[0].load.SelectView?
    ensures NoSelect(q[1..])
  {
    forall c | c in q[1..] ensures !c.load.SelectView? {
      var i :| 0 <= i < |q[1..]| && q[1..][i] == c;
      assert q[i + 1] == c;
    }
  }

  /** The head of what is held is sent, or skipped because it is not in the selected view. */
  lemma HeadKeeps(s: State, output: nat)
    requires Live(s) && Sending(s) && output <= DEPTH
    ensures
      var c := s.pending[0];
      && Live(CloseAck(s, c).(pending := s.pending[1..], output := output,
                              delivered := if InView(s.selected.value, c) then s.delivered + [c] else s.delivered))
      && CloseAck(s, c) == s.(acked := s.acked + AckOf(c))
  {
    hide Flow, Acks;
    var held, v := s.pending + s.mailbox, s.selected.value;
    assert held[0] == s.pending[0] && held[1..] == s.pending[1..] + s.mailbox;
    var after := if InView(v, held[0]) then s.delivered + [held[0]] else s.delivered;
    FlowHead(Events, v, s.admitted, s.delivered, held, after);
    FlowHead(Observations, v, s.admitted, s.delivered, held, after);
    AckHeadStep(held, s.issued, s.promised, s.acked);
    CloseAckShape(s, held[0]);
  }

  /** The state the owner leaves behind. */
  function Left(s: State, exit: Exit): State {
    s.(closed := true, spaceClosed := true, mailbox := [], pending := [], acked := s.promised,
       exit := exit, eventsClosed := true, observationsClosed := true)
  }

  lemma LeaveShape(s: State, exit: Exit)
    requires Live(s)
    ensures Leave(s, exit) == Left(s, exit)
  {
    hide Flow, Acks, Selection, CloseAcks;
    var s1 := s.(closed := true, spaceClosed := true);
    MarkedClosed(s);
    SplitAcks(s.pending, s.mailbox, s.issued, s.promised, s.acked);
    CloseAcksShape(s1.(mailbox := []), s.mailbox);
    var s2 := s1.(mailbox := [], acked := s.acked + AcksOf(s.mailbox));
    CloseAcksShape(s2, s.pending);
    assert (s.acked + AcksOf(s.mailbox)) + AcksOf(s.pending) == s.promised;
    ChannelsEnd(s2.(acked := s.promised, pending := []), exit);
  }

  lemma MarkedClosed(s: State)
    requires Channels(s)
    ensures MarkClosed(s) == s.(closed := true, spaceClosed := true)
  {
    if s.closed {
    } else {
    }
  }

  lemma LeaveKeeps(s: State, exit: Exit)
    requires Live(s) && exit != Running
    requires exit == Drained && s.selected.Some? ==> s.pending == [] && s.mailbox == []
    ensures Gone(Leave(s, exit))
  {
    hide Flow, Acks, Selection, Filter, Leave;
    LeaveShape(s, exit);
    DeliveredSoFar(s);
    PromisedWereIssued(s.pending + s.mailbox, s.issued, s.promised, s.acked);
  }

  /** Both channels end closed, each once. */
  lemma ChannelsEnd(s: State, exit: Exit)
    requires !s.panicked
    ensures
      var s4 := if s.eventsClosed then s else CloseEvents(s);
      var s5 := if s4.observationsClosed then s4 else CloseObservations(s4);
      s5.(exit := exit) == s.(exit := exit, eventsClosed := true, observationsClosed := true)
  {
    if s.eventsClosed {
    } else {
    }
    if s.observationsClosed {
    } else {
    }
  }

  lemma DeliveredSoFar(s: State)
    requires Live(s)
    ensures s.selected == None ==> s.delivered == []
    ensures forall v :: s.selected == Some(v) ==>
      s.delivered <= Filter(v, s.admitted) && (s.pending + s.mailbox == [] ==> s.delivered == Filter(v, s.admitted))
  {
    hide Flow, Acks, Selection, Channels;
    FlowPrefix(Events, s.selected, s.admitted, s.delivered, s.pending + s.mailbox);
    FlowPrefix(Observations, s.selected, s.admitted, s.delivered, s.pending + s.mailbox);
  }

  lemma SplitAcks(pending: seq<Command>, mailbox: seq<Command>, issued: nat, promised: set<nat>, acked: set<nat>)
    requires Acks(pending + mailbox, issued, promised, acked)
    ensures Ascending(pending) && Ascending(mailbox)
    ensures AcksOf(mailbox) !! acked && AcksOf(pending) !! acked + AcksOf(mailbox)
    ensures promised == acked + AcksOf(pending) + AcksOf(mailbox)
  {
    var held := pending + mailbox;
    AcksConcat(pending, mailbox);
    assert forall i :: 0 <= i < |pending| ==> pending[i] == held[i];
    assert forall i :: 0 <= i < |mailbox| ==> mailbox[i] == held[|pending| + i];
    forall id | id in AcksOf(pending) ensures id !in AcksOf(mailbox) {
      if id in AcksOf(mailbox) {
        AcksAreOfCommands(pending, id);
        AcksAreOfCommands(mailbox, id);
        var x :| x in pending && x.id == id;
        var y :| y in mailbox && y.id == id;
        Apart(pending, mailbox, x, y);
      }
    }
  }

  lemma Apart(pending: seq<Command>, mailbox: seq<Command>, x: Command, y: Command)
    requires Ascending(pending + mailbox) && x in pending && y in mailbox
    ensures x.id != y.id
  {
    var i :| 0 <= i < |pending| && pending[i] == x;
    var j :| 0 <= j < |mailbox| && mailbox[j] == y;
    assert (pending + mailbox)[i].id < (pending + mailbox)[|pending| + j].id;
  }

  lemma FlowPrefix(v: View, selected: Option<View>, admitted: seq<Command>, delivered: seq<Command>, held: seq<Command>)
    requires Flow(v, selected, admitted, delivered, held)
    ensures selected == None ==> delivered == []
    ensures selected == Some(v) ==> delivered <= Filter(v, admitted)
    ensures selected == Some(v) && held == [] ==> delivered == Filter(v, admitted)
  {
  }

  lemma PromisedWereIssued(held: seq<Command>, issued: nat, promised: set<nat>, acked: set<nat>)
    requires Acks(held, issued, promised, acked)
    ensures forall id :: id in promised ==> id < issued
  {
  }

  lemma SelectKeeps(s: State, step: Step)
    requires Live(s) && (Sending(s) ==> InView(s.selected.value, s.pending[0]))
    ensures Inv(Select(s, step))
  {
    hide Live, Gone, Take, Leave;
    match step {
      case OwnerTakes =>
        if |s.pending| < DEPTH && s.mailbox != [] {
          if s.mailbox[0].load.SelectView? {
            TakeSelectKeeps(s);
          } else {
            TakeContentKeeps(s);
          }
        }
      case OwnerSeesStop =>
        if s.stopAsked {
          StoppingKeeps(s);
        }
      case OwnerSends =>
        if Sending(s) && s.output < DEPTH {
          SendKeeps(s);
        }
      case OwnerSeesAbort => LeaveKeeps(s, Aborted);
      case _ =>
    }
  }

  lemma StoppingKeeps(s: State)
    requires Live(s) && s.stopAsked
    ensures Live(s.(stopping := true))
  {
    hide Flow, Acks, Selection;
  }

  lemma SendKeeps(s: State)
    requires Live(s) && Sending(s) && InView(s.selected.value, s.pending[0]) && s.output < DEPTH
    ensures Live(Send(s))
  {
    HeadKeeps(s, s.output + 1);
    ChannelIsOpen(s);
    hide Live;
  }

  lemma ChannelIsOpen(s: State)
    requires Live(s) && Sending(s)
    ensures !(if s.selected.value.Events? then s.eventsClosed else s.observationsClosed)
  {
  }

  lemma OwnerTripKeeps(s: State, step: Step)
    requires Inv(s)
    ensures Inv(OwnerTrip(s, step))
  {
    if s.exit == Running {
      if Sending(s) {
        HeadKeeps(s, s.output);
      }
      hide Live, Gone, Select, Leave;
      if Sending(s) {
        if !InView(s.selected.value, s.pending[0]) {
        } else if s.stopping && s.output == DEPTH {
          LeaveKeeps(s, OutputFull);
        } else {
          SelectKeeps(s, step);
        }
      } else if s.stopping && s.mailbox == [] {
        LeaveKeeps(s, Drained);
      } else {
        SelectKeeps(s, step);
      }
    }
  }

  lemma GoneStays(s: State, step: Step)
    requires Gone(s)
    ensures Gone(Apply(s, step))
  {
    hide Filter, CloseAck;
    match step {
      case Produce(load) => GoneRefuses(s, load);
      case Close =>
      case Abort =>
      case Consume =>
      case _ =>
    }
  }

  lemma GoneRefuses(s: State, load: Load)
    requires Gone(s)
    ensures Gone(Admit(s, load))
  {
    hide Filter;
    var c := Command(s.issued, load);
    if load.SelectView? {
    } else if load.Event? {
    } else {
      CloseAckShape(Promise(Issue(s, load), c), c);
    }
  }

  lemma StepKeeps(s: State, step: Step)
    requires Inv(s)
    ensures Inv(Apply(s, step))
  {
    hide Live, Gone, Admit, OwnerTrip;
    if Gone(s) {
      GoneStays(s, step);
    } else {
      match step {
        case Produce(load) => AdmitKeeps(s, load);
        case Close => CloseAndAbortKeep(s);
        case Abort => CloseAndAbortKeep(s);
        case Consume => CloseAndAbortKeep(s);
        case _ => OwnerTripKeeps(s, step);
      }
    }
  }

  lemma {:induction false} RunKeeps(s: State, steps: seq<Step>)
    requires Inv(s)
    ensures Inv(RunOf(s, steps))
    decreases |steps|
  {
    hide Inv, Apply;
    if steps != [] {
      StepKeeps(s, steps[0]);
      RunKeeps(Apply(s, steps[0]), steps[1..]);
    }
  }

  lemma FreshInv()
    ensures Inv(FRESH)
  {
  }

  // ---------------------------------------------------------------- what the projection promises

  /** What reaches the selected channel is always a prefix of what was admitted for it; nothing else reaches either. */
  lemma DeliveredIsPrefix(steps: seq<Step>)
    ensures
      var s := RunOf(FRESH, steps);
      match s.selected
      case None => s.delivered == []
      case Some(v) => s.delivered <= Filter(v, s.admitted)
  {
    FreshInv();
    RunKeeps(FRESH, steps);
    var s := RunOf(FRESH, steps);
    if Live(s) {
      DeliveredSoFar(s);
    }
  }

  /** An owner that stops, not aborted and not seeing a full output, has delivered all of it. */
  lemma DrainedDeliversAll(steps: seq<Step>)
    ensures
      var s := RunOf(FRESH, steps);
      s.exit == Drained && s.selected.Some? ==> s.delivered == Filter(s.selected.value, s.admitted)
  {
    FreshInv();
    RunKeeps(FRESH, steps);
  }

  /**
    Nothing is ever closed twice or sent on a closed channel. Once the owner has returned every
    acknowledgement anybody waits for is closed, and so are both public channels.
   */
  lemma ClosedExactlyOnce(steps: seq<Step>)
    ensures
      var s := RunOf(FRESH, steps);
      && !s.panicked
      && s.acked <= s.promised
      && (s.exit != Running ==> s.acked == s.promised && s.eventsClosed && s.observationsClosed)
  {
    FreshInv();
    RunKeeps(FRESH, steps);
    var s := RunOf(FRESH, steps);
  }

  /** The owner never retains more than its bound, nor does the mailbox. */
  lemma RetainedIsBounded(steps: seq<Step>)
    ensures
      var s := RunOf(FRESH, steps);
      |s.pending| <= DEPTH && |s.mailbox| <= MAILBOX && s.output <= DEPTH
  {
    FreshInv();
    RunKeeps(FRESH, steps);
  }

  /**
    A closing owner gets done without its consumer: while it has something to send or to take, an
    iteration that does so lets go of a command, and one that finds the output full returns.
   */
  lemma ClosingProgresses(s: State)
    requires Live(s) && s.stopping && s.selected.Some?
    ensures
      var t := OwnerTrip(s, if Sending(s) then OwnerSends else OwnerTakes);
      t.exit != Running || |t.pending| + 2 * |t.mailbox| < |s.pending| + 2 * |s.mailbox|
  {
    if Sending(s) {
      HeadKeeps(s, s.output);
      hide Live;
      if InView(s.selected.value, s.pending[0]) {
      } else {
      }
    } else {
      hide Live;
    }
  }
}
