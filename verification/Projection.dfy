/**
  The single owner of a stream's two public channels (driver/acp/projection.go). Producers admit
  commands into a bounded mailbox; the owner moves them to the selected channel. Closing a channel
  twice, or sending on a closed one, panics in Go: `panicked` records it.
 */
module ProjectionModel {
  import opened Options

  /** Depth of a public channel, and of what the owner may retain once it is full. */
  const DEPTH: nat := 4096
  const MAILBOX: nat := 128

  datatype View = Events | Observations

  datatype Load = SelectView(view: View) | Event | Observation

  /** `id` names the command and its acknowledgement; events carry none. */
  datatype Command = Command(id: nat, load: Load)
  {
    predicate HasAck() {
      !load.Event?
    }
  }

  datatype Exit = Running | Drained | OutputFull | Aborted

  /**
    `admitted`, `delivered` and `promised` (the acknowledgements somebody may wait for) are
    histories; `output` is how full the selected channel is.
   */
  datatype State = State(
    selected: Option<View>, issued: nat, admitted: seq<Command>, mailbox: seq<Command>, pending: seq<Command>,
    delivered: seq<Command>, output: nat, selectUsed: bool,
    closed: bool, spaceClosed: bool, stopAsked: bool, stopping: bool, abortAsked: bool, exit: Exit,
    promised: set<nat>, acked: set<nat>, eventsClosed: bool, observationsClosed: bool, panicked: bool)

  const FRESH :=
    State(None, 0, [], [], [], [], 0, false, false, false, false, false, false, Running, {}, {}, false, false, false)

  datatype Step =
    | Produce(load: Load)
    | Close
    | Abort
    | Consume
    | OwnerTakes
    | OwnerSeesStop
    | OwnerSends
    | OwnerSeesAbort

  function Panic(s: State, bad: bool): State {
    if bad then s.(panicked := true) else s
  }

  /** closeProjectionAck. */
  function CloseAck(s: State, c: Command): State {
    if c.HasAck() then Panic(s, c.id in s.acked).(acked := s.acked + {c.id}) else s
  }

  function CloseAcks(s: State, q: seq<Command>): State
    decreases |q|
  {
    if q == [] then s else CloseAcks(CloseAck(s, q[0]), q[1..])
  }

  /** markClosed: the generation channel is closed with the producers' side, once. */
  function MarkClosed(s: State): State {
    if s.closed then s else Panic(s, s.spaceClosed).(closed := true, spaceClosed := true)
  }

  /** commandConsumed: this generation ends and another begins. */
  function CommandConsumed(s: State): State {
    if s.closed then s else Panic(s, s.spaceClosed)
  }

  /**
    One producer call that gets an answer: admitted, or refused once the projection is closed; then
    an observation's acknowledgement is closed by its producer. A producer that finds the mailbox
    full waits, which is no step. A view is selected at most once.
   */
  function Admit(s: State, load: Load): State {
    if load.SelectView? && s.selectUsed then s
    else
      var c := Command(s.issued, load);
      if s.closed then
        if load.Observation? then CloseAck(Promise(Issue(s, load), c), c) else Issue(s, load)
      else if |s.mailbox| < MAILBOX then
        Promise(Issue(s, load), c).(admitted := s.admitted + [c], mailbox := s.mailbox + [c])
      else s
  }

  function Issue(s: State, load: Load): State {
    if load.SelectView? then s.(issued := s.issued + 1, selectUsed := true) else s.(issued := s.issued + 1)
  }

  function Promise(s: State, c: Command): State {
    if c.HasAck() then s.(promised := s.promised + {c.id}) else s
  }

  predicate InView(v: View, c: Command) {
    if v.Events? then c.load.Event? else c.load.Observation?
  }

  function CloseEvents(s: State): State {
    Panic(s, s.eventsClosed).(eventsClosed := true)
  }

  function CloseObservations(s: State): State {
    Panic(s, s.observationsClosed).(observationsClosed := true)
  }

  /** The owner returns: producers are shut out, what is left is acknowledged, both channels end closed. */
  function Leave(s: State, exit: Exit): State {
    var s1 := MarkClosed(s);
    var s2 := CloseAcks(s1.(mailbox := []), s1.mailbox);
    var s3 := CloseAcks(s2, s2.pending).(pending := []);
    var s4 := if s3.eventsClosed then s3 else CloseEvents(s3);
    var s5 := if s4.observationsClosed then s4 else CloseObservations(s4);
    s5.(exit := exit)
  }

  function Take(s: State): State
    requires s.mailbox != []
  {
    var c := s.mailbox[0];
    var s1 := CommandConsumed(s.(mailbox := s.mailbox[1..]));
    match c.load
    case SelectView(view) =>
      if s1.selected.Some? then s1
      else
        var s2 := s1.(selected := Some(view));
        CloseAck(if view.Events? then CloseObservations(s2) else CloseEvents(s2), c)
    case _ => s1.(pending := s1.pending + [c])
  }

  predicate Sending(s: State) {
    s.pending != [] && s.selected.Some?
  }

  /** A send on the selected channel; the channel must be open. */
  function Send(s: State): State
    requires Sending(s)
  {
    var c := s.pending[0];
    CloseAck(Panic(s, if s.selected.value.Events? then s.eventsClosed else s.observationsClosed), c)
      .(pending := s.pending[1..], delivered := s.delivered + [c], output := s.output + 1)
  }

  /** The select of one iteration, for the case that is ready and chosen. */
  function Select(s: State, step: Step): State {
    match step
    case OwnerTakes => if |s.pending| < DEPTH && s.mailbox != [] then Take(s) else s
    case OwnerSeesStop => if s.stopAsked then s.(stopping := true) else s
    case OwnerSends => if Sending(s) && s.output < DEPTH then Send(s) else s
    case OwnerSeesAbort => if s.abortAsked then Leave(s, Aborted) else s
    case _ => s
  }

  /** One iteration of the owner's loop. */
  function OwnerTrip(s: State, step: Step): State {
    if s.exit != Running then s
    else if Sending(s) then
      if !InView(s.selected.value, s.pending[0]) then CloseAck(s, s.pending[0]).(pending := s.pending[1..])
      else if s.stopping && s.output == DEPTH then Leave(s, OutputFull)
      else Select(s, step)
    else if s.stopping && s.mailbox == [] then Leave(s, Drained)
    else Select(s, step)
  }

  function Apply(s: State, step: Step): State {
    match step
    case Produce(load) => Admit(s, load)
    case Close => if s.stopAsked then s else MarkClosed(s).(stopAsked := true)
    case Abort => MarkClosed(s).(abortAsked := true)
    case Consume => if s.output > 0 then s.(output := s.output - 1) else s
    case _ => OwnerTrip(s, step)
  }

  function RunOf(s: State, steps: seq<Step>): State
    decreases |steps|
  {
    if steps == [] then s else RunOf(Apply(s, steps[0]), steps[1..])
  }
}
