/**
  Everything that can happen to the steering machine of one turn, in any order, together with
  what an observer of the turn remembers. The theorems are about every finite run.
 */
module SteeringRuns {
  import opened Options
  import opened DriverContract
  import opened Calls
  import opened SteeringModel

  datatype Event =
    | StreamReady(ordered: bool)
    | InputOffered(input: Input)
    | SteerSeen(tag: nat, result: SteerResult, err: CallError)
    | PromptSeen
    | UpdateSeen
    | TerminalEvent
    | Completion(serial: nat, result: SteerResult, err: CallError)
    | TerminalClock
    | DeadlineClock
    | ShuttingDown
    | QueueAppend(input: Input)
    | QueueRemove(at: nat)

  /**
    `accepted`: one more than the largest request name used so far.
    `handled`: the names the machine took ownership of.
    `nextTag`: one more than the largest call number whose observation was delivered.
    `applied`: (call number of the observation, call number of the attempt it was applied to).
    `tidy`: no ordinary input entered the loop queue and every offered prompt was valid.
    `jumped`: a request was queued at once while an earlier one was waiting.
    `evidence`: what was given about reserved requests while they were undecided.
   */
  datatype Run = Run(
    s: State, accepted: nat, handled: set<nat>, nextTag: nat, applied: seq<(nat, nat)>, tidy: bool, jumped: bool,
    evidence: Evidence)

  /**
    `told`: the result and the error last given for the request, by the ordered stream or by the end
    of the call; `observed`: those the stream gave one for; `clocked`: those a clock or the shutdown caught.
   */
  datatype Evidence = Evidence(told: map<nat, (SteerResult, CallError)>, observed: set<nat>, clocked: set<nat>)

  /** What the event gives about the request that is active and undecided. */
  function Noted(v: Evidence, s: State, e: Event): Evidence {
    if !MustHold(s) then v
    else
      var id := s.active.value.input.id;
      match e
      case SteerSeen(_, result, err) => v.(told := v.told[id := (result, err)], observed := v.observed + {id})
      case Completion(serial, result, err) =>
        if serial == s.active.value.serial then v.(told := v.told[id := (result, err)]) else v
      case TerminalClock => if s.terminal then v.(clocked := v.clocked + {id}) else v
      case DeadlineClock => v.(clocked := v.clocked + {id})
      case ShuttingDown => v.(clocked := v.clocked + {id})
      case _ => v
  }

  /** What makes `Offer` send a request to the normal queue without letting it wait. */
  predicate QueuedAtOnce(s: State, input: Input) {
    || s.loopPending != [] || s.terminal || s.disabled || s.fallbackBarrier || !s.hasSteerer
    || !input.blocksValid || (s.streamKnown && !s.ordered)
  }

  predicate Jumps(s: State, input: Input) {
    IsCandidate(s, input) && QueuedAtOnce(s, input) && s.pending != []
  }

  function StepRet(w: World, s: State, e: Event): Ret {
    match e
    case StreamReady(ordered) => SetStream(w, s, ordered)
    case InputOffered(input) => Offer(w, s, input).ret
    case SteerSeen(_, result, err) => ObserveSteer(w, s, result, err)
    case PromptSeen => ObservePrompt(w, s)
    case UpdateSeen => Ret(s, false)
    case TerminalEvent => BeforeTerminal(w, s)
    case Completion(serial, result, err) => Complete(w, s, serial, result, err)
    case TerminalClock => Timeout(w, s)
    case DeadlineClock => DeadlineTimeout(w, s)
    case ShuttingDown => Shutdown(w, s)
    case QueueAppend(input) => Ret(s.(loopPending := s.loopPending + [input]), false)
    case QueueRemove(at) =>
      Ret(if at < |s.loopPending| then s.(loopPending := s.loopPending[..at] + s.loopPending[at + 1..]) else s, false)
  }

  function Step(w: World, r: Run, e: Event): Run {
    Remembered(r, e).(s := StepRet(w, r.s, e).s, evidence := Noted(r.evidence, r.s, e))
  }

  /** What the observer remembers of an event that comes now. */
  function Remembered(r: Run, e: Event): Run {
    match e
    case InputOffered(input) =>
      r.(accepted := input.id + 1, tidy := r.tidy && input.blocksValid, jumped := r.jumped || Jumps(r.s, input),
         handled := if IsCandidate(r.s, input) then r.handled + {input.id} else r.handled)
    case SteerSeen(tag, _, _) =>
      r.(nextTag := tag + 1,
         applied := if MustHold(r.s) then r.applied + [(tag, r.s.active.value.serial)] else r.applied)
    case QueueAppend(_) => r.(tidy := false)
    case _ => r
  }

  /**
    What the actor and the driver contract guarantee of the next event: names are fresh, the
    stream is delivered once, and the ordered stream reports calls that were started, each at
    most once and in call order.
   */
  predicate Enabled(r: Run, e: Event) {
    match e
    case StreamReady(_) => !r.s.streamKnown
    case InputOffered(input) => input.id >= r.accepted
    case SteerSeen(tag, _, _) => r.nextTag <= tag < r.s.started
    case _ => true
  }

  function Initial(hasHook: bool, hasSteerer: bool, queued: seq<Input>): Run {
    Run(Fresh(hasHook, hasSteerer, queued), 0, {}, 0, [], true, false, Evidence(map[], {}, {}))
  }

  /** The run after `events`, which must all be enabled. */
  function RunOf(w: World, r: Run, events: seq<Event>): Run
    decreases |events|
  {
    if events == [] then r else RunOf(w, Step(w, r, events[0]), events[1..])
  }

  predicate Possible(w: World, r: Run, events: seq<Event>)
    decreases |events|
  {
    events != [] ==> Enabled(r, events[0]) && Possible(w, Step(w, r, events[0]), events[1..])
  }
}
