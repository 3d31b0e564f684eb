# Active-turn steering, verified

A Dafny model of how a message is injected into a turn that a foreign coding agent is already
running, and of the promise that each such message has exactly one durable outcome, whatever the
races between acknowledgement, prompt completion, cancellation, deadlines and shutdown.

The model has the program's own halves and the contract between them.

* **The contract** (`DriverContract.dfy`, `SteerRequest.dfy`): which steering results are well formed
  and retry-safe, and the immutable request, whose prompt is a graph of heap blocks.
* **The backend** (`Steering*.dfy`, `TurnActor*.dfy`, `TurnProducer*.dfy`,
  `ActorDelivery.dfy`): the steering machine of a turn, the actor loop that owns it, and the
  producer that drains the driver's stream under the session lock.
* **The ACP driver** (`Admission.dfy`, `Dispatcher*.dfy`, `AcpSteering.dfy`, `Arbiter*.dfy`,
  `Mailbox*.dfy`, `TurnHandle.dfy`, `SteerSystem.dfy`, `Retry*.dfy`, `Projection*.dfy`,
  `ErrorSearch.dfy`): the single-flight dispatcher, the arbiter that merges updates, steering results
  and the prompt result into one ordered stream, the one-shot mailbox acknowledgement, the whole
  call path from `Steer` to the provider, the owner of the public channels, and the bounded search
  for a provider error.

## How to read it

Each component is written twice. A module of functions (`SteeringModel`, `ArbiterModel`,
`DispatcherModel`, `TurnActorModel`, `TurnProducerModel`, `ProjectionModel`, `MailboxModel`) says
what one step does to a state, with what the environment answers as parameters. A class beside it
(`Machine`, `TurnArbiter`, `Dispatcher`, `TurnActor`, `TurnProducer`, `Projection`, `TurnHandle`)
updates its fields in place as the program does, and every method is verified to take the object
from its old abstract state to exactly the state the function gives. The theorems are about every
finite run of the functions.

The environment is unconstrained. The delivery hook and the checked publisher answer by an
arbitrary function of the calls made so far (`World`), timers fire at any time, channels deliver in
any order, the provider answers or does not, callers give up at any moment. Where the driver
contract promises something of the provider it appears as a condition on the run: each steering
call is reported at most once, in call order, and names are fresh (`SteeringRuns.Enabled`).

Every component records what it did in a history, and most theorems have the form "each entry of
every history was allowed when it was made". The predicates named `Legal` are therefore the place
to look for what is promised: `Calls.Legal` for the delivery protocol, `DispatcherProtocol.Legal`,
`ArbiterProtocol.Legal` and `TurnProducerTheorems.Legal` for the others.

Command, call and turn identifiers are naturals that grow in order of acceptance, and transport
sequences are naturals, 0 meaning none.

## What the code does not promise

Each of these fails on a concrete input that a lemma exhibits, and another lemma states exactly when it
holds.

* A denied steering call, or one its caller may retry, need not have been refused by the provider. If
  the provider closes the completion channel while nothing is known of the call, or the admission
  channel without a value, the dispatcher takes that for a refusal
  (`DispatcherSilence.ClosedCompletionIsDenied`, `ClosedAdmissionIsDenied`,
  `RetrySilence.RetryAfterSilence`). Denials and retries are backed by the provider exactly as long
  as it does not fall silent like that (`DispatcherSilence.DenialsAreAlwaysBacked`,
  `DispatcherProtocol.DenialsAreProven`, `RetrySafety.RetryIsSafe`).
* Never-reserved requests can be queued out of acceptance order: a steering request that waits for
  the stream is overtaken by one that is queued at once, behind an ordinary input
  (`SteeringTheorems.OrdinaryInputLetsSteeringOvertake`) or for its invalid prompt
  (`SteeringOrder.InvalidPromptOvertakes`). The order holds exactly in the runs in which no request
  is queued at once while another one waits (`SteeringOrder.OrderKeptExactly`).
* `driver/steering.go` lets a producer be understood to emit in one nondecreasing key order. The key
  of an observation without a sequence exceeds every key before it, but a sequenced observation that
  follows may have a smaller one (`ArbiterKeys.KeysGoDown`). The keys are nondecreasing exactly if no
  sequenced observation is published below the highest key so far (`ArbiterKeys.KeysOrderedExactly`).
* A steering error that guarantees no delivery but carries no response sequence is normalized to a
  result the driver contract rejects, so the backend treats it as unknown instead of retrying it
  (`AcpSteering.RefusalWithoutResponse`); `AcpSteering.NormalizedIsValid` and
  `AcpSteering.ReportClassification` say exactly when.
* The bounded error search panics in a lookup if it comes to an error whose type is comparable but
  whose value is not (`ErrorSearch.UnsoundRootPanics`). On trees within the limits it does exactly if
  such an error precedes every provider error in preorder (`ErrorSearch.WithinLimitsIsPreorder`); on
  any graph it does so only at one that the root wraps (`ErrorSearch.SafeErrorDetail`).

## Model

| member | source | states |
|---|---|---|
| `SteeringTheorems.DeliveryProtocol` | backend/steering.go:223-273 | every call a turn ever makes was allowed when made: a reservation only when every earlier one was durably resolved injected, in acceptance order, never after a fallback, an unknown delivery or a failure; each decision about a request nobody decided before; the fold immediately before its resolution |
| `SteeringTheorems.AtMostOneDecision` | backend/steering.go:403-545 | in every run, failures included, no request is durably decided twice |
| `SteeringTheorems.ExactlyOneDecision` | backend/steering.go:614-644 | after shutdown of a run without a failed call or an untrackable delivery, exactly the handled requests have a decision, each exactly one |
| `SteeringTheorems.FoldExactlyWhenInjected` | backend/steering.go:403-436 | in such runs a fold is published exactly for the requests resolved injected |
| `SteeringTheorems.Conservation` | backend/steering.go:223-273 | in such runs every handled request is waiting, or active and undecided, or decided, and exactly one of the three |
| `SteeringTheorems.NoMisattribution` | backend/steering.go:320-376 | when the driver reports each call at most once, in call order, the k-th applied observation is the k-th call's and goes to the k-th attempt, and at most one call is ahead of the observations |
| `SteeringTheorems.UnreservedFifo` | backend/steering.go:482-545 | if only steering requests with valid prompts arrive, a barrier or a non-empty queue leaves nobody pending, and never-reserved requests reach the queue in acceptance order |
| `SteeringTheorems.OrdinaryInputLetsSteeringOvertake` | backend/steering.go:165-183 | a run in which an ordinary input lets a later steering request overtake an earlier one |
| `SteeringOrder.OrderKeptExactly` | backend/steering.go:223-249 | in a clean run that was shut down the never-reserved requests were queued in acceptance order exactly if none was queued at once while another one waited |
| `SteeringOrder.InvalidPromptOvertakes` | backend/steering.go:223-249 | a run without ordinary input in which a request with an invalid prompt overtakes one that waits for the stream |
| `SteeringTheorems.DeadlineProgress` | backend/steering.go:560-609 | in reachable failure-free states an undecided attempt has its deadline armed, and when it fires nothing is active or pending any more and the request is decided |
| `SteeringTheorems.DeadlineOnResolved` | backend/steering.go:591-609 | a deadline on a resolved attempt decides nothing and retires it; only a newly started call can be active after it |
| `SteeringBarriers.BarrierSafety` | backend/steering.go:251-273 | from any state, over any events: terminal, disabled, fallback barrier and fault are never lifted, and behind any of them nothing more is given to Reserve |
| `SteeringLoad.StepTame` | backend/steering.go:251-693 | every event that brings no input: a fault is never silent, requests are never multiplied between queue, pending and active, and a settled machine behind its terminal stays settled |
| `SteeringEvidence.EvidenceDecides` | backend/steering.go:320-436 | in every run, failures included: a reserved request is resolved injected only if the result last given for it, by the ordered stream or the end of its call, is valid and says injected; it goes to the queue only if that result is valid and retry-safe, is untrackable only if it is valid and says so, and unknown only if it is none of these or a clock or the shutdown caught the request undecided |
| `SteeringEvidence.EvidenceIsHeeded` | backend/steering.go:335-401 | and when no call fails it is: every reserved request has the decision its last result calls for, or unknown if a clock or the shutdown came first; only the active one may still wait, and then for the ordered stream, before the prompt's end, without a conclusive result |
| `SteeringProgress.StepCarries` | backend/steering.go:482-545 | from any state, for every event: what is sent to the normal queue arrives there, in order, and is announced; a granted reservation is a started call; nobody is left pending whom the machine could start |
| `SteeringProgress.NobodyWaitsIdly` | backend/steering.go:251-285 | in every run: with an ordered stream, no barrier and no active call nobody is pending, every granted reservation was followed by its provider call, every request sent to the queue was announced |
| `SteeringService.UndisturbedTurn` | backend/steering.go:210-285 | in a turn that nothing disturbs (ordered stream, valid prompts, calls reported injected, no failed call, no end, clock or ordinary input) nobody is sent to the queue: every request offered waits, is with the provider, or is resolved injected, and all are once the stream is there and no call is active |
| `SteeringService.TerminalClockRuns` | backend/steering.go:504-558 | in every run: after the prompt's end an attempt still undecided has the terminal clock running unless a call failed, the short one exactly if a write of its call was admitted |
| `SteeringMachine.Machine.SetStream` | backend/steering.go:165-183 | delivering the stream: unordered streams send everybody to the queue, ordered ones start pumping; the method takes the object from its old state to exactly the state, log and error of the run semantics the theorems are about |
| `SteeringMachine.Machine.Offer` | backend/steering.go:223-249 | which requests are handled, queued at once, held or pumped; the method takes the object from its old state to exactly the state, log and error of the run semantics the theorems are about |
| `SteeringMachine.Machine.Pump` | backend/steering.go:251-273 | reserve before starting; a refused reservation is dropped and faults the machine; the method takes the object from its old state to exactly the state, log and error of the run semantics the theorems are about |
| `SteeringMachine.Machine.ObserveSteer` | backend/steering.go:320-333 | an ordered steering observation is recorded on the active attempt and resolves it; the method takes the object from its old state to exactly the state, log and error of the run semantics the theorems are about |
| `SteeringMachine.Machine.ObservePrompt` | backend/steering.go:287-304 | a prompt observation is the terminal fact; the method takes the object from its old state to exactly the state, log and error of the run semantics the theorems are about |
| `SteeringMachine.Machine.BeforeTerminal` | backend/steering.go:306-318 | the terminal fact, and whether the terminal event must be held; the method takes the object from its old state to exactly the state, log and error of the run semantics the theorems are about |
| `SteeringMachine.Machine.Complete` | backend/steering.go:335-376 | a completion waits for its ordered observation unless it is conclusive by itself; the method takes the object from its old state to exactly the state, log and error of the run semantics the theorems are about |
| `SteeringMachine.Machine.ResolveAttempt` | backend/steering.go:378-401 | the decision the result and its error call for, as `EvidenceDecides` and `EvidenceIsHeeded` state it over runs; the method takes the object from its old state to exactly the state, log and error of the run semantics the theorems are about |
| `SteeringMachine.Machine.ResolveDisposition` | backend/steering.go:403-480 | the durable calls of each disposition, in order, and what follows them; the method takes the object from its old state to exactly the state, log and error of the run semantics the theorems are about |
| `SteeringMachine.Machine.QueueFallback` | backend/steering.go:482-502 | the barrier is raised before the call, the queue grows only after it; the method takes the object from its old state to exactly the state, log and error of the run semantics the theorems are about |
| `SteeringMachine.Machine.ResolvePendingBeforeTerminal` | backend/steering.go:504-531 | the active attempt is resolved or given a clock, then the pending ones are queued; the method takes the object from its old state to exactly the state, log and error of the run semantics the theorems are about |
| `SteeringMachine.Machine.QueuePendingFallbacks` | backend/steering.go:533-545 | the pending list is drained in order until a call fails; the method takes the object from its old state to exactly the state, log and error of the run semantics the theorems are about |
| `SteeringMachine.Machine.Timeout` | backend/steering.go:576-589 | the terminal clock resolves as unknown; the method takes the object from its old state to exactly the state, log and error of the run semantics the theorems are about |
| `SteeringMachine.Machine.DeadlineTimeout` | backend/steering.go:591-609 | the deadline expires the attempt; the method takes the object from its old state to exactly the state, log and error of the run semantics the theorems are about |
| `SteeringMachine.Machine.Shutdown` | backend/steering.go:614-644 | the terminal is set and whatever is undecided is resolved as unknown or queued; the method takes the object from its old state to exactly the state, log and error of the run semantics the theorems are about |
| `SteeringMachine.Machine.RetireIfDone` | backend/steering.go:673-689 | a resolved attempt leaves once its call returned or its deadline passed, and the next one starts; the method takes the object from its old state to exactly the state, log and error of the run semantics the theorems are about |
| `TurnActorTheorems.TerminalHold` | backend/turn.go:113-144 | on the ordinary path and on every cancel, interrupt and shutdown path a turn's terminal is published only when no reserved request is unresolved and nobody is pending in the machine |
| `TurnActorTheorems.DrainIsKept` | backend/turn.go:859-962 | a cancellation drain that returns without error has settled steering, also when it returns because its wait for the outcome ran out |
| `TurnActorRelay.EventsAreRelayed` | backend/turn.go:757-793 | in every run, as long as nothing failed: the events taken from the mailbox while the turn ran are published, those that are no terminal in order, and all of them in order if no terminal had to be held; a held terminal is published, still held, or replaced by a later one, never all of them replaced, and at a return to the pump nothing is held unless the turn was canceled; a drain published exactly the session bindings |
| `TurnActorRelay.DrainRelays` | backend/turn.go:859-962 | a drain that does not fail publishes the bindings it takes and no other event |
| `TurnActorRelay.SelectTakes` | backend/turn.go:167-224 | what an iteration finds in the mailbox is what it takes, to the last item |
| `TurnActorRelay.HeldForAnAttempt` | backend/turn.go:771-792 | a terminal is held only for an attempt that is not decided yet |
| `TurnActorQueue.QueueIsAccountedFor` | backend/turn.go:248-425 | at every moment of every turn, failures included: the inputs queued at its begin, those appended and those steering fell back on are exactly those in the queue and those whose cancellation was published |
| `TurnActorWord.TurnConcludes` | backend/turn.go:113-144 | once the outcome is there and steering is over the turn ends; if nothing fails it says that it was interrupted, or cancels every queued input in order if it failed, or says nothing |
| `TurnActorWord.OutcomeIsKept` | backend/turn.go:160-167 | the producer's outcome is kept, once |
| `TurnActorWord.CancellationIsSaid` | backend/turn.go:363-383 | a command that cancels the running turn ends it once the drain returns, and what is said is the interruption, then the cancellation of each input queued when the drain was over, if asked for |
| `TurnActorWord.InputIsAnswered` | backend/turn.go:248-287 | an input is rejected, and that is said, exactly at capacity; otherwise it is offered to the machine if it could be prepared, and appended to the queue exactly if it is not for the machine |
| `TurnActorWord.ClockIsHeard` | backend/turn.go:196-224 | a clock that fires reaches the machine, unless the evidence that was ready failed or made it stale |
| `TurnActorTheorems.QueueBound` | backend/turn.go:248-301 | queued inputs and unresolved steering requests together never exceed the queue capacity |
| `TurnActorTheorems.QueueBoundForLife` | backend/loop.go:77-122 | the bound holds across all turns of the actor's life |
| `TurnActorTheorems.CancelPendingIsExact` | backend/turn.go:411-425 | one cancellation per queued input, in order; on a failed publication exactly the inputs whose cancellation was not published stay |
| `TurnActorTheorems.CancelPendingIsSilent` | backend/turn.go:411-425 | however far it gets, it makes no steering call and leaves the machine alone |
| `ActorDelivery.ActorFollowsMachine` | backend/turn.go:93-241 | the actor's loop, commands and drains move the machine only through its events, so its machine is always where a run of events leads |
| `ActorDelivery.NeverTwoDecisions` | backend/turn.go:93-409 | over every turn of the actor no request is durably decided twice |
| `ActorDelivery.OneDecisionOnReturn` | backend/turn.go:99-106 | whichever way a turn returns, every request its machine took on has exactly one decision, unless a call failed or a delivery was untrackable |
| `TurnActorLoop.TurnActor.Run` | backend/turn.go:93-241 | awaitTurn, iteration by iteration; exactly the transition the theorems about every turn are stated on |
| `TurnActorLoop.TurnActor.Head` | backend/turn.go:113-144 | the held terminal, then the outcome, once steering is settled; exactly the transition the theorems about every turn are stated on |
| `TurnActorLoop.TurnActor.Fire` | backend/turn.go:196-224 | evidence already there precedes a clock, and a clock it made stale does nothing; exactly the transition the theorems about every turn are stated on |
| `TurnActorLoop.TurnActor.Handle` | backend/turn.go:243-409 | what each command does during a turn; exactly the transition the theorems about every turn are stated on |
| `TurnActorLoop.TurnActor.AcceptInput` | backend/turn.go:248-287 | the capacity check, the offer and the queue; exactly the transition the theorems about every turn are stated on |
| `TurnActorLoop.TurnActor.CancelTurn` | backend/turn.go:363-383 | drain, publish the interruption, cancel the queue, leave; exactly the transition the theorems about every turn are stated on |
| `TurnActorLoop.TurnActor.StopTurn` | backend/turn.go:384-404 | drain, shut the machine down, cancel the queue, leave; exactly the transition the theorems about every turn are stated on |
| `TurnActorLoop.TurnActor.CancelPending` | backend/turn.go:411-425 | the head leaves the queue only after its cancellation was published; exactly the transition the theorems about every turn are stated on |
| `TurnActorLoop.TurnActor.Process` | backend/turn.go:757-793 | an observation is adjudicated before its event is published, held or suppressed; exactly the transition the theorems about every turn are stated on |
| `TurnActorLoop.TurnActor.Drain` | backend/turn.go:859-962 | the cancellation drain; exactly the transition the theorems about every turn are stated on |
| `TurnProducerTheorems.TurnKeepsProtocol` | backend/turn.go:495-559 | for every stream, sink and lock: a lock is held from the first acquisition until just before the outcome is sent, the durable one taken before the temporary is let go; at most one terminal, last, TurnDone exactly on success and none exactly on interruption; committed is what the sink accepted, in order |
| `TurnProducerOutcome.SuccessIsTheStreams` | backend/turn.go:495-695 | from the stream alone: a turn is a success exactly if its lock was granted, the provider was started and closed without an error, it was not canceled, the session's lock was had, and what was heard of the stream ends without a failure and names the session, or was cut off by the sink after no failure; it is reported interrupted exactly if canceled once spawned, with the session the stream named |
| `TurnProducerOutcome.CommitsTheStreams` | backend/turn.go:967-1006 | the groups handed over are the transcript's, or the assistant's messages of the stream one by one, in order, up to the first the sink refuses, and none if the turn does not commit |
| `TurnProducerOutcome.EventsAreTheStreams` | backend/turn.go:636-686 | what is announced while the turn runs is its session, once named, and what the content heard maps to, in order |
| `TurnProducerTheorems.DrainKeeps` | backend/turn.go:561-634 | the drain hands over no terminal and no step, and still holds its lock |
| `TurnProducerTheorems.OneItemPerObservation` | backend/turn.go:590-634 | exactly one mailbox item per known observation, in order; all of them, or as many as were handed over when the sink stopped the drain |
| `TurnProducerTheorems.OnlyTheLastIsRefused` | backend/turn.go:590-634 | the drain stops at the first item the sink refuses: it accepted every item before, and refused the last if the drain was stopped |
| `TurnProducerLoop.TurnProducer.Drive` | backend/turn.go:495-559 | driveTurnToSink: locks, spawn, drain, commit, terminal and outcome as the protocol theorem sees them |
| `TurnProducerLoop.TurnProducer.Consume` | backend/turn.go:636-686 | what one driver event gathers, binds and hands over |
| `TurnProducerLoop.TurnProducer.CommitGroups` | backend/turn.go:976-1006 | groups are handed over until one is refused |
| `ArbiterTheorems.ArbiterKeepsProtocol` | driver/acp/turn.go:677-775 | everything the arbiter publishes, answers and submits was allowed at that point: observations once and unaltered, by sequence behind the update barrier, local ones last and with a growing key, one reply per command and equal to its observation, no submission after an ambiguous outcome |
| `ArbiterTheorems.Conservation` | driver/acp/turn.go:825-955 | a command taken is answered, or its observation is pending, or its provider call is out: exactly one of the three, at every step |
| `ArbiterTheorems.OneObservationOneReply` | driver/acp/turn.go:1170-1261 | at an exit by terminal or by sequence regression every command taken had exactly one observation and one reply, with the same result and error |
| `ArbiterTheorems.NeverTwoReplies` | driver/acp/turn.go:1170-1213 | at any time, also after a shutdown, no command has two replies, and none differs from what was published |
| `ArbiterTheorems.OrderedMerge` | driver/acp/turn.go:1079-1159 | at an exit by terminal the observations published with a sequence are those accepted, stably sorted by it, unaltered |
| `ArbiterTheorems.LocalKeys` | driver/acp/turn.go:1105-1141 | observations without a sequence come out in acceptance order, each with a key above every key before it |
| `ArbiterKeys.KeysOrderedExactly` | driver/acp/turn.go:1079-1141 | in every run the keys of the published observations are nondecreasing exactly if no sequenced one was published below the highest key so far |
| `ArbiterKeys.KeysGoDown` | driver/acp/turn.go:1105-1120 | a run whose keys are 1, 2 and 1 |
| `ArbiterTheorems.SlotsAreFreed` | driver/acp/turn.go:795-807 | however the arbiter ends, every slot of every command it received is free |
| `ArbiterTheorems.NothingAfterAmbiguity` | driver/acp/turn.go:946-972 | after an unknown or untrackable delivery no further provider call is submitted in the turn |
| `ArbiterIntake.IntakeIsExact` | driver/acp/turn.go:800-966 | in every run the observations accepted beside the prompt's are, in order, one for each event of each live notification and none of a replay, the refusal of each command that cannot be delivered, and the answer of each report of a call that was out; the provider calls submitted are those of the deliverable commands |
| `ArbiterIntake.PromptIsPublishedOnce` | driver/acp/turn.go:690-711 | at an exit by terminal exactly one prompt observation was published, with the sequence that arrived; at any other time at most that one, and none before the arrival; it was accepted only when the updates had been drained |
| `ArbiterProgress.PromptAsksForTerminal` | driver/acp/turn.go:687-702 | the pass after the prompt's result arrived asks for the terminal, whatever else is ready |
| `ArbiterProgress.ArbiterComesToItsEnd` | driver/acp/turn.go:677-776 | from any state in which the prompt's result is there, no steering call is out, the terminal is complete and the barrier worker lives: its answers alone bring the arbiter to its end, within a number of passes bounded by what is pending |
| `ArbiterProtocol.BestIsNext` | driver/acp/turn.go:1143-1159 | the chosen index is the first one with the least sequence, and 0 if nothing has a sequence |
| `ArbiterLoop.TurnArbiter.Run` | driver/acp/turn.go:677-775 | the loop, iteration by iteration; exactly the transition the arbiter theorems are stated on |
| `ArbiterLoop.TurnArbiter.AcceptCommand` | driver/acp/turn.go:825-886 | acknowledgement, the checks before the provider is asked, and the submission; exactly the transition the arbiter theorems are stated on |
| `ArbiterLoop.TurnArbiter.AcceptReport` | driver/acp/turn.go:888-955 | terminal completion, unknown ids, late and ordinary reports; exactly the transition the arbiter theorems are stated on |
| `ArbiterLoop.TurnArbiter.BeginTerminal` | driver/acp/turn.go:974-988 | queued commands come before the terminal marker; exactly the transition the arbiter theorems are stated on |
| `ArbiterLoop.TurnArbiter.RequestBarrier` | driver/acp/turn.go:1058-1077 | when a barrier is asked for; exactly the transition the arbiter theorems are stated on |
| `ArbiterLoop.TurnArbiter.NextObservationIndex` | driver/acp/turn.go:1143-1159 | the scan for the next observation; exactly the transition the arbiter theorems are stated on |
| `ArbiterLoop.TurnArbiter.TryEmit` | driver/acp/turn.go:1079-1123 | hold, barrier, regression or emission; exactly the transition the arbiter theorems are stated on |
| `ArbiterLoop.TurnArbiter.EmitObservation` | driver/acp/turn.go:1170-1213 | the observation, then its reply, then its slot; exactly the transition the arbiter theorems are stated on |
| `ArbiterLoop.TurnArbiter.FailSequence` | driver/acp/turn.go:1233-1261 | every call out and every pending reply gets its observation and reply, nothing is relabelled; exactly the transition the arbiter theorems are stated on |
| `AcpSteering.NormalizedIsValid` | driver/acp/steering.go:251-294 | an admitted result normalizes to one the driver contract accepts exactly when its sequences agree and a refused delivery has a response |
| `AcpSteering.RefusalWithoutResponse` | driver/acp/steering.go:251-302 | a steering error that guarantees no delivery but has no response sequence is normalized to an invalid fallback, which the backend takes as unknown |
| `AcpSteering.AdmittedRetryNeedsProof` | driver/acp/steering.go:251-302 | a call that crossed the writer is retry-safe exactly on the provider's own word, and never claims not to have crossed it |
| `AcpSteering.ReportClassification` | driver/acp/turn.go:888-966 | whatever the dispatcher reports, the backend folds exactly the ordered injections, retries exactly what provably was not delivered, and treats the rest as unknown or untrackable |
| `DispatcherProtocol.DispatcherProtocolHolds` | driver/acp/dispatcher.go:226-397 | provider calls start in submission order, one at a time, never after the terminal marker; the terminal completes once, with every job received so far reported exactly once; never-started jobs are denied; a second report comes after that, once, and says late; the report that ends a call comes at once and carries the provider's own outcome, sequences and error, with the admission concluded, late exactly if the call was reported before or its context was done; any other report carries nothing but the admission |
| `DispatcherProtocol.DenialsAreProven` | driver/acp/dispatcher.go:96-137 | of an attempt sealed or reported as not admitted the provider was never invoked, or gave no handle, or said itself that it did not admit it, exactly unless it closed a channel of the call before it said anything and has not refused it since |
| `DispatcherSilence.DenialsAreAlwaysBacked` | driver/acp/dispatcher.go:345-383 | in every run all denials are at all times backed by the provider, exactly if no pass closes a channel on a call of which nothing is known |
| `DispatcherSilence.ClosedCompletionIsDenied` | driver/acp/dispatcher.go:361-372 | a run in which the completion channel closes without a completion, and the invoked call is reported as not admitted |
| `DispatcherSilence.ClosedAdmissionIsDenied` | driver/acp/dispatcher.go:348-359 | a run in which the admission channel closes without a value, the terminal has the call reported as not admitted, and the completion then says that it was |
| `DispatcherProtocol.NoJobIsLost` | driver/acp/dispatcher.go:226-397 | every job received is waiting, being called or reported |
| `DispatcherProtocol.GraceCompletesTerminal` | driver/acp/dispatcher.go:345-395 | once the grace timer fires the terminal completes within two passes, whatever the provider does |
| `DispatcherService.WaitingJobIsStarted` | driver/acp/dispatcher.go:257-450 | at any moment of any run an idle dispatcher calls the provider for the job that waits first exactly if the job's context is not done, its caller has not given it up, and the session can be steered; otherwise it reports it |
| `DispatcherService.ProviderIsHeard` | driver/acp/dispatcher.go:345-383 | the provider's word on an unanswered call is recorded, and reported at once after the terminal marker; the end of a call ends it, reports it and makes room for the next |
| `DispatcherSeals.TripKept` | driver/acp/dispatcher.go:109-137 | no pass takes back a seal, a denial or a receipt, and only the pick of a job receives one |
| `DispatcherLoop.Dispatcher.Run` | driver/acp/dispatcher.go:226-397 | the loop, pass by pass; exactly the transition the dispatcher theorems are stated on |
| `DispatcherLoop.Dispatcher.StartJob` | driver/acp/dispatcher.go:399-450 | the linearized start and what the session turns out to be; exactly the transition the dispatcher theorems are stated on |
| `DispatcherLoop.Dispatcher.Finish` | driver/acp/dispatcher.go:452-492 | the completion passed on, its admission reconciled with what is known; exactly the transition the dispatcher theorems are stated on |
| `DispatcherLoop.Dispatcher.ResolveTerminalActive` | driver/acp/dispatcher.go:494-515 | the unanswered call is reported at the terminal; exactly the transition the dispatcher theorems are stated on |
| `DispatcherLoop.Dispatcher.ResolveQueued` | driver/acp/dispatcher.go:240-260 | never-started jobs are given up in order; exactly the transition the dispatcher theorems are stated on |
| `Admission.SteerAttempt.BeginStart` | driver/acp/dispatcher.go:96-107 | starting wins exactly when nobody sealed or started the attempt before |
| `Admission.SteerAttempt.MarkAdmission` | driver/acp/dispatcher.go:109-122 | a sealed attempt stays sealed |
| `Admission.SteerAttempt.CancelAndSnapshot` | driver/acp/dispatcher.go:127-137 | an unstarted attempt is sealed, a started one is left as it is |
| `RetrySafety.RetryIsSafe` | driver/acp/driver.go:383-462 | in every interleaving of callers, mailbox, arbiter and dispatcher: of a call whose caller was told unsupported or fallback-required without an admitted write, the provider was never invoked, or gave no handle, or said that it did not admit it, exactly unless it fell silent on the call |
| `RetrySafety.RetryStaysSafe` | driver/acp/driver.go:383-462 | the same in every continuation of the run |
| `RetrySilence.RetryAfterSilence` | driver/acp/driver.go:383-462 | a whole run in which the provider falls silent and the caller is told to retry |
| `RetrySafety.RefusedNeverInvoked` | driver/acp/driver.go:395-426 | a call turned away or refused by the mailbox is never handled and never reaches the provider |
| `RetrySafety.TimeoutNeverRetryable` | driver/acp/driver.go:441-462 | a caller that gives up waiting after its command crossed the mailbox never claims that a retry is safe |
| `RetryReplies.CallersHearTheArbiter` | driver/acp/driver.go:383-462 | in every interleaving a call that returned was turned away or refused and says so, or its context was done and it claims no more than that allows, or it returned the arbiter's reply, which is what a report of the dispatcher about this very call comes to, or a failure, or a refusal if it never went there |
| `RetryReplies.ReplyIsTaken` | driver/acp/driver.go:427-462 | a caller that waits gets the arbiter's reply as soon as it is there, unaltered |
| `TurnHandles.CallerTimeout` | driver/acp/driver.go:441-462 | the attempt is sealed if unstarted, and the claim follows its admission |
| `MailboxModel.RefusedIsNeverConsumed` | driver/acp/turn.go:175-294 | a send that returned terminal or rejected is not consumed by the arbiter before or after; one that returned accepted was |
| `MailboxModel.AckIsFinal` | driver/acp/turn.go:148-160 | an acknowledgement resolves at most once |
| `MailboxModel.NothingPendingAfterRetire` | driver/acp/turn.go:276-294 | after retirement no tracked acknowledgement is pending, whatever still runs |
| `MailboxModel.ConsumedIsAccepted` | driver/acp/turn.go:789-793 | what the arbiter consumes it consumes once and accepts |
| `MailboxService.SendsAreServed` | driver/acp/turn.go:175-274 | a send that comes while the mailbox is open and has room gets in unless its caller gave up before, and an arbiter at work that takes what is queued accepts every send that got in and is not answered yet |
| `TurnHandles.SteerSendAck.Resolve` | driver/acp/turn.go:148-160 | the first resolution wins |
| `TurnHandles.TurnHandle.Enter` | driver/acp/turn.go:175-217 | the first critical section of a send |
| `TurnHandles.TurnHandle.Retire` | driver/acp/turn.go:276-294 | every tracked acknowledgement that is still pending becomes terminal, in any order |
| `ObservationLane.Lane.Reserve` | driver/acp/reservation.go:55-69 | while the lane is open used slots are the reservations not yet released, never above capacity; closed and exhausted are told apart |
| `ObservationLane.Reservation.Release` | driver/acp/reservation.go:71-82 | a slot is freed once; releasing again or after close changes nothing |
| `ObservationLane.Lane.Close` | driver/acp/reservation.go:84-92 | closing frees every slot at once |
| `ProjectionTheorems.DeliveredIsPrefix` | driver/acp/projection.go:195-301 | what reaches the selected channel is a prefix of the commands admitted for that view, and nothing is delivered unselected |
| `ProjectionTheorems.DrainedDeliversAll` | driver/acp/projection.go:127-140 | an owner that stops without abort and without a full output has delivered all of them |
| `ProjectionTheorems.ClosedExactlyOnce` | driver/acp/projection.go:200-226 | nothing is closed twice or sent on a closed channel; when the owner is gone every acknowledgement promised and both channels are closed |
| `ProjectionTheorems.RetainedIsBounded` | driver/acp/projection.go:146-193 | retained commands never exceed 4096 |
| `ProjectionTheorems.ClosingProgresses` | driver/acp/projection.go:228-301 | a closing owner needs no consumer: each iteration lets go of a command or returns |
| `ProjectionAdmissions.AdmittedExactly` | driver/acp/projection.go:87-173 | in every run the projection admits, in order, exactly what it is offered while it is open and has room, a view once |
| `ProjectionOwner.Projection.Admit` | driver/acp/projection.go:103-173 | enqueue, and who closes the acknowledgement of a refused observation; exactly the transition the projection theorems are stated on |
| `ProjectionOwner.Projection.CommandConsumed` | driver/acp/projection.go:175-184 | the generation channel is closed only while the projection is open; exactly the transition the projection theorems are stated on |
| `ProjectionOwner.Projection.MarkClosed` | driver/acp/projection.go:186-193 | the producers' side is closed once; exactly the transition the projection theorems are stated on |
| `ProjectionOwner.Projection.OwnerTrip` | driver/acp/projection.go:228-301 | one iteration of the owner; exactly the transition the projection theorems are stated on |
| `ProjectionOwner.Projection.Leave` | driver/acp/projection.go:202-226 | the owner's cleanup; exactly the transition the projection theorems are stated on |
| `SteerRequests.CloneBlocks` | driver/steering.go:53-79 | on any heap graph: succeeds exactly when the list is non-empty, not too deep and every block unfolds; the copy has the same unfolding and is made of fresh memory |
| `SteerRequests.CloneBlock` | driver/steering.go:83-160 | the same for one block; a block met again while it is being copied is refused |
| `SteerRequests.CyclesDoNotUnfold` | driver/steering.go:138-144 | refusing a cycle refuses nothing that has a finite unfolding |
| `SteerRequests.CloneBytes` | driver/steering.go:162-169 | a fresh copy that keeps nil apart from empty |
| `SteerRequests.SteerRequest.New` | driver/steering.go:21-27 | the request means what the prompt means, out of memory of its own |
| `SteerRequests.SteerRequest.Prompt` | driver/steering.go:39-48 | every copy means what the request holds and shares nothing with it |
| `SteerRequests.SteerRequest.Validate` | driver/steering.go:32-35 | exactly whether the request holds a well-formed prompt |
| `SteerRequests.RequestIsImmutable` | driver/steering.go:10-48 | whatever is later done to the prompt passed in or to one handed out, the request keeps its meaning |
| `ErrorSearch.SafeErrorDetail` | driver/acp/turn.go:1380-1419 | the search ends on every graph, after at most 128 visits, with what the bounded search gives: a detail, nothing, or a panic in the lookup of an error; and the error it ends at is really wrapped by the given one, at most 32 deep |
| `ErrorSearch.FoundIsWrapped` | driver/acp/turn.go:1380-1419 | from any stack of errors below the root, whatever error the search ends at is wrapped by the root, at most 32 deep |
| `ErrorSearch.MarkSeen` | driver/acp/turn.go:1455-1465 | an error met before is skipped, one of a type that is not comparable is never remembered, and the lookup panics exactly on an unsound one |
| `ErrorSearch.UnsoundRootPanics` | driver/acp/turn.go:1455-1465 | an error of a comparable type that holds an uncomparable value panics in its lookup, before its fields are looked at |
| `ErrorSearch.WithinLimitsIsPreorder` | driver/acp/turn.go:1393-1419 | on trees of distinct errors within the limits it ends at the first error in preorder that provides a detail or cannot be looked up |

## Left out

- Driver.Steer as one blocking method: a call is modelled as the atomic steps it takes (`SteerSystem.Step`), numbered by calls instead of carrying a context; contexts are done when a step says so.
- SteerSystem.Apply: a handle without a lane, which no spawned turn has, and the blocking unreserved send, which `MailboxModel` covers.
- SteerSystem.Apply: the dispatcher's reports may reach the arbiter in any order, more than the channel allows; their order is the arbiter's own model.
- ArbiterModel.AcceptCommand: submitted jobs keep their command's number instead of a second counter.
- ArbiterModel.FailSequence: unanswered calls are flushed in submission order, Go's map order is arbitrary.
- ArbiterLoop.TurnArbiter: the translation of updates to events, the legacy event projection, the assembled message and the wait of at most 100 ms between an observation and its reply.
- DispatcherLoop.Dispatcher: attempts live in one map by number; their sharing by pointer is `Admission.SteerAttempt`. Canceling a handle and stopping the event channel have no effect here.
- SteeringMachine.Machine: the attempt's identity is its call number, its context and channels are the calls and completions of a run; timer durations are two symbolic bounds.
- SteeringMachine.Loop: the queue and the environment only; header stamping, prompt cloning and logging are not modelled.
- TurnActorLoop.TurnActor: committed messages, the turn index and the learned session id of `applyOutcome`, acknowledgement channels of commands, snapshots.
- TurnActorModel.Drain: a cancellation drain goes through given rounds; a run whose rounds end before it returns is cut short there.
- TurnProducerModel.Drive: transcripts, messages and mapped events are opaque numbers; what the mapper makes of an event is one bit, because it yields at most one.
- ProjectionModel.Admit: a producer that finds the mailbox full waits, which is no step; the stop command nobody sends is absent.
- SteerRequests.CloneBlock: error texts; a nil block and a nil typed pointer are both null; scalar fields of a block are one string.
- ErrorSearch.Search: whether the lookup of an error works is a constant of the error, one of three kinds; a panicking Unwrap is a graph that yields nothing; formatting, redaction and truncation of the detail.
- Process supervision, file locks, dialing, configuration, permissions, path checks and redaction: foreign calls or field checks.
- Version allowlists and capability advertisement: constant tables.
- Real time, identifier minting and the wrap-around of 64-bit sequences.
