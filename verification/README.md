# Lichtung in Dafny: recording, the poset engine, and replay

Lichtung runs actors that stamp every event with a vector clock and a Lamport
counter and write a causal log. Offline, the log is rebuilt into a poset, checked
against its clocks, and laid out in one canonical order; the same actor code can then
be driven again over the recorded receives, and every event it produces is compared
with the recorded one. This project models that pipeline end to end and proves what it
is for: the clocks are an exact picture of causality, and record-then-replay is
faithful precisely when it should be.

## How the model is laid out

| file | what it holds |
|---|---|
| `Names`, `Clocks`, `Events`, `Logs` | ids and their wire spelling, clock values and the in-place clock classes, log entries, the stamping rules, and what a stamped log is |
| `Recorder`, `Traces` | the concurrent recorder as a machine of atomic steps over tasks, mailboxes, the id counter, the in-flight counter, the waiter's permit and the log; one actor's history as a value |
| `Recordings`, `Quiescence`, `Ownership`, `Channels`, `Runs` | what every run keeps, the counter and the wake-up protocol, who may count whose events, the order of deliveries, and the results about all runs |
| `Runtime` | the recorder's code as objects updated in place, each method proved to be a run of the machine's steps |
| `Graphs`, `Posets`, `Causality`, `Extensions`, `Engine`, `Determinism` | paths and cycles, `build` and `validate`, Kahn's algorithm, the depth-first search, `replay_log`, independence of the log's listing order |
| `Embedding` | the theory of stamped logs |
| `Replays`, `Replayer` | re-execution: what each step does to the replay state, and the object that carries the state in place |
| `Recall`, `Simulation`, `Fidelity` | the simulation between the recorder and the replayer |
| `Verdict`, `Payloads` | what an empty divergence list means, and what replay cannot see |
| `Calls`, `Histories`, `Complaints` | any replay, faithful or not: what a call touches, which histories of the code were re-executed, and exactly what is complained of |
| `Tracks`, `Locality` | other code on a recorded log: what differs stays in the causal future of what differs |
| `Drift`, `Lockstep`, `Gaps` | replay by other code: explained by local histories, and by runs of that code |
| `Acceptance` | recording, the engine and the replayer put together |

User code is a `Program`: arbitrary deterministic functions from an actor's state and a
message to a new state and a list of sends and computes, plus a `started` hook. Message
payloads and actor states are abstract types, so nothing proved depends on them.

The machine interleaves tasks and the main thread without restriction. Drawing an id,
logging, raising the counter, delivering, lowering the counter and notifying are
separate steps, so the order of those operations in the code is what the proofs rest
on. The fields `place`, `sentAt`, `origins` and a task's `trace` are history: no step
reads them.

## Main results

* **Exact embedding.** In the log of every run with at most one origin, `V(a) < V(b)` if
  and only if the poset has a path from `a` to `b`, and incomparable clocks are exactly
  unrelated events (`Runs.RunEmbedding`, `Runs.RunConcurrency`). One origin at most is
  the exact condition: the stimuli of two carry the same clock (`Runs.EmbedsIff`).
* **Record then replay.** A snapshot of any run with at most one origin replays without
  divergence if and only if its message numbers fit 64 bits and no hook or handler had
  actions left to record, in every order that respects the poset, with the final actor
  states and stamps of the recording (`Fidelity.FaithfulIff`, `Runs.RunFaithfulIff`,
  `Runs.RecordThenReplay`, `Fidelity.Confluence`, `Acceptance.SameEvents`).
* **Drift.** *Other* code replays the log of such a run faithfully if and only if that
  code has a run of the recorder of its own, on the stimuli it is given, that leaves the
  very same log with nothing undone (`Lockstep.RunDriftIff`). From a faithful replay the
  run is built by leading the other code through the recorded one, step by step. The
  snapshot must not be taken between the drawing of a message number and the logging of
  its send; `Gaps.GapInNumbers` shows that this is needed. For every snapshot, faithful
  replay is equivalent to an explanation by local histories, actor by actor
  (`Drift.DriftIff`), and a run always gives a faithful replay
  (`Lockstep.CompleteRunReplays`).
* **Drift stays local.** Replay a run's log with code that differs from the recorded code
  in a set of actors, on stimuli that differ only if that set has `world`. Whatever that
  code does, every recorded event with no event of those actors at or before it is
  re-executed exactly and no complaint names it, and an actor all of whose events are
  such ends in its recorded state (`Locality.DriftStaysLocal`,
  `Locality.UntouchedActorReplays`). More sharply, this holds of every event that the
  other code would make from what its actor received, like everything in its past
  (`Locality.SafeIsReproduced`).
* **The divergence list is exact.** On any log, by any code, in any order: a complaint of
  each kind is made if and only if its ground holds (`Complaints.ComplaintsAreExact`), and
  what was re-executed are histories of that code, every handler run to its end, out of
  messages sent or supplied (`Histories.ReplayIsExecution`).
* **What replay cannot see.** Code related to the recorded code by any relation on
  payloads and states that keeps the shape of the actions gets the same verdict on every
  log (`Payloads.PayloadBlind`); in particular a handler that computes other values for
  the same sends (`Payloads.ValuesUnseen`), and a stimulus supplied for the wrong actor
  (`Payloads.AddressUnseen`).
* **Meaning of the verdict.** On an arbitrary log with distinct event ids, an empty
  divergence list means the re-executed events are the recorded ones, one for one, and
  the send counts agree; if moreover no two emits are read as the same message number,
  no message was received twice (`Verdict.EmptyMeansSame`).
* **The engine.** `linearize` succeeds exactly on acyclic graphs, returns the least
  extension under its key, and otherwise counts the events on or behind a cycle;
  `replay_log` accepts exactly the logs whose clocks agree with their edges, never
  reports a cycle, and names every arrow from cause to effect; the search computes
  exactly the transitive closure.
* **Deliveries.** In every run, if a message was received then everything its sender sent
  to the same receiver before it was received too, and earlier (`Channels.RunKeepsOrder`).
* **Quiescence.** The counter equals messages undelivered, queued and being handled;
  no wake-up is lost; a zero reading means quiet if and only if every `started` hook has
  finished; quietness is stable (`Quiescence.*`).

## Where the code and its comments differ

The model follows the code.

* `send_external` is described as injecting *the single* origin, but it can be called
  again (`Runs.OriginCanRepeat`), and every call stamps `{world: 1}` with sequence
  number 1. The log is accepted by the engine if and only if there was at most one
  (`Runs.RunAccepted`).
* `run_until_quiescent` waits until no message is in flight, but a `started` hook is not
  counted. If one is still outstanding the system can shut down without it
  (`Runs.HookCanBeMissed`); the exact condition is `Runs.RunFaithfulIff`.
* The comment on the sentinel id says that the completeness check flags a send the
  recording lacks. What flags it is the divergence pushed when the id is drawn
  (`Simulation.ActBeyond`); completeness looks only at recorded events.
* "Byte-exact fidelity" is exactness of the causal events. They carry no payload, and
  replay cannot tell payloads apart (`Payloads.PayloadBlind`).

## Hypotheses

* Actor names are distinct and none is `world`; a send goes to a spawned actor, since
  addresses come only from spawning (`Program.WellFormed`).
* The exact embedding and the results about replaying a run assume at most one origin.
  This is needed: see `Runs.EmbedsIff` and `Runs.RunAccepted`. Clock ownership, routing,
  single receipt, numbering and the counter's results hold for any number of origins.
* Replay reads message numbers back with a 64-bit parser. Where that matters the
  condition is `FitsWidth` of the log, which holds as long as the id counter stayed
  within 64 bits (`Runs.CounterFits`) and which every faithful replay implies
  (`Verdict.FaithfulFits`).
* The numbers for sends that the recording lacks are counted down from the top of the
  64-bit range. The results in `Locality` assume that these do not run down to a recorded
  number: every recorded number plus any actor's send count stays below the top
  (`Calls.Room`). `Histories` and `Complaints` assume nothing.
* Handlers do not panic, and actors share no state outside messages.
* A task is aborted only at its mailbox, and only after quiescence was declared.

## Model

| member | source | states |
|---|---|---|
| Names.EventIdInjective | crates/lichtung-core/src/event.rs:6-8 | `actor:seq` identifies the pair, even when names contain colons or digits |
| Names.MidInjective | crates/lichtung-core/src/event.rs:11-13 | different message numbers have different wire ids |
| Names.ParseMidRoundTrip | crates/lichtung-replay/src/reexec.rs:20-22 | a wire id is read back as its number exactly when the number fits 64 bits |
| Names.ParseMidCollapses | crates/lichtung-replay/src/reexec.rs:20-22 | the lenient parser is not injective on ids it did not write |
| Names.DecimalNotation | crates/lichtung-core/src/event.rs:6-13 | ids are written in decimal: the digits times powers of ten of their places sum to the number, in the least number of digits |
| Names.NineAndTen | crates/lichtung-core/src/event.rs:6-13 | the ninth event of `a` is `a:9` and the tenth `a:10`, and likewise for messages |
| Names.ParseMidExact | crates/lichtung-replay/src/reexec.rs:20-22 | a message id is read back exactly when it is `m`, an optional plus, and one or more digits of a decimal value within 64 bits; and that value is read |
| Names.NameOrder | crates/lichtung-replay/src/extension.rs:19-22 | names compare by proper prefix, else by the first character that differs |
| Names.SortedKeys | crates/lichtung-replay/src/reexec.rs:294-295 | the name list is strictly increasing and lists exactly the given names |
| Clocks.ExactlyOneRelation | crates/lichtung-clock/src/lib.rs:120-144 | two clocks are before, after, equal or concurrent, and never two of these |
| Clocks.LtTransitive | crates/lichtung-replay/src/poset.rs:5-20 | strict clock order is transitive, so it cannot go round a cycle |
| Clocks.SamePointwise | crates/lichtung-clock/src/lib.rs:62-69 | equality is agreement on every component; stored zeros are invisible |
| Clocks.MergeIsLeastUpperBound | crates/lichtung-clock/src/lib.rs:95-104 | merge is the least upper bound of the product order |
| Clocks.CanonicalSameIsEqual | crates/lichtung-clock/src/lib.rs:62-69 | on clocks without stored zeros the order's equality is identity of representations |
| Clocks.CanonicalKept | crates/lichtung-clock/src/lib.rs:89-104 | increment and merge never store a zero |
| Clocks.Lamport.Tick | crates/lichtung-clock/src/lib.rs:12-15 | a local event advances the counter by one and returns it |
| Clocks.Lamport.Update | crates/lichtung-clock/src/lib.rs:18-21 | a receive moves the counter past both |
| Clocks.VectorClock.Set | crates/lichtung-clock/src/lib.rs:81-87 | one component changes, the others do not, and no zero is stored |
| Clocks.VectorClock.Bump | crates/lichtung-clock/src/lib.rs:90-92 | only the own component rises, by one |
| Clocks.VectorClock.MergeFrom | crates/lichtung-clock/src/lib.rs:95-104 | the in-place loop computes the least upper bound |
| Clocks.VectorClock.PartialCmp | crates/lichtung-clock/src/lib.rs:120-144 | the early-exit loop decides the product order in all four outcomes |
| Clocks.VectorClock.HappensBefore | crates/lichtung-clock/src/lib.rs:106-108 | true exactly for strict product order |
| Clocks.VectorClock.Concurrent | crates/lichtung-clock/src/lib.rs:110-112 | true exactly for incomparable clocks |
| Clocks.FromWire | crates/lichtung-replay/src/reexec.rs:26-32 | rebuilding by repeated `set` gives the wire map without its zeros |
| Clocks.WireRoundTrip | crates/lichtung-clock/src/lib.rs:114-117 | the wire form keeps a clock's meaning, and the clock itself exactly when no zero is stored |
| Clocks.WireAgrees | crates/lichtung-replay/src/poset.rs:7-20 | comparing wire maps and comparing the clocks read from them agree in every outcome |
| Events.ActorCell.StampSend | crates/lichtung-core/src/context.rs:40-53 | a send advances the three counters, and its envelope and emit event carry the advanced stamp |
| Events.ActorCell.StampCompute | crates/lichtung-core/src/context.rs:58-64 | a compute event advances the three counters and carries them |
| Events.ActorCell.StampRecv | crates/lichtung-prod/src/system.rs:30-35 | a receive merges the envelope's clock, then counts itself, and its event carries the result |
| Runtime.SharedRuntime.DecInFlight | crates/lichtung-prod/src/shared.rs:43-47 | the count falls by one, and reaching zero stores the waiter's permit |
| Runtime.SharedRuntime.Deliver | crates/lichtung-prod/src/dispatch.rs:23-32 | a delivery raises the count and queues the message; a refused one leaves count and mailboxes as they were |
| Runtime.SendSteps | crates/lichtung-core/src/context.rs:40-55 | an uninterrupted send is a run of the machine's steps, with one more id, one more log line, and the message queued or the count unchanged |
| Runtime.ActorTask.Send | crates/lichtung-core/src/context.rs:40-55 | the in-place send ends in the machine state those steps reach |
| Runtime.ActorTask.Compute | crates/lichtung-core/src/context.rs:58-64 | the in-place compute is one step of the machine |
| Runtime.ActorTask.Receive | crates/lichtung-prod/src/system.rs:29-42 | taking and logging a message is two steps of the machine, and leaves the handler's actions to do |
| Runtime.ActorTask.RunActions | crates/lichtung-prod/src/system.rs:45-48 | a handler's context calls in order are a run of the machine that leaves nothing to do |
| Runtime.ActorTask.HandleNext | crates/lichtung-prod/src/system.rs:29-51 | one loop iteration is a run of the machine from mailbox to mailbox, counter and permit included |
| Runtime.ActorTask.RunStarted | crates/lichtung-prod/src/system.rs:24-27 | the hook is a run of the machine that never touches the counter for itself |
| Runtime.SendExternal | crates/lichtung-prod/src/system.rs:86-102 | an injection is four steps of the machine: the `{world: 1}` emit is logged, counted, and queued last |
| Recordings.InvNext | crates/lichtung-prod/src/system.rs:13-52 | every step of every thread keeps the whole invariant: histories, message places, log, stamping |
| Recordings.ReachableInv | crates/lichtung-prod/src/system.rs:13-125 | the invariant holds in every reachable state under every interleaving |
| Recordings.SentIsLogged | crates/lichtung-core/src/context.rs:44-54 | a message past its send has its emit in the log, with the envelope's own stamps |
| Recordings.LoggedIsSent | crates/lichtung-prod/src/shared.rs:26-34 | every emit in the log carries an id that was drawn by its actor |
| Recordings.FrontierIsStamp | crates/lichtung-core/src/context.rs:40-64 | the last stamp an actor logged is the stamp its history computes |
| Quiescence.CounterIsExact | crates/lichtung-prod/src/dispatch.rs:23-32 | in every reachable state before the end the counter is messages undelivered plus queued plus in hand, and a waiter parked at zero has a permit stored or on its way |
| Quiescence.ZeroMeansQuiet | crates/lichtung-prod/src/system.rs:107-114 | at a zero reading all mailboxes are empty and no handler runs, if and only if every `started` hook has finished |
| Quiescence.QuietIsStable | crates/lichtung-prod/src/system.rs:115-124 | once quiet, no step logs, counts or starts anything |
| Quiescence.FinishedAtZero | crates/lichtung-prod/src/system.rs:107-114 | the loop ends only on a zero reading |
| Quiescence.WaiterIsServed | crates/lichtung-prod/src/shared.rs:43-47 | when no task can move the counter is zero, a waiter has its permit, and the main thread alone reaches the end |
| Quiescence.LoadEffect | crates/lichtung-prod/src/system.rs:37-50 | a task's step changes the counter by exactly what it changes in queued and held messages |
| Posets.HbStrict | crates/lichtung-replay/src/poset.rs:7-20 | the loop with early return decides strict clock order |
| Posets.MessageEdgeMeans | crates/lichtung-replay/src/poset.rs:58-76 | a receive is joined to the emit carrying its message id, and one without an id to an emit whose id is empty |
| Posets.ProgramOrder | crates/lichtung-replay/src/poset.rs:43-55 | one actor's edges join exactly its neighbours in sequence order, or the least duplicate number is reported |
| Posets.Build | crates/lichtung-replay/src/poset.rs:35-79 | succeeds exactly on unique coordinates, unique emit ids and paired receives; lists each edge once per kind, program order line by line and then messages by receive; otherwise raises the complaint due first |
| Posets.Validate | crates/lichtung-replay/src/poset.rs:84-94 | succeeds exactly when every edge raises the clock, and otherwise names the first listed edge that does not |
| Posets.PathsIncreaseClocks | crates/lichtung-replay/src/poset.rs:81-94 | on a validated log clocks strictly increase along every path |
| Causality.ClosureIsCausal | crates/lichtung-replay/src/poset.rs:31-34 | the closure of the direct edges is the closure of all same-actor pairs and all emit-receive pairs, on every log |
| Extensions.Release | crates/lichtung-replay/src/extension.rs:34-39 | counting down a scheduled event's successors leaves exact in-degrees and exactly the ready events, parallel edges included |
| Extensions.Retire | crates/lichtung-replay/src/extension.rs:32-40 | each round schedules the least ready event and restores the bookkeeping |
| Extensions.Linearize | crates/lichtung-replay/src/extension.rs:10-46 | succeeds exactly on acyclic graphs, with the least extension under the key; otherwise the cycle count is the number of events on or behind a cycle |
| Extensions.GreedyIsCanonical | crates/lichtung-replay/src/extension.rs:7-9 | taking the least ready event each time yields the lexicographically least extension |
| Extensions.CanonicalUnique | crates/lichtung-replay/src/extension.rs:7-9 | there is only one such extension |
| Extensions.FinishedRun | crates/lichtung-replay/src/extension.rs:42-44 | what is left over is exactly the events on or behind a cycle |
| Engine.Search | crates/lichtung-replay/src/engine.rs:69-83 | the search marks exactly the events reachable by a path of length one or more, cycles allowed, and ends |
| Engine.ConcurrentPairs | crates/lichtung-replay/src/engine.rs:63-94 | the output names every unordered pair of unrelated events exactly once, by their event ids, the one logged earlier first |
| Engine.AcceptedIsAcyclic | crates/lichtung-replay/src/engine.rs:41-43 | a validated poset has no cycle |
| Engine.ReplayLog | crates/lichtung-replay/src/engine.rs:40-58 | accepts exactly the consistent logs, never reports a cycle, says why it refuses, and emits the events once each in canonical order, every edge named cause first and nothing else, and all concurrent pairs |
| Engine.ArrowsFollowClocks | crates/lichtung-replay/src/engine.rs:46-50 | on an accepted log with distinct ids every reported arrow points from an event to one with a later clock |
| Determinism.OrderIndependence | crates/lichtung-replay/src/engine.rs:39-58 | permuting the log changes neither acceptance nor the timeline |
| Determinism.RelationsByEvent | crates/lichtung-replay/src/engine.rs:60-94 | edges, paths and concurrency depend on the events, not on where the log lists them |
| Determinism.KeyByEvent | crates/lichtung-replay/src/extension.rs:19-22 | with unique coordinates the index in the key never decides |
| Determinism.CanonicalTakesFirst | crates/lichtung-replay/src/extension.rs:19-40 | at each place the canonical order takes, of the events whose causes are placed, the one with the least Lamport stamp, then the least name character by character, then the least number, then the one listed first |
| Determinism.KahnIsSorting | crates/lichtung-replay/src/extension.rs:10-46 | where Lamport stamps rise along edges the canonical order is sorted by Lamport stamp, then name character by character, then number |
| Embedding.EdgesIncrease | crates/lichtung-core/src/context.rs:40-64 | in a stamped log every edge points forward and raises clock and Lamport stamp |
| Embedding.ClockOwnership | crates/lichtung-clock/src/lib.rs:90-104 | an event's own component is its sequence number, and no component counts more events than there have been |
| Embedding.PastIsCounted | crates/lichtung-clock/src/lib.rs:1-1 | an event's clock counts another exactly when that one is in its past |
| Embedding.ExactEmbedding | crates/lichtung-clock/src/lib.rs:1-1 | clock order is reachability, clock equality is identity, incomparability is unrelatedness, for all pairs |
| Embedding.StampedIsAccepted | crates/lichtung-replay/src/poset.rs:35-94 | a stamped log passes `build` and `validate` |
| Runs.SeqsRunFromOne | crates/lichtung-core/src/context.rs:43-45 | in every run each actor's events are numbered 1, 2, 3, ... in log order |
| Runs.RunAccepted | crates/lichtung-prod/src/system.rs:83-101 | a run's log is accepted if and only if there was at most one origin; otherwise the refusal is always the duplicate `world` number 1 |
| Runs.OriginCanRepeat | crates/lichtung-prod/src/system.rs:86-102 | a run with two origins exists, and its log is refused |
| Runs.RunEmbedding | crates/lichtung-clock/src/lib.rs:1-1 | the exact embedding for the log of every run with at most one origin, both directions, every pair |
| Runs.EmbedsIff | crates/lichtung-prod/src/system.rs:83-101 | a run's log is exactly embedded if and only if the run had at most one origin |
| Runs.RunConcurrency | crates/lichtung-replay/src/engine.rs:60-94 | on the log of every run with at most one origin the engine's concurrent pairs are those with incomparable clocks |
| Runs.LogIsExtension | crates/lichtung-prod/src/shared.rs:31-34 | channel order is one of the poset's linear extensions, for runs with at most one origin |
| Runs.RunSorted | crates/lichtung-replay/src/extension.rs:19-40 | on the log of every run with at most one origin the canonical order is the log sorted by Lamport stamp, then name character by character, then number |
| Runs.RunArrows | crates/lichtung-replay/src/engine.rs:46-50 | on the log of every run with at most one origin every reported arrow points from an event to one with a later clock |
| Runs.RunShape | crates/lichtung-core/src/event.rs:15-64 | in every run an emit names its message, sender and receiver, a receive its message, a sender and its receiver, a compute event no message and no one, and no event a value or hash |
| Channels.RunKeepsOrder | crates/lichtung-prod/src/system.rs:29-35 | in every run what one sender sends to one receiver is received in the order sent, and a received message has no unreceived one before it |
| Ownership.RunOwnership | crates/lichtung-prod/src/system.rs:31-34 | in every reachable state, with any number of origins, no actor's clock and no envelope queued or in a thread's hands exceeds an actor's own component |
| Runs.RunRouting | crates/lichtung-core/src/event.rs:33-47 | in every run every recorded receive happens where its emit was addressed and names the same sender |
| Runs.RunReceivesOnce | crates/lichtung-prod/src/system.rs:29-35 | no message is received twice in any run |
| Runs.RunFaithfulIff | crates/lichtung-replay/src/reexec.rs:226-362 | any snapshot of a run with at most one origin replays without divergence, in any order respecting the poset, if and only if its numbers fit 64 bits and no hook or handler had actions left |
| Runs.CounterFits | crates/lichtung-prod/src/shared.rs:26-28 | while the id counter is within 64 bits so is every number in the log |
| Runs.RecordThenReplay | crates/lichtung-replay/tests/reexecution_acceptance.rs:97-109 | after a zero reading with all hooks finished the log is final, and with at most one origin and numbers that fit its replay is faithful |
| Runs.HookCanBeMissed | crates/lichtung-prod/src/system.rs:24-27 | a run that ends before a hook has started leaves a log whose replay diverges |
| Calls.SendLabelApart | crates/lichtung-replay/src/reexec.rs:200-202 | the label of a send beyond the recording is no event's id and tells which send of which actor it was |
| Calls.ExtraSendApart | crates/lichtung-replay/src/reexec.rs:199-206 | a send beyond the recording gets a number at the top of the 64-bit range that no recorded emit has, and leaves every pending recorded message in place |
| Calls.RecvMakes | crates/lichtung-replay/src/reexec.rs:329-347 | a receive whose message is pending is re-executed and stamped after that message, whether or not its actor was rebuilt; otherwise nothing is |
| Histories.SeedsByPosition | crates/lichtung-replay/src/reexec.rs:257-288 | after seeding, what is pending under a number is the last stimulus recorded with it, with the message supplied at the same position and the recorded stamps |
| Histories.RecvHistory | crates/lichtung-replay/src/reexec.rs:303-349 | whatever has diverged before, a receive whose message is pending extends its actor's history by that receive and its whole handler, and no other event extends any |
| Histories.ReplayIsExecution | crates/lichtung-replay/src/reexec.rs:226-362 | on any log, by any code, in any order, what each actor re-executes is a history of its code with no handler unfinished, and what it receives was sent by such a history or supplied |
| Complaints.ByIdIsLast | crates/lichtung-replay/src/reexec.rs:73-78 | of several events with one id the index keeps the last |
| Complaints.ComplaintsAreExact | crates/lichtung-replay/src/reexec.rs:150-359 | for every kind of divergence and every id: it is in the list if and only if its ground holds in the outcome |
| Complaints.ProducedIsExact | crates/lichtung-replay/src/reexec.rs:278-287 | an id counts as produced exactly when an event with it was re-executed or it is a supplied stimulus with a readable number |
| Complaints.ReceivesAreMade | crates/lichtung-replay/src/reexec.rs:318-338 | a receive whose message is pending when its turn comes is among the re-executed events |
| Replays.VerifyKeeps | crates/lichtung-replay/src/reexec.rs:153-174 | verification moves nothing but the verdict, and divergences are never withdrawn |
| Replays.ActAllKeeps | crates/lichtung-replay/src/reexec.rs:184-223 | running a handler's actions never withdraws a divergence |
| Recall.ByIdFinds | crates/lichtung-replay/src/reexec.rs:70-83 | in a log with distinct ids every event is found under its id |
| Recall.EmitsOfTrace | crates/lichtung-replay/src/reexec.rs:79-82 | the index lists a recorded actor's sends in the order it made them |
| Recall.SendRecalled | crates/lichtung-replay/src/reexec.rs:185-198 | the j-th send of a re-execution is given the id the j-th recorded send had |
| Recall.ExtraSendNotRecalled | crates/lichtung-replay/src/reexec.rs:199-208 | a send beyond the recorded ones is given none |
| Simulation.ActFollows | crates/lichtung-replay/src/reexec.rs:184-223 | a context call the recording has is re-executed identically and without divergence |
| Simulation.ActBeyond | crates/lichtung-replay/src/reexec.rs:199-208 | a context call beyond the recorded history is always noticed |
| Simulation.ActAllFollows | crates/lichtung-replay/src/reexec.rs:369-388 | a whole handler is re-executed as recorded, if the recording is complete or nothing is noticed |
| Fidelity.CaughtUp | crates/lichtung-replay/src/reexec.rs:303-349 | when an event's turn comes everything in its causal past has been re-executed |
| Fidelity.MessageReady | crates/lichtung-replay/src/reexec.rs:318-327 | the message a recorded receive needs is pending, exactly as it was sent |
| Fidelity.DeliverFollows | crates/lichtung-replay/src/reexec.rs:303-349 | every timeline event keeps the simulation between recorder and replayer |
| Fidelity.CompleteKeeps | crates/lichtung-replay/src/reexec.rs:351-359 | the completeness pass adds no divergence exactly when every recorded id was produced |
| Fidelity.FaithfulIff | crates/lichtung-replay/src/reexec.rs:226-362 | replay is faithful if and only if the recording left nothing undone, and then ends in the recorded states and stamps |
| Fidelity.Confluence | crates/lichtung-replay/src/reexec.rs:300-349 | all orders respecting the poset give the same verdict, final states and stamps |
| Verdict.EmptyMeansSame | crates/lichtung-replay/src/reexec.rs:150-174 | on any log with distinct event ids, no divergence means events agree one for one and send counts agree; if no two emits are read as one number, no message was received twice |
| Verdict.CanonicalKeysDistinct | crates/lichtung-replay/src/reexec.rs:20-22 | unique ids in canonical spelling are distinct as numbers |
| Verdict.RecvSound | crates/lichtung-replay/src/reexec.rs:303-349 | a receive step without complaint keeps: events recorded, each once, nothing received twice |
| Verdict.FaithfulFits | crates/lichtung-replay/src/reexec.rs:185-208 | a log with distinct ids that replays faithfully by any code has only numbers that fit 64 bits |
| Verdict.MissingActorNoticed | crates/lichtung-replay/src/reexec.rs:340-346 | code that lacks an actor the log has events of is always noticed |
| Payloads.PayloadBlind | crates/lichtung-replay/tests/reexecution_acceptance.rs:42-50 | code related by any payload and state relations that keep the shape of actions, on related stimuli sent wherever, has the same divergences, events, clocks and send counts, on every log |
| Payloads.ValuesUnseen | crates/lichtung-replay/tests/reexecution_acceptance.rs:42-50 | two programs whose handlers always ask for the same shape of actions are never told apart, whatever values they compute and send |
| Payloads.AddressUnseen | crates/lichtung-replay/src/reexec.rs:278-287 | a stimulus supplied for the wrong actor makes no difference to the verdict |
| Locality.SafeIsReproduced | crates/lichtung-replay/src/reexec.rs:303-359 | an event that the other code makes from what its actor received, like everything in its past, is re-executed as recorded and named by no complaint |
| Locality.FaultlessIsUntouched | crates/lichtung-replay/src/reexec.rs:303-359 | an actor all of whose events are such, with nothing more to do, ends in the state of its recorded history, with nothing said about it |
| Locality.DriftStaysLocal | crates/lichtung-replay/tests/reexecution_acceptance.rs:129-146 | replay by code that differs in the actors of a set reproduces every event with none of theirs at or before it, without a complaint, in any order respecting the poset |
| Locality.UntouchedActorReplays | crates/lichtung-replay/tests/reexecution_acceptance.rs:129-146 | and an actor all of whose events are such, with nothing left undone, ends in its recorded state and stamp without any complaint |
| Drift.FaithfulHasHistory | crates/lichtung-replay/src/reexec.rs:226-362 | a faithful replay by any code exhibits local histories of that code, complete and agreeing on messages, that leave exactly the recorded events |
| Drift.ExplainedIsFaithful | crates/lichtung-replay/src/reexec.rs:226-362 | a log that such local histories explain is replayed faithfully by that code, in any order respecting the poset |
| Drift.DriftIff | crates/lichtung-replay/tests/reexecution_acceptance.rs:39-61 | replay by other code is faithful if and only if local histories of that code explain the log |
| Lockstep.FollowNext | crates/lichtung-prod/src/system.rs:13-125 | whatever step the recorded program takes, the other code can take the like step and stay alongside |
| Lockstep.ExplainedIsRun | crates/lichtung-prod/src/system.rs:13-125 | code whose local histories explain a run's log has a run of the recorder leaving that log, with nothing undone |
| Lockstep.CompleteRunReplays | crates/lichtung-replay/src/reexec.rs:226-362 | the log of any complete run of the code with at most one origin is replayed faithfully by it |
| Lockstep.NoDrawsWhen | crates/lichtung-core/src/context.rs:44-54 | a snapshot whose drawn numbers are all logged, a quiet one, and one with nothing left to do between injections, meet the drift theorem's condition |
| Lockstep.RunDriftIff | crates/lichtung-replay/tests/reexecution_acceptance.rs:129-146 | replay of a run's log by other code is faithful if and only if the numbers fit and that code has a complete run of its own leaving that log |
| Gaps.GapInNumbers | crates/lichtung-prod/src/shared.rs:26-28 | a snapshot with two numbers drawn but not logged, and code that replays it faithfully without having any run that leaves its log |
| Replayer.RecordedIndex.constructor | crates/lichtung-replay/src/reexec.rs:70-83 | the loops build the by-id map and each actor's emits in sequence order |
| Replayer.ReplaySystem.NextMsgId | crates/lichtung-replay/src/reexec.rs:185-208 | the send counter rises and the recorded id is returned, or the sentinel with a divergence |
| Replayer.ReplaySystem.Record | crates/lichtung-replay/src/reexec.rs:153-174 | the event is marked produced, and one divergence is added exactly when the recording has no equal event |
| Replayer.ReplaySystem.Perform | crates/lichtung-core/src/context.rs:40-64 | a context call over the replay backend computes the specified step |
| Replayer.ReplaySystem.Drive | crates/lichtung-replay/src/reexec.rs:369-388 | a hook or handler is run to its end, action by action |
| Replayer.ReplaySystem.SeedOrigins | crates/lichtung-replay/src/reexec.rs:248-288 | recorded `world` emits are matched with supplied origins by position, with the three failure cases |
| Replayer.ReplaySystem.RunStarted | crates/lichtung-replay/src/reexec.rs:290-298 | every actor's hook runs once, in name order |
| Replayer.ReplaySystem.WalkOne | crates/lichtung-replay/src/reexec.rs:303-349 | one timeline event: only receives drive a handler, with the three failure cases |
| Replayer.ReplaySystem.Walk | crates/lichtung-replay/src/reexec.rs:303-349 | the timeline is driven from its first event to its last |
| Replayer.ReplaySystem.CheckComplete | crates/lichtung-replay/src/reexec.rs:351-359 | one divergence per recorded event that was not produced |
| Replayer.ReplayRun | crates/lichtung-replay/src/reexec.rs:229-362 | refuses exactly what the engine refuses, otherwise reports exactly the divergences of re-executing the canonical timeline |
| Acceptance.ReplayRecorded | crates/lichtung-replay/tests/reexecution_acceptance.rs:97-109 | replaying the log of a run with at most one origin is always accepted, and faithful exactly when its numbers fit and the recording left nothing undone |
| Acceptance.SameEvents | crates/lichtung-replay/tests/reexecution_acceptance.rs:111-127 | any two orders respecting the poset re-execute the same events, each recorded event once |

## Left out

- The JSON-lines format, serde, the batching log writer and file output: the event channel is the sequence that becomes the log.
- Tokio scheduling, join handles and memory orderings: threads are interleavings of atomic steps, and `Notify` is one stored permit.
- Type erasure and downcast failures, address and sink objects: payloads are one abstract type, and addresses are names.
- Two actors spawned under one name, and actors sharing state outside messages: outside the hypotheses.
- Panics of handlers, and an origin sent to a closed mailbox, whose count would never be taken back: in the machine mailboxes close only after quiescence.
- 64-bit overflow of clocks, counters and sequence numbers: they are natural numbers; only the reading of message ids and the numbers counted down for extra sends have a width.
- The binary heap's internals: it is a finite set from which the least key is taken.
- The recorder's tasks as objects running at once: `Recorder` models interleaving on values, and `Runtime` ties the objects to it one uninterrupted call at a time; the waiting loop of `run_until_quiescent` exists only as steps of the machine.
- Replayer.ReplaySystem.WalkOne: replay drives the actor the recorded receive names and does not compare it with the envelope's destination, so no result says that a faithful replay proves correct routing; that runs route correctly is `Runs.RunRouting`.
- Lockstep.RunDriftIff: the other code has the recorded actors' names. Code lacking an actor with recorded events is covered by `Verdict.MissingActorNoticed`, stimuli sent elsewhere by `Payloads.AddressUnseen`; idle actors on one side only are not modelled.
- Runs.RecordThenReplay: one direction, because a hook that is outstanding but has nothing to do loses nothing; the exact condition is `Runs.RunFaithfulIff`.
- `PosetJson` and `Replayed` writers, the visualisation emitters, the benches, and the risk-desk example with its floating-point pricing: not the causal core.
- The rule cited in comments as section 4: its document is not part of this model; the rule is taken from the code.
