# Verified model of the episode recorder

A Dafny model of `rosetta_recorder_cpp`: a lifecycle node that records episodes into bags. Its executor
thread runs message callbacks, timers, services, action callbacks and lifecycle transitions one at a time;
its writer thread drains a bounded queue into the open bag. The two share the queue and its flush flags, the
open bag, the topic table and a few atomics.

The centre is a two-thread step machine. A step is one critical section, one atomic access, or a stretch of
code whose state the other thread cannot reach at that point. The writer thread has an explicit program
counter and an in-hand batch; a write may fail, opening storage may fail, a drain wait may time out, metadata
may fail, and a cancel may land at the action server at any moment. `Runs.Reachable` ranges over every
interleaving of the two threads, over any number of episodes. The state carries histories (messages received,
accepted, dropped, abandoned and handled; bags closed; goals settled and released), and the main theorems are
about those histories in every reachable state.

## Layout

| file | what it holds |
|---|---|
| `RecorderTypes`, `RecorderState` | topics, messages, bags, results; the shared state of both threads |
| `WriterSteps`, `ExecutorSteps`, `Runs` | the steps, one function each; schedules and reachable states |
| `EpisodeRecorder`, `WriterBatch` | the node as a class: the fields updated in place and the loops, method by method, each proved to take exactly its step from one reachable state to the next |
| `TopicTable`, `LatchedBuffers`, `MessageFlow`, `GoalId` | the data the steps move, and what is true of it |
| `ControlInvariant`, `FlowInvariant`, `BagInvariant`, `BagPreserved`, `CountInvariant`, `DrainInvariant`, `GoalInvariant`, `StampInvariant`, `FailureInvariant`, `TopicCounts` | what every step keeps |
| `MessageTheorems`, `RecorderTheorems`, `LabelTheorems`, `ContractLabels`, `GoalBags`, `BagContents`, `EpisodeClock`, `StopRequests`, `Lifecycle`, `FlushProgress`, `TickBound` | the results over all runs |
| `ConcreteRuns` | runs that show where a promise fails |
| `InlineStart` | a start that opens its bag inline, and the answer its caller gets |
| `Locks`, `BagDirectory` | lock order, bag names |
| `ContractLoader`, `ContractDefaults`, `ContractRoundTrip` | contract files: loading them, what every field means, and reading a written one back |

The constructor of `EpisodeRecorder.EpisodeRecorderNode` leaves a reachable state. Each step method takes a
reachable state at which its step is enabled, and ensures both that the whole of `State()` is the machine's
step applied to what it was and that it is reachable again. The results about reachable states are therefore
results about an object driven through these methods; `WriteBatch` and `WriterPass` compose them into the
loops of the writer thread. The simplest step methods have no row below.

## Where the code and its documentation part

- README.md:150-156 lists one goal state per termination reason, and bag and metadata failures as the cause of
  `error`. The code asks for CANCELED whenever the goal is already CANCELING, whatever the reason, and looks at
  write_failed_ once per tick: a write that fails after that look, in the drain, or before a lifecycle
  transition that looks at nothing, ends as if nothing had failed; the error callback says `error` without any
  failure. `ConcreteRuns.DeactivatedYetCanceled` and `ConcreteRuns.FailedYetSucceeded` are such runs;
  `RecorderTheorems.DocumentedIff` and `RecorderTheorems.FailedYetSucceededIff` give the exact conditions.
- README.md:93-94 says that queue overruns are reported in the action result. The count is part of the result's
  message, and a metadata failure replaces that message (src/episode_recorder_node.cpp:1210-1222).
  `ConcreteRuns.DropsUntold` is a run whose result names no drop; `RecorderTheorems.DropsToldIff` says when one
  does.
- src/episode_recorder_node.cpp:1146-1147 says that everything handed over is drained before the bag closes.
  The wait also returns when the queue is empty while the writer still holds a batch.
  `ConcreteRuns.AcceptedYetLost` loses an accepted message that way; `MessageTheorems.DrainedIffNothingHeld`
  gives the exact condition, and `MessageTheorems.EpisodeBooks` bounds the loss by one batch.
- README.md:158-160 says that bag_path is populated on every path. A goal whose start fails, or is dropped
  before it goes live, is settled with an empty one (src/episode_recorder_node.cpp:1003, 1027, 1337):
  `ConcreteRuns.SettledWithoutBag`. `GoalBags.BagToldIff` says when a result names a bag.
- A batch that is still in the writer's hands when its bag closes goes to the next bag if that is open by
  then, under whatever topic holds its position there. `ConcreteRuns.WrongName` writes a message of one
  discovered topic under the name of another; `LabelTheorems.RightNameIff` gives the exact condition. Topics
  of the contract are safe from one configure to the next: `ContractLabels.ContractTopicsKeepTheirName`.
- include/rosetta_recorder_cpp/episode_recorder_node.hpp:190-204 says that the end of an episode settles its
  goal, and lines 301-303 that the goal id is that of the goal that started it. A `~/start_recording` call
  that is refused during a goal's episode has already dropped the handle and the id
  (src/episode_recorder_node.cpp:1353-1354). `ConcreteRuns.GoalLetGo` ends such an episode with the goal
  never settled and no id in its bag, and `RecorderTheorems.ReleasedNeverSettled` says it stays that way.
- Bag names of the epoch style sort by time up to 10^10 seconds and no further: `BagDirectory.SortedUpToEnd`.

## Model

| member | source | states |
|---|---|---|
| MessageTheorems.ExactlyOneFate | src/episode_recorder_node.cpp:604-691 | in every reachable state a message received while recording is in exactly one of dropped, queued, in hand, handled, abandoned; any other message is in none |
| MessageTheorems.HandledOnce | src/episode_recorder_node.cpp:653-691 | no message is handled twice, so it is written at most once, to one bag |
| MessageTheorems.LivePartInOrder | src/episode_recorder_node.cpp:641-672 | after its head every bag holds, in order, a subsequence of the accepted messages, payload and stamp intact, and nothing else |
| BagContents.ArrivalIs | src/episode_recorder_node.cpp:575-619 | a message that arrives while recording is received once, as accepted or as dropped, with the clock reading, length, position and topic of its arrival and the number of the open episode |
| BagContents.LiveEntryArrived | src/episode_recorder_node.cpp:578-672 | over every run: each live entry of each bag was brought by one delivery while recording, and carries the clock reading and the payload of that delivery |
| MessageTheorems.ExactDelivery | src/episode_recorder_node.cpp:1148-1165 | for each episode, whatever the others do: if none of its writes fails and its drain wait ends with nothing outstanding, then from there on what its bag holds of the episode is exactly what the episode accepted, in order |
| MessageTheorems.WholeLivePart | src/episode_recorder_node.cpp:1148-1165 | when every episode up to a closed bag was clean in that sense, the whole live part of the bag is what its own episode accepted, and nothing of any other |
| MessageTheorems.EpisodeBooks | src/episode_recorder_node.cpp:1148-1163 | after the drain wait: accepted = in time + outstanding + timed out; outstanding is at most the batch in hand, at most 256, and zero after a flush answer |
| MessageTheorems.FlushDelivers | src/episode_recorder_node.cpp:1148-1165 | when the flush was answered, every message of the episode met the episode's own bag |
| MessageTheorems.DrainedIffNothingHeld | src/episode_recorder_node.cpp:1146-1165 | a bag is complete at close exactly when the writer holds none of the episode's messages and no timeout dropped any |
| MessageTheorems.ClosedBagFrozen | src/episode_recorder_node.cpp:871-880 | no later step changes a closed bag's messages or what of its episode reached it |
| RecorderTheorems.QueueBounds | src/episode_recorder_node.cpp:604-646 | the byte count is the exact sum of the queued lengths, never negative, at most 536870912; at most 20000 messages are queued and 256 in hand |
| RecorderTheorems.DroppedIffFull | src/episode_recorder_node.cpp:606-615 | a message is dropped exactly when taking it would break a bound, and is otherwise appended |
| RecorderTheorems.FlushDoneMeansEmpty | src/episode_recorder_node.cpp:693-700 | while finish_recording waits, flush_done_ implies an empty queue and an empty batch |
| RecorderTheorems.DrainExitBounded | src/episode_recorder_node.cpp:1146-1163 | every way out of the wait, the immediate one on an empty queue included, leaves an empty queue, a cleared request and at most one batch in hand, none when the flush was answered; only a timeout abandons |
| RecorderTheorems.ExitRecorded | src/episode_recorder_node.cpp:1149-1163 | the wait ends as answered exactly when flush_done_ was set, as timed out exactly when it was not over, and then with every queued message abandoned |
| FlushProgress.FlushIsAnswered | src/episode_recorder_node.cpp:627-701 | while the executor waits, a decreasing measure bounds the writer steps to the answer, and its lock acquisitions by ceil(queue/256) |
| FlushProgress.WriterCanMove | src/episode_recorder_node.cpp:1148-1153 | the writer is never blocked while finish_recording waits for it |
| FlushProgress.WriterGetsCloser | src/episode_recorder_node.cpp:622-702 | every writer step answers the flush or lowers the measure |
| FlushProgress.TakenIs | src/episode_recorder_node.cpp:630-648 | one lock acquisition takes the oldest messages, all of them up to 256, and exactly their bytes; a flush is due after them exactly when it was requested and they are the last; the thread ends only when told to and with nothing left |
| FlushProgress.SpawnStartsFresh | src/episode_recorder_node.cpp:859-868 | a new thread finds an empty queue and no flush in progress; one that is running keeps its queue and its batch |
| RecorderTheorems.CallbackBoundary | src/episode_recorder_node.cpp:882-1032 | between callbacks: recording and pending exclude each other; recording iff writer open iff tick timer, with the thread running; pending iff settle timer; either implies accepting; a live goal implies one of them |
| RecorderTheorems.NothingLeft | src/episode_recorder_node.cpp:323-421 | outside Active, between callbacks: not accepting, not recording, not pending, no goal, no writer, no timer, empty queue |
| Lifecycle.CallbackLands | src/episode_recorder_node.cpp:323-421 | over every run of a lifecycle callback, whatever it finishes and settles on the way: it returns in the node state it leads to, with nothing recording or pending, and cleanup and shutdown with no topic left |
| Lifecycle.ConfigureBuilds | src/episode_recorder_node.cpp:425-464 | configuring leaves the first occurrence of every topic given, in order, unbuffered and uncounted, with nothing kept of any earlier table |
| Lifecycle.ActivateAccepts | src/episode_recorder_node.cpp:316-321 | activating accepts goals, with no episode on |
| Lifecycle.IdForgotten | src/episode_recorder_node.cpp:1210-1226 | once an episode or a pending start is done with, its goal and goal id are forgotten |
| RecorderTheorems.ClearedAfterThread | src/episode_recorder_node.cpp:352-365 | cleanup and shutdown clear the queue and the table only after the thread has ended with nothing queued or in hand, so they lose no message |
| RecorderTheorems.NeverStuck | src/episode_recorder_node.cpp:1132-1226 | inside a callback one of the threads can always take a step |
| RecorderTheorems.CountsAgree | src/episode_recorder_node.cpp:651-678 | between two messages of an open bag messages_written_, the sum of the per-topic counters and the number of messages in the bag agree; the counter of every topic is the number of the bag's messages under its name; messages_dropped_ is the episode's number of drops |
| RecorderTheorems.ResultsAreTrue | src/episode_recorder_node.cpp:1168-1224 | a result that names a bag reports that bag's size, and goes to the goal that started the bag |
| RecorderTheorems.DropsToldIff | src/episode_recorder_node.cpp:1202-1222 | a result that names a bag tells the drops of its episode exactly when there were any and the metadata was written, and then their exact number |
| ConcreteRuns.DropsUntold | src/episode_recorder_node.cpp:1210-1222 | a run that drops a message and tells the client of no drop |
| RecorderTheorems.FeedbackBeforeLimit | src/episode_recorder_node.cpp:1075-1086 | no feedback is published at or past the maximum duration |
| EpisodeClock.StartSets | src/episode_recorder_node.cpp:896-955 | an accepted start runs under the limit asked for, or the node's default when none is; with nothing written, dropped, failed or asked to stop; it is deferred exactly when some topic of the table is resubscribed on start |
| EpisodeClock.SettledStartOpens | src/episode_recorder_node.cpp:957-987 | the settle timer opens the bag of the pending start, under the limit and for the goal it was made with |
| EpisodeClock.RefusedLeavesEpisode | src/episode_recorder_node.cpp:900-907 | a refused start leaves the queue, the bag, the topics, the flags and the limit of the episode that is on as they were |
| EpisodeClock.LimitStays | src/episode_recorder_node.cpp:920-955 | the limit stays the same for as long as the episode is pending, opening or recording |
| EpisodeClock.TickDecides | src/episode_recorder_node.cpp:1040-1087 | with no stop requested and no cancel seen, a tick ends the episode exactly when at least its limit has passed since it went live, and then as a timeout; otherwise the episode goes on, and a live goal is told the time passed and the bag's size, less a write not yet counted |
| EpisodeClock.TimeoutIsDue | src/episode_recorder_node.cpp:886-893 | over every run: a goal told of a timeout has an episode whose last tick read the clock at least its granted limit after the reading at which it went live |
| EpisodeClock.ElapsedSinceLive | src/episode_recorder_node.cpp:1034-1041 | the elapsed time of a tick is its clock reading less the reading at which its own episode went live, and the limit is the one its start was granted |
| RecorderTheorems.BagHead | src/episode_recorder_node.cpp:826-856 | a recorded bag starts with every topic's buffer, in topic order, at the bag-start time; each buffer is the last depth eligible messages; the registered topics are the table's by position |
| BagContents.OpenedBag | src/episode_recorder_node.cpp:801-857 | opening a bag registers the topics by position and writes, in topic order and oldest first, every buffered message at the one clock reading of the open, up to the write that throws |
| BagContents.StorageOpened | src/episode_recorder_node.cpp:787-823 | opening storage registers every topic by position or throws, and zeroes the counters of those registered by then |
| BagContents.BufferIs | src/episode_recorder_node.cpp:587-601 | in every reachable state the buffer of a contract topic holds the last depth of the eligible messages its topic has seen, all of them while they are fewer, oldest first; that of a discovered topic is empty |
| LatchedBuffers.EligibleNext | src/episode_recorder_node.cpp:587-596 | an idle message is eligible exactly when its topic is transient_local, its strategy is not no_buffer and it is no longer than 4194304 bytes |
| RecorderTheorems.WrittenUnderItsTopic | src/episode_recorder_node.cpp:654-671 | a message written in its own episode is written under the topic that delivered it; every written name is registered in that bag |
| LabelTheorems.RightNameIff | src/episode_recorder_node.cpp:653-671 | a written message carries the name of the topic that delivered it exactly when the bag it reached and its own episode's bag register the same topic at its position |
| ContractLabels.ContractTopicsKeepTheirName | src/episode_recorder_node.cpp:653-671 | from a configured reachable state on, through any run without another configure, a written message of a contract position carries the name of the topic that delivered it, in whichever bag it lands |
| ConcreteRuns.WrongName | src/episode_recorder_node.cpp:650-672 | a run that writes a message of one topic into the next bag under another topic's name |
| RecorderTheorems.TableAlwaysValid | src/episode_recorder_node.cpp:425-573 | in every reachable state names are distinct, the index is the inverse of positions, callbacks hold their own position, discovered topics come last, buffers are latched |
| RecorderTheorems.IdleDelivery | src/episode_recorder_node.cpp:581-602 | a message that arrives while idle changes the buffer of the topic it was published on and no other topic |
| BagContents.IdleArrivalIs | src/episode_recorder_node.cpp:578-602 | what arrives while idle is seen by its own topic, with its own clock reading, and by no other; it is not received into any episode |
| RecorderTheorems.Provenance | src/episode_recorder_node.cpp:1089-1105 | the goal id in a bag is that of the goal that started it, or empty when none did or a service call detached it; it never reads as another goal's |
| RecorderTheorems.MetadataWritten | src/episode_recorder_node.cpp:1168-1178 | the end of an episode writes into its own bag the id of the goal that started it, or none if it was detached or there was none; nothing is written when the metadata fails, and no other bag changes |
| RecorderTheorems.GoalFates | src/episode_recorder_node.cpp:1107-1130 | every accepted goal is settled once, live, or released, exactly one of the three; with no episode on, settled once unless released |
| RecorderTheorems.ReleasedNeverSettled | src/episode_recorder_node.cpp:1344-1361 | a goal that a start service call has let go is settled in no continuation of the run |
| RecorderTheorems.SettleAlwaysLegal | src/episode_recorder_node.cpp:1122-1128 | the terminal call is legal in the action goal state machine even if a cancel lands after the test, and leaves the goal terminal |
| RecorderTheorems.VerdictMeaning | src/episode_recorder_node.cpp:1107-1130 | CANCELED exactly when the test saw CANCELING; SUCCEEDED only for timeout or stopped, with metadata, when a tick ended the episode and no write into its bag had failed by the first load of that tick; reason cancelled only ever with CANCELED |
| RecorderTheorems.TickSeesFailure | src/episode_recorder_node.cpp:1034-1052 | a tick ends the episode with a failure exactly when a write into the open bag has failed by then |
| RecorderTheorems.FailedYetSucceededIff | src/episode_recorder_node.cpp:1043-1128 | a goal whose bag had a failed write still ends SUCCEEDED exactly when a tick that had looked before the first failure ended the episode, the metadata was written and no cancel was seen |
| ConcreteRuns.FailedYetSucceeded | src/episode_recorder_node.cpp:1043-1073 | a run whose only message fails to be written between the two loads of the ending tick, and which ends SUCCEEDED with reason timeout |
| RecorderTheorems.DocumentedIff | README.md:150-160 | a goal ends in the documented state, with `error` told for bag and metadata failures and for nothing else, exactly when a goal seen CANCELING is told it was cancelled and no write failed unseen by what ended the episode; the error callback only if one did |
| StopRequests.StopRequestHolds | src/episode_recorder_node.cpp:1034-1087 | a stop request made while an episode is pending, opening or recording survives as long as the episode does; after it at most one tick begins, and none gets past its second load |
| StopRequests.StopIsRaised | src/episode_recorder_node.cpp:1387-1432 | a failed write, a cancel of the action, and a service cancel that goes direct or whose forwarding is refused all leave the stop request up and the episode on |
| StopRequests.CancelingEndsCanceled | src/episode_recorder_node.cpp:1107-1130 | a live goal that is CANCELING before settle_goal tests it ends CANCELED in every continuation that settles it |
| GoalBags.BagToldIff | README.md:158-160 | a settled goal is told of a bag exactly when its episode was recorded, and then of that very bag; no goal has two |
| ConcreteRuns.SettledWithoutBag | src/episode_recorder_node.cpp:1331-1340 | a run that settles an accepted goal with no bag path |
| ConcreteRuns.DeactivatedYetCanceled | README.md:150-156 | a run that tells the client node_deactivated and yet ends CANCELED |
| ConcreteRuns.AcceptedYetLost | src/episode_recorder_node.cpp:1146-1153 | a run that loses an accepted message without any timeout |
| ConcreteRuns.GoalLetGo | src/episode_recorder_node.cpp:1344-1361 | a run in which a refused ~/start_recording leaves an accepted goal unsettled, and its bag without a goal id |
| Runs.ReachableInv | src/episode_recorder_node.cpp:622-1226 | the whole invariant holds in every state of every run |
| Runs.RunReaches | src/episode_recorder_node.cpp:622-1226 | what any schedule leads to from a reachable state is reachable |
| Runs.StepKeepsInv | src/episode_recorder_node.cpp:622-1226 | every step of either thread keeps the whole invariant |
| TickBound.TicksBounded | src/episode_recorder_node.cpp:1034-1087 | if the clock advances by at least P per tick, an episode ends within max(1, ceil(limit/P)) ticks |
| TopicTable.DestroyRestoresContract | src/episode_recorder_node.cpp:555-573 | destroying leaves exactly the contract prefix, with a valid index and valid captured positions |
| TopicTable.DestroyUndoesDiscover | src/episode_recorder_node.cpp:477-573 | discovery followed by destruction gives back the table unchanged |
| TopicTable.DiscoverValid | src/episode_recorder_node.cpp:533-550 | discovery keeps the table valid and every position already captured |
| TopicTable.DiscoverAdds | src/episode_recorder_node.cpp:477-550 | discovery adds each topic found under its own name, type and profile, unbuffered, and nothing else; no name found is missing afterwards |
| TopicTable.FilterChangesNothing | src/episode_recorder_node.cpp:482-540 | skipping known names in the first pass as well as the second does not change the result |
| LatchedBuffers.BufferedLatched | src/episode_recorder_node.cpp:591-601 | one arrival keeps a buffer equal to the last depth eligible messages of all arrivals |
| LatchedBuffers.EligibleIsKept | src/episode_recorder_node.cpp:591-601 | on a contract topic an eligible arrival is kept, as the newest of at most depth messages |
| LatchedBuffers.ResubscribeLatched | src/episode_recorder_node.cpp:765-783 | resubscribing empties exactly the resubscribe_on_start buffers and restarts their history |
| LatchedBuffers.FlushCountsSum | src/episode_recorder_node.cpp:836-851 | after n messages of the head the per-topic counters have grown by n in total |
| LatchedBuffers.HeadEntryFromBuffer | src/episode_recorder_node.cpp:836-851 | every entry of the head is some topic's buffered message, restamped to the bag start |
| InlineStart.BeginEpisodeOutcome | src/episode_recorder_node.cpp:882-946 | an inline open that throws nowhere leaves a live episode whose bag holds exactly the head; one that throws, at any topic or any message of the head, leaves no bag open and nothing recording |
| GoalId.ParseFormat | src/episode_recorder_node.cpp:1089-1105 | the text parses back to the same 16 bytes |
| GoalId.FormatParse | src/episode_recorder_node.cpp:1089-1105 | every well-shaped lower-case text is the text of the bytes it parses to |
| GoalId.FormatIsWellShaped | src/episode_recorder_node.cpp:1091-1092 | the text has the 8-4-4-4-12 shape of section 4 of RFC 9562 |
| GoalId.ByteText | src/episode_recorder_node.cpp:1094-1103 | byte i stands as two lower-case hex digits, the high one first, at its place among the dashes |
| GoalId.Format | src/episode_recorder_node.cpp:1094-1103 | the formatting loop computes that text, and it parses back |
| Locks.OpsNeutral | src/episode_recorder_node.cpp:622-1226 | every piece of code takes its mutexes in strictly increasing rank, never one it holds, and gives all of them back |
| Locks.NoWaitCycle | src/episode_recorder_node.cpp:651-683 | with any number of threads running such code, no reachable state has a wait-for cycle of any length |
| Locks.SomeThreadMoves | src/episode_recorder_node.cpp:829-915 | while any thread has work left, some thread can take its next lock step |
| BagDirectory.CreateBagDir | src/episode_recorder_node.cpp:745-750 | terminates for every finite directory content and returns the base name if it is free, else base-n for the least n from 1 that is |
| BagDirectory.NameShape | src/episode_recorder_node.cpp:738-743 | a name is ten digits of seconds, an underscore and nine digits of nanoseconds, and the digits stand for the clock reading |
| BagDirectory.DecimalShape | src/episode_recorder_node.cpp:747-749 | a suffix number is written in digits without leading zeros |
| BagDirectory.NamesSortAsTimes | src/episode_recorder_node.cpp:738-743 | below 10^10 seconds names are injective in the clock reading and sort exactly as the times |
| BagDirectory.SortedUpToEnd | src/episode_recorder_node.cpp:738-743 | all names below a limit sort by time if and only if the limit is at most 10^10 seconds |
| ContractLoader.Load | src/contract.cpp:303-357 | computes the contract or the first error: robot_type, fps, max_duration_s and storage with their defaults, then section by section in bag order; every accepted topic has a name, a type, depth at least 1, and transient_local whenever it is buffered |
| ContractLoader.Collect | src/contract.cpp:199-260 | the collect loop appends each item's topic in order and stops at the first that does not parse |
| ContractLoader.AcceptedIff | src/contract.cpp:303-357 | a tree is accepted exactly when it is a mapping with a robot_type, a positive fps, and every item of every section parses |
| ContractDefaults.AcceptedItem | src/contract.cpp:303-357 | in an accepted contract the topic of each item stands after those of all earlier sections and items, under the eight keys in their order, and there are no others; an adjunct silent on buffering accumulates if it is transient_local and is not buffered otherwise |
| ContractDefaults.ItemMeaning | src/contract.cpp:199-260 | which items parse, section by section, and to what: a name, a type and a profile, under `publish` for actions |
| ContractDefaults.UnsaidStrategy | src/contract.cpp:262-299 | an adjunct whose buffering_strategy is absent or null accumulates exactly when its durability is transient_local |
| ContractDefaults.SaidStrategy | src/contract.cpp:272-292 | each strategy is chosen by its own word alone, and all but no_buffer need transient_local |
| ContractDefaults.QosMeaning | src/contract.cpp:163-195 | no qos, or an empty one: reliable, keep_last, volatile, depth 10, automatic liveliness; otherwise each policy leaves its default for one word alone, the depth for a positive integer, and liveliness is the system default |
| ContractDefaults.TrimmedAndLowered | src/contract.cpp:135-148 | blanks around a word are dropped and its letters lowered, one by one |
| ContractDefaults.HeaderMeaning | src/contract.cpp:318-332 | robot_type, fps with default 30, max_duration_s with default 30.0 and storage, empty when unset |
| ContractDefaults.FirstError | src/contract.cpp:303-357 | what is reported is the first thing wrong: the mapping, robot_type, fps, then the first bad item of the first section that has one |
| ContractDefaults.WhyRefused | src/contract.cpp:150-292 | why an item is refused: its shape first, then its topic, its type and its strategy, each as missing or as empty |
| ContractDefaults.ClockIsLast | src/episode_recorder_node.cpp:453-464 | under simulated time /clock comes last, with depth 10 and automatic liveliness |
| ContractLoader.AcceptedTable | src/episode_recorder_node.cpp:431-464 | the table of every accepted contract is the first-occurrence dedup of the section concatenation, plus /clock under simulated time; registered topic i is position i |
| ContractRoundTrip.ContractReadBack | src/contract.cpp:163-357 | every header, and every list of recordable topics, section by section, can be written as a contract that loads to exactly that header and those topics in order, profiles and strategies included |
| ContractRoundTrip.StrategyReadBack | src/contract.cpp:32-40 | each strategy's name parses back to it |
| ContractLoader.ItemRecordable | src/contract.cpp:163-299 | a parsed item has depth in 1..2^31-1, and only adjuncts are ever buffered, only when latched |
| WriterBatch.BatchLeaves | src/episode_recorder_node.cpp:650-692 | an uninterrupted batch gives every message one fate in order; the bag grows by the entries of the written ones, messages_written_ by their number, and both flags go up exactly when a write failed |
| WriterBatch.BatchCounts | src/episode_recorder_node.cpp:674-678 | the per-topic counters grow in total by the entries written |
| WriterBatch.MessagesAre | src/episode_recorder_node.cpp:650-692 | the turns of the batch loop, taken one after another, leave the bag, the counters, the topics and the history that BatchLeaves and BatchCounts describe, and change nothing else |
| WriterBatch.PassAnswers | src/episode_recorder_node.cpp:626-701 | an uninterrupted pass under a flush request gives the first 256 queued messages their fate, and answers the request exactly when that was the whole queue |
| EpisodeRecorder.EpisodeRecorderNode.constructor | include/rosetta_recorder_cpp/episode_recorder_node.hpp:255-333 | a new node is in the initial, reachable state |
| EpisodeRecorder.EpisodeRecorderNode.WriterPass | src/episode_recorder_node.cpp:622-702 | one whole pass of the loop is a run of the machine, and leaves what PassAnswers is about |
| EpisodeRecorder.EpisodeRecorderNode.WriteBatch | src/episode_recorder_node.cpp:650-692 | the batch loop is a run of the machine from a reachable state to a reachable one, message by message as in MessagesAre |
| EpisodeRecorder.EpisodeRecorderNode.WriteFound | src/episode_recorder_node.cpp:662-688 | a found message is written and counted, or its failure is reported |
| EpisodeRecorder.EpisodeRecorderNode.WriteOne | src/episode_recorder_node.cpp:653-691 | one turn of that loop: skip, write and count, or report the failure; reachable again |
| EpisodeRecorder.EpisodeRecorderNode.TakeBatch | src/episode_recorder_node.cpp:630-648 | pops up to 256 messages off the front, keeps the byte count without underflow, computes the flushing flag; or leaves the loop |
| EpisodeRecorder.EpisodeRecorderNode.WriteMessage | src/episode_recorder_node.cpp:661-689 | a successful write appends one entry to the open bag; a failing one raises write_failed_ |
| EpisodeRecorder.EpisodeRecorderNode.AnswerFlush | src/episode_recorder_node.cpp:693-700 | answers the request only if the queue is still empty |
| EpisodeRecorder.EpisodeRecorderNode.OnMessage | src/episode_recorder_node.cpp:575-619 | buffers while idle, enqueues or drops while recording |
| EpisodeRecorder.EpisodeRecorderNode.Retain | src/episode_recorder_node.cpp:587-601 | the push and the pop loop leave the last depth messages |
| EpisodeRecorder.EpisodeRecorderNode.BuildTopicList | src/episode_recorder_node.cpp:425-464 | clears the table and adds each topic once |
| EpisodeRecorder.EpisodeRecorderNode.DiscoverTopics | src/episode_recorder_node.cpp:477-550 | both passes over the graph leave the table of Discover |
| EpisodeRecorder.EpisodeRecorderNode.DestroyDiscoveredSubscriptions | src/episode_recorder_node.cpp:555-573 | the reverse erase and the index rebuild leave the table of DestroyDiscovered |
| EpisodeRecorder.EpisodeRecorderNode.PrepareResubscribes | src/episode_recorder_node.cpp:753-785 | discovers, empties and recreates, and counts the recreated subscriptions |
| EpisodeRecorder.EpisodeRecorderNode.CreateTopics | src/episode_recorder_node.cpp:801-823 | registers the first topics by position and zeroes exactly their counters |
| EpisodeRecorder.EpisodeRecorderNode.FlushBuffers | src/episode_recorder_node.cpp:825-857 | the nested flush loops write the first n head entries, counting each, up to the write that throws |
| EpisodeRecorder.EpisodeRecorderNode.SpawnWriterThread | src/episode_recorder_node.cpp:859-868 | resets the queue and starts the thread unless one is running |
| EpisodeRecorder.EpisodeRecorderNode.HandleAccepted | src/episode_recorder_node.cpp:1296-1341 | a goal accepted when idle becomes live and starts an episode, now or after the settle delay |
| EpisodeRecorder.EpisodeRecorderNode.OnStartService | src/episode_recorder_node.cpp:1344-1361 | releases the live goal and its id whether or not the start is then refused; accepted exactly when it was not refused and the episode is recording or waiting to settle afterwards, so not when opening the bag threw |
| EpisodeRecorder.EpisodeRecorderNode.BeginService | src/episode_recorder_node.cpp:1344-1355 | the same up to the opening of the bag |
| EpisodeRecorder.EpisodeRecorderNode.BeginEpisode | src/episode_recorder_node.cpp:936-946 | begin_episode and its catch: register, flush the head, start the thread and go live, or abort |
| EpisodeRecorder.EpisodeRecorderNode.AbortFailedOpen | src/episode_recorder_node.cpp:989-1007 | a failed open closes the writer and settles an accepted goal as failed |
| EpisodeRecorder.EpisodeRecorderNode.OnRecordingTick | src/episode_recorder_node.cpp:1034-1052 | the tick's clock and its first load |
| EpisodeRecorder.EpisodeRecorderNode.FinishTick | src/episode_recorder_node.cpp:1054-1087 | the second load, cancel, timeout and feedback, in that order |
| EpisodeRecorder.EpisodeRecorderNode.AskFlush | src/episode_recorder_node.cpp:1146-1153 | requests a flush; the wait is over at once when the queue is empty |
| EpisodeRecorder.EpisodeRecorderNode.LeaveWait | src/episode_recorder_node.cpp:1153-1163 | clears the request, and on a timeout the queue |
| EpisodeRecorder.EpisodeRecorderNode.ReportEpisode | src/episode_recorder_node.cpp:1168-1226 | stamps the closed bag; metadata failure outranks the reason and takes the drop count with it |
| EpisodeRecorder.EpisodeRecorderNode.SettleGoal | src/episode_recorder_node.cpp:1107-1130 | the terminal call and the release of the handle |
| EpisodeRecorder.EpisodeRecorderNode.BeginStopping | src/episode_recorder_node.cpp:1010-1032 | refuses goals and drops a pending start, settling its goal |
| EpisodeRecorder.EpisodeRecorderNode.ClearAll | src/episode_recorder_node.cpp:340-403 | empties the table; cleanup also empties the queue, shutdown does not |
| EpisodeRecorder.EpisodeRecorderNode.Enqueue | src/episode_recorder_node.cpp:604-617 | append and add the length, or drop and count, by the two bounds |
| EpisodeRecorder.EpisodeRecorderNode.StartRecording | src/episode_recorder_node.cpp:896-955 | refused without any change when not active, recording or pending; otherwise reset, discover, resubscribe, then go on to open the bag or leave it to the settle timer |
| EpisodeRecorder.EpisodeRecorderNode.RegisterTopics | src/episode_recorder_node.cpp:787-823 | registers topics in order and zeroes their counters; any registration may throw, after resetting the counters before it |
| EpisodeRecorder.EpisodeRecorderNode.OnCancelService | src/episode_recorder_node.cpp:1406-1432 | refused with no episode; stops directly only when the action cannot be asked |

## Left out

- rosbag2 storage and MCAP encoding: a bag is its registered topics, its entries and its metadata; write and open may fail, close does not throw.
- The metadata file: its retries, sleeps and rewriting of metadata.yaml are one success-or-failure outcome; the prompt and the contract text are not modelled.
- YAML text: contracts start from a parsed tree in which a scalar carries its text and, if it reads as one, its integer and its decimal number; a null robot_type counts as missing, which yaml-cpp versions decide differently.
- Graph discovery, include and exclude patterns, and copying a publisher's profile: the topics a discovery finds are an arbitrary input.
- Conversion of quality-of-service settings to rclcpp objects and to YAML.
- Termination of the join in stop_writer_thread: the running flag changes outside the queue's mutex, so a wake-up can be lost; the model only lets the join return once the thread has left its loop, which it does with an empty queue.
- Memory ordering of the atomics: sequential consistency is assumed. Two executor threads: src/main.cpp runs one.
- Floating point: max_duration_s is a real number; durations and clock readings are integers, and the remaining time clamped at zero is compared unclamped.
- Integer widths of the counters and of Result.messages_written, and the suffix counter of bag names, are unbounded.
- Local-time bag names: any base name may be given to the suffix search.
- The delete_last_bag service, the destructor, parameter declaration, logging, prompts, and the texts of messages and stop reasons.
- The contents of pending_resubscribed_, which are only logged; their number decides whether a start is deferred.
- Exceptions outside a catch of their own: one thrown by discover_topics or prepare_resubscribes leaves start_recording, and is not modelled.
- An on_configure that fails once build_topic_list has run: the topics it leaves behind in the unconfigured state are not modelled.
- Delivery of the asynchronous cancel response: it is an environment step that may set stop_requested_. A cancel may land at the action server at any point, which allows more interleavings than one executor thread does.
- Fairness of the scheduler: progress of a flush is counted in steps of the writer thread, not in time.
- What rclcpp_action does with a goal once ~/start_recording has dropped its last handle: the library cancels such a goal by itself; the model only says that the node never settles it.
- EpisodeRecorder.EpisodeRecorderNode.WriteBatch: a run of the machine in which the executor takes no step; in the machine its steps interleave freely with the executor's.
- EpisodeRecorder.EpisodeRecorderNode.WriterPass: likewise, and with the condition of the wait already met.
- EpisodeRecorder.EpisodeRecorderNode.OnStartService: the writer thread does not intervene while the bag opens; in the machine it may.
- EpisodeRecorder.EpisodeRecorderNode.BeginEpisode: likewise.
- EpisodeRecorder.EpisodeRecorderNode.ReportEpisode: the prompt and the contract text in the metadata and the text of the result's message, but for the drops it names, are not modelled.
- EpisodeRecorder.EpisodeRecorderNode.StartRecording: the prompt and the bag directory it sets are not modelled; the directory's name is `BagDirectory.CreateBagDir`.
- TickBound.TicksBounded: bounds ticks, not time; the wall timer that produces ticks is not modelled.
