/** The executor's callbacks, one step per piece that is atomic with respect to the writer thread. */
module ExecutorSteps {
  import opened RecorderTypes
  import opened GoalId
  import opened TopicTable
  import opened LatchedBuffers
  import opened RecorderState

  /** Lifecycle callbacks. */
  datatype LifeAction =
    | Configure(specs: seq<RecordTopic>)
    | Activate
    | BeginStop(callback: Callback)
    | StopRecording
    | HaltThread
    | Join
    | Clear
    | CloseOnError

  /** From a start request to a live episode. */
  datatype StartAction =
    | AcceptGoal(goal: Uuid, limit: int, found: seq<RecordTopic>)
    | StartService(found: seq<RecordTopic>)
    | CompleteStart
    | OpenStorage(created: nat, ok: bool)
    | FlushHead(start: int, flushed: nat)
    | SpawnThread
    | GoLive(now: int)
    | AbortOpen

  /** Messages, ticks and cancel requests. */
  datatype RunAction =
    | Deliver(position: nat, length: nat, now: int)
    | Tick(now: int)
    | TickStop
    | CancelService(direct: bool)
    | HandleCancel(goal: Uuid)
    | CancelRefused

  /** finish_recording and settle_goal. */
  datatype FinishAction =
    | BeginDrain
    | WakeDrain
    | DrainTimeout
    | CloseBag
    | DestroyTopics
    | Report(metadataOk: bool)
    | TestCanceling
    | CallSettle

  predicate Free(s: Recorder) {
    !HoldsWriterMutex(s.thread.pc)
  }

  /** Lifecycle transitions the node's state machine allows to run this callback. */
  predicate Allowed(phase: Phase, callback: Callback) {
    match callback
    case TickTimer => false
    case Deactivate => phase.Active?
    case Cleanup => phase.Inactive?
    case Shutdown => !phase.Finalized?
    case OnError => !phase.Finalized?
  }

  predicate LifeEnabled(s: Recorder, a: LifeAction) {
    var e := s.exec;
    match a
    case Configure(specs) =>
      e.pc.Idle? && e.phase.Unconfigured? && forall i :: 0 <= i < |specs| ==> ContractTopic(specs[i])
    case Activate => e.pc.Idle? && e.phase.Inactive?
    case BeginStop(callback) => e.pc.Idle? && Allowed(e.phase, callback)
    case StopRecording => e.pc.Stopping?
    case HaltThread => e.pc.Halting?
    case Join => e.pc.Joining? && s.thread.pc.Off?
    case Clear => e.pc.Clearing?
    case CloseOnError => e.pc.ErrorClosing? && Free(s)
  }

  function LifeStep(s: Recorder, a: LifeAction): Recorder
    requires LifeEnabled(s, a)
  {
    match a
    case Configure(specs) =>
      s.(table := AddAll(EMPTY, specs, false), exec := s.exec.(phase := Inactive))
    case Activate => s.(exec := s.exec.(accepting := true, phase := Active))
    case BeginStop(callback) => BeginStopStep(s, callback)
    case StopRecording => StopRecordingStep(s)
    case HaltThread => HaltThreadStep(s)
    case Join => s.(exec := s.exec.(pc := Clearing(s.exec.pc.callback)))
    case Clear => ClearStep(s)
    case CloseOnError => WithoutWriter(s).(exec := s.exec.(pc := Idle, phase := Unconfigured))
  }

  predicate StartEnabled(s: Recorder, a: StartAction) {
    var e := s.exec;
    match a
    case AcceptGoal(goal, _, _) =>
      e.pc.Idle? && e.accepting && !e.recording && !e.pending && goal !in s.goals.state
    case StartService(_) => e.pc.Idle?
    case CompleteStart => e.pc.Idle? && e.settleTimer
    case OpenStorage(created, ok) =>
      e.pc.Opening? && created <= |s.table.topics| && (ok ==> created == |s.table.topics|)
    case FlushHead(start, flushed) =>
      e.pc.Opened? && Free(s) && flushed <= |HeadEntries(s.table.topics, start)|
    case SpawnThread => e.pc.Flushed?
    case GoLive(_) => e.pc.Spawned?
    case AbortOpen => e.pc.OpenFailed? && Free(s)
  }

  function StartStep(s: Recorder, a: StartAction): Recorder
    requires StartEnabled(s, a)
  {
    match a
    case AcceptGoal(goal, limit, found) => AcceptGoalStep(s, goal, limit, found)
    case StartService(found) => StartServiceStep(s, found)
    case CompleteStart => CompleteStartStep(s)
    case OpenStorage(created, ok) => OpenStorageStep(s, created, ok)
    case FlushHead(start, flushed) => FlushHeadStep(s, start, flushed)
    case SpawnThread => SpawnThreadStep(s)
    case GoLive(now) => GoLiveStep(s, now)
    case AbortOpen => AbortOpenStep(s)
  }

  predicate RunEnabled(s: Recorder, a: RunAction) {
    var e := s.exec;
    match a
    case Deliver(position, _, _) => e.pc.Idle? && position < |s.table.topics|
    case Tick(_) => e.pc.Idle? && e.tickTimer
    case TickStop => e.pc.Ticking?
    case CancelService(direct) =>
      e.pc.Idle? && (e.goal.None? ==> direct) && (IsCanceling(s) ==> !direct)
    case HandleCancel(goal) => e.pc.Idle? && goal in s.goals.state
    case CancelRefused => e.pc.Idle?
  }

  function RunStep(s: Recorder, a: RunAction): Recorder
    requires RunEnabled(s, a)
  {
    match a
    case Deliver(position, length, now) =>
      var sub := s.table.topics[position].sub;
      DeliverStep(s, sub.index, Payload(s.past.delivered, length, sub.name), now)
    case Tick(now) => TickStep(s, now)
    case TickStop => TickStopStep(s)
    case CancelService(direct) => CancelServiceStep(s, direct)
    case HandleCancel(goal) => CancelGoal(RequestStop(s), goal)
    case CancelRefused => RequestStop(s)
  }

  predicate FinishEnabled(s: Recorder, a: FinishAction) {
    var e := s.exec;
    match a
    case BeginDrain => e.pc.Finishing?
    case WakeDrain => e.pc.Draining? && Drained(s.queue)
    case DrainTimeout => e.pc.Draining? && !Drained(s.queue)
    case CloseBag => e.pc.Closing? && Free(s) && s.sink.writer.Some?
    case DestroyTopics => e.pc.Destroying?
    case Report(_) => e.pc.Reporting? && s.past.closed != []
    case TestCanceling => e.pc.Settling? && e.goal.Some? && e.goal.value in s.goals.state
    case CallSettle => e.pc.SettleCall? && e.goal.Some? && e.goal.value in s.goals.state
  }

  function FinishStep(s: Recorder, a: FinishAction): Recorder
    requires FinishEnabled(s, a)
  {
    match a
    case BeginDrain => BeginDrainStep(s)
    case WakeDrain => WakeDrainStep(s)
    case DrainTimeout => DrainTimeoutStep(s)
    case CloseBag => WithoutWriter(s).(exec := s.exec.(pc := Destroying(s.exec.pc.ending)))
    case DestroyTopics =>
      s.(table := DestroyDiscovered(s.table), exec := s.exec.(pc := Reporting(s.exec.pc.ending)))
    case Report(metadataOk) => ReportStep(s, metadataOk)
    case TestCanceling => TestCancelingStep(s)
    case CallSettle => CallSettleStep(s)
  }

  // ---------- on_message ----------

  predicate QueueFull(q: Queue, length: nat) {
    |q.items| >= QUEUE_MAX_MESSAGES || q.bytes + length > QUEUE_MAX_BYTES
  }

  function DeliverStep(s: Recorder, index: nat, data: Payload, now: int): Recorder {
    var past := s.past.(delivered := s.past.delivered + 1);
    if !s.exec.recording then
      s.(table := s.table.(topics := IdleMessage(s.table.topics, index, BufferedMessage(data, now))), past := past)
    else
      var m := QueuedMessage(data, now, index, |past.closed|);
      if QueueFull(s.queue, data.length) then
        s.(exec := s.exec.(dropped := s.exec.dropped + 1),
           past := past.(received := past.received + [m], dropped := past.dropped + [m]))
      else
        s.(queue := s.queue.(items := s.queue.items + [m], bytes := s.queue.bytes + data.length),
           past := past.(received := past.received + [m], accepted := past.accepted + [m]))
  }

  // ---------- Starting ----------

  /** start_recording once its two refusals are past: reset, discover, resubscribe, open now or later. */
  function StartEpisode(s: Recorder, origin: Origin, limit: int, found: seq<RecordTopic>): Recorder {
    var table := Discover(s.table, found);
    var e := s.exec.(
      dropped := 0,
      limit := if limit > 0 then limit else s.exec.defaultLimit,
      starter := if origin.ByGoal? then Some(origin.goal) else None,
      detached := false);
    s.(sink := s.sink.(messagesWritten := 0, writeFailed := false, stopRequested := false),
       table := table.(topics := Resubscribe(table.topics)),
       exec := if ResubscribeCount(table.topics) == 0 then e.(pc := Opening(origin))
               else e.(pending := true, settleTimer := true,
                       goalId := if origin.ByGoal? then FormatGoalId(origin.goal) else e.goalId))
  }

  /** handle_goal accepting, then handle_accepted. */
  function AcceptGoalStep(s: Recorder, goal: Uuid, limit: int, found: seq<RecordTopic>): Recorder {
    StartEpisode(
      s.(exec := s.exec.(goal := Some(goal)),
         goals := s.goals.(state := s.goals.state[goal := Executing])),
      ByGoal(goal), limit, found)
  }

  /** The service drops the goal handle and id first, and only then learns whether it may start. */
  function StartServiceStep(s: Recorder, found: seq<RecordTopic>): Recorder {
    var e := s.exec;
    var letGo := s.(
      exec := e.(goal := None, goalId := "", detached := e.detached || e.recording || e.pending),
      goals := if e.goal.Some? then s.goals.(released := s.goals.released + {e.goal.value}) else s.goals);
    if !e.accepting || e.recording || e.pending then letGo
    else StartEpisode(letGo, ByService, 0, found)
  }

  function CompleteStartStep(s: Recorder): Recorder {
    var e := s.exec.(settleTimer := false);
    s.(exec := if e.pending then e.(pending := false, pc := Opening(ByTimer)) else e)
  }

  /** Open the storage and register the topics, zeroing their counters; it may throw after `created` of them. */
  function OpenStorageStep(s: Recorder, created: nat, ok: bool): Recorder
    requires s.exec.pc.Opening?
  {
    var origin := s.exec.pc.origin;
    s.(table := s.table.(topics := ResetWritten(s.table.topics, created)),
       exec := s.exec.(pc := if ok then Opened(origin, Names(s.table.topics)) else OpenFailed(origin)))
  }

  /** Publish the writer and flush the buffers; the write after the first `flushed` ones throws. */
  function FlushHeadStep(s: Recorder, start: int, flushed: nat): Recorder
    requires s.exec.pc.Opened? && flushed <= |HeadEntries(s.table.topics, start)|
  {
    var origin, topics := s.exec.pc.origin, s.table.topics;
    var head := HeadEntries(topics, start);
    var bag := Bag(s.exec.pc.registered, head[..flushed], None, topics, start, flushed, s.exec.starter, false);
    s.(sink := s.sink.(writer := Some(bag), messagesWritten := s.sink.messagesWritten + flushed),
       table := s.table.(topics := FlushCounts(topics, flushed)),
       exec := s.exec.(pc := if flushed == |head| then Flushed(origin) else OpenFailed(origin)))
  }

  function SpawnThreadStep(s: Recorder): Recorder
    requires s.exec.pc.Flushed?
  {
    var spawned := s.(exec := s.exec.(pc := Spawned(s.exec.pc.origin)));
    if s.queue.running then spawned
    else
      spawned.(queue := EMPTY_QUEUE.(running := true),
               thread := WriterThread(Top, [], false),
               past := s.past.(abandoned := s.past.abandoned + s.queue.items))
  }

  function GoLiveStep(s: Recorder, now: int): Recorder
    requires s.exec.pc.Spawned?
  {
    var origin := s.exec.pc.origin;
    s.(exec := s.exec.(
      pc := Idle, started := now, recording := true, tickTimer := true, ticks := 0, lastClock := now,
      goalId := if origin.ByGoal? then FormatGoalId(origin.goal) else s.exec.goalId))
  }

  function WithoutWriter(s: Recorder): Recorder {
    if s.sink.writer.None? then s
    else
      s.(sink := s.sink.(writer := None),
         past := s.past.(closed := s.past.closed + [s.sink.writer.value]))
  }

  const FAILED_START: Result := Result(Failure, None, 0, None, true, NeverOpened)

  /** The catch of a failed open: close, and report through the result where a goal was accepted. */
  function AbortOpenStep(s: Recorder): Recorder
    requires s.exec.pc.OpenFailed?
  {
    WithoutWriter(s).(exec := s.exec.(
      pc := if s.exec.pc.origin.ByService? || s.exec.goal.None? then Idle
            else Settling(FAILED_START, AfterFailedStart)))
  }

  // ---------- on_recording_tick ----------

  predicate IsCanceling(s: Recorder) {
    s.exec.goal.Some? && s.exec.goal.value in s.goals.state && s.goals.state[s.exec.goal.value] == Canceling
  }

  function BeginFinish(e: Exec, ending: Ending): Exec {
    e.(pc := Finishing(ending), recording := false, tickTimer := false)
  }

  /** The clock and the first load, of write_failed_. */
  function TickStep(s: Recorder, now: int): Recorder {
    var e := s.exec;
    if !e.recording then s
    else
      var e' := e.(ticks := e.ticks + 1, lastClock := now);
      var loaded := |s.past.handled|;
      s.(exec := if s.sink.writeFailed then BeginFinish(e', Ending(Failure, TickTimer, Some(loaded)))
                 else e'.(pc := Ticking(now - e.started, loaded)))
  }

  /** The second load, of stop_requested_, and the rest of the tick. */
  function TickStopStep(s: Recorder): Recorder
    requires s.exec.pc.Ticking?
  {
    var e, elapsed, loaded := s.exec, s.exec.pc.elapsed, Some(s.exec.pc.loaded);
    if s.sink.stopRequested then
      s.(exec := BeginFinish(e, Ending(if IsCanceling(s) then Cancelled else Stopped, TickTimer, loaded)))
    else if IsCanceling(s) then
      s.(exec := BeginFinish(e, Ending(Cancelled, TickTimer, loaded)))
    else if e.limit - elapsed <= 0 then
      s.(exec := BeginFinish(e, Ending(Timeout, TickTimer, loaded)))
    else
      s.(exec := e.(pc := Idle),
         past := if e.goal.None? then s.past
                 else s.past.(feedback := s.past.feedback
                                          + [Feedback(e.goal.value, elapsed, e.limit, s.sink.messagesWritten)]))
  }

  // ---------- Cancelling ----------

  function RequestStop(s: Recorder): Recorder {
    s.(sink := s.sink.(stopRequested := true))
  }

  /** The action server moves an executing goal to CANCELING. */
  function CancelGoal(s: Recorder, goal: Uuid): Recorder {
    if goal in s.goals.state && s.goals.state[goal] == Executing then
      s.(goals := s.goals.(state := s.goals.state[goal := Canceling]))
    else s
  }

  /** `direct` when the cancel could not be forwarded to the action's own cancel service. */
  function CancelServiceStep(s: Recorder, direct: bool): Recorder {
    if (s.exec.recording || s.exec.pending) && direct then RequestStop(s) else s
  }

  // ---------- finish_recording ----------

  predicate Drained(q: Queue) {
    q.flushDone || q.items == []
  }

  /** Leave the drain wait: nobody is waiting for a flush any more. */
  function LeaveDrain(s: Recorder, ending: Ending, kind: ExitKind): Recorder {
    var lost := if kind.ByTimeout? then s.queue.items else [];
    s.(queue := if kind.ByTimeout? then s.queue.(items := [], bytes := 0, flushRequested := false)
                else s.queue.(flushRequested := false),
       exec := s.exec.(pc := Closing(ending)),
       past := s.past.(
         abandoned := s.past.abandoned + lost,
         exits := s.past.exits[|s.past.closed| := DrainExit(kind, |s.thread.batch|, |lost|)]))
  }

  function BeginDrainStep(s: Recorder): Recorder
    requires s.exec.pc.Finishing?
  {
    var ending := s.exec.pc.ending;
    if !s.queue.running then s.(exec := s.exec.(pc := Closing(ending)))
    else
      var asked := s.(queue := s.queue.(flushRequested := true, flushDone := false));
      if Drained(asked.queue) then LeaveDrain(asked, ending, ByEmpty)
      else asked.(exec := s.exec.(pc := Draining(ending)))
  }

  function WakeDrainStep(s: Recorder): Recorder
    requires s.exec.pc.Draining?
  {
    LeaveDrain(s, s.exec.pc.ending, if s.queue.flushDone then ByFlush else ByEmpty)
  }

  function DrainTimeoutStep(s: Recorder): Recorder
    requires s.exec.pc.Draining?
  {
    LeaveDrain(s, s.exec.pc.ending, ByTimeout)
  }

  /** The drops the result's message names: metadata that fails takes the message, and none are not named. */
  function DropsTold(dropped: nat, metadataOk: bool): Option<nat> {
    if metadataOk && dropped > 0 then Some(dropped) else None
  }

  /** Metadata, then the goal's result; without a goal the callback is done. */
  function ReportStep(s: Recorder, metadataOk: bool): Recorder
    requires s.exec.pc.Reporting? && s.past.closed != []
  {
    var e, ending, n := s.exec, s.exec.pc.ending, |s.past.closed| - 1;
    var bag := s.past.closed[n].(
      metadata := if metadataOk then Some(e.goalId) else None,
      detached := e.detached);
    var result := Result(if metadataOk then ending.reason else Failure, Some(n),
                         s.sink.messagesWritten, DropsTold(e.dropped, metadataOk), metadataOk, Ended(ending));
    s.(past := s.past.(closed := s.past.closed[n := bag]),
       exec := if e.goal.Some? then e.(pc := Settling(result, AfterFinish(ending.callback)))
               else Return(e.(goalId := ""), ending.callback))
  }

  // ---------- settle_goal ----------

  predicate AbortReason(reason: Reason) {
    reason.Failure? || reason.NodeDeactivated? || reason.Cancelled?
  }

  /** The terminal state settle_goal asks for. */
  function Verdict(reason: Reason, sawCanceling: bool): GoalState {
    if sawCanceling then Canceled else if AbortReason(reason) then Aborted else Succeeded
  }

  /** The action goal state machine: which terminal calls are legal from where. */
  predicate Legal(from: GoalState, to: GoalState) {
    match to
    case Canceled => from == Canceling
    case Aborted => from == Executing || from == Canceling
    case Succeeded => from == Executing || from == Canceling
    case Canceling => from == Executing
    case Executing => false
  }

  function TestCancelingStep(s: Recorder): Recorder
    requires s.exec.pc.Settling?
  {
    s.(exec := s.exec.(pc := SettleCall(s.exec.pc.result, IsCanceling(s), s.exec.pc.after)))
  }

  /** The terminal call; an illegal one would leave the goal as it was. */
  function CallSettleStep(s: Recorder): Recorder
    requires s.exec.pc.SettleCall? && s.exec.goal.Some? && s.exec.goal.value in s.goals.state
  {
    var goal, pc := s.exec.goal.value, s.exec.pc;
    var verdict := Verdict(pc.result.reason, pc.sawCanceling);
    var e := s.exec.(goal := None);
    s.(goals := s.goals.(
         state := if Legal(s.goals.state[goal], verdict) then s.goals.state[goal := verdict] else s.goals.state,
         settled := s.goals.settled + [Settlement(goal, pc.result, pc.sawCanceling, verdict)]),
       exec := match pc.after
               case AfterFailedStart => e.(pc := Idle)
               case AfterCancelledStart(callback) => e.(pc := Stopping(callback), goalId := "")
               case AfterFinish(callback) => Return(e.(goalId := ""), callback))
  }

  // ---------- Lifecycle ----------

  function StopReason(callback: Callback): Reason {
    if callback.OnError? then Failure else NodeDeactivated
  }

  /** Refuse new goals, then cancel_pending_start. */
  function BeginStopStep(s: Recorder, callback: Callback): Recorder {
    var e := s.exec.(accepting := false);
    s.(exec := if !e.pending then e.(pc := Stopping(callback))
               else
                 var e' := e.(pending := false, settleTimer := false);
                 if e'.goal.Some? then
                   e'.(pc := Settling(Result(StopReason(callback), None, 0, None, true, StartDropped(callback)),
                                      AfterCancelledStart(callback)))
                 else e'.(goalId := "", pc := Stopping(callback)))
  }

  function StopRecordingStep(s: Recorder): Recorder
    requires s.exec.pc.Stopping?
  {
    var callback := s.exec.pc.callback;
    s.(exec := if s.exec.recording then BeginFinish(s.exec, Ending(StopReason(callback), callback, None))
               else Return(s.exec, callback))
  }

  /** What a callback does once no recording and no pending start is left. */
  function Return(e: Exec, callback: Callback): Exec {
    match callback
    case TickTimer => e.(pc := Idle)
    case Deactivate => e.(pc := Idle, phase := Inactive)
    case Cleanup => e.(pc := Halting(callback))
    case Shutdown => e.(pc := Halting(callback))
    case OnError => e.(pc := ErrorClosing)
  }

  function HaltThreadStep(s: Recorder): Recorder
    requires s.exec.pc.Halting?
  {
    var callback := s.exec.pc.callback;
    if s.queue.running then
      s.(queue := s.queue.(running := false), exec := s.exec.(pc := Joining(callback)))
    else s.(exec := s.exec.(pc := Clearing(callback)))
  }

  function ClearStep(s: Recorder): Recorder
    requires s.exec.pc.Clearing?
  {
    var cleanup := s.exec.pc.callback.Cleanup?;
    s.(queue := if cleanup then EMPTY_QUEUE.(running := s.queue.running) else s.queue,
       table := EMPTY,
       exec := s.exec.(pc := Idle, tickTimer := false, phase := if cleanup then Unconfigured else Finalized),
       past := if cleanup then s.past.(abandoned := s.past.abandoned + s.queue.items) else s.past)
  }
}
