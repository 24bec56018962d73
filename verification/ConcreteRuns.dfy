/** Runs in which the recorder does not do what its documentation, its comments or its user would expect. */
module ConcreteRuns {
  import opened RecorderTypes
  import opened TopicTable
  import opened LatchedBuffers
  import opened MessageFlow
  import opened RecorderState
  import opened WriterSteps
  import opened ExecutorSteps
  import opened Runs
  import opened RecorderTheorems

  /** One message arrives and the writer thread takes it. */
  lemma OneInHand(s0: Recorder) returns (s: Recorder, m: QueuedMessage)
    requires Reachable(s0) && s0.exec.pc.Idle? && s0.exec.recording && s0.table.topics != []
    requires s0.queue == EMPTY_QUEUE.(running := true) && s0.thread == WriterThread(Top, [], false)
    ensures Reachable(s)
    ensures m == QueuedMessage(Payload(s0.past.delivered, 1, s0.table.topics[0].spec.topic), 0, 0, |s0.past.closed|)
    ensures s == s0.(
                   thread := WriterThread(Holding, [m], false),
                   past := s0.past.(delivered := s0.past.delivered + 1,
                                    received := s0.past.received + [m], accepted := s0.past.accepted + [m]))
  {
    TableAlwaysValid(s0);
    m := QueuedMessage(Payload(s0.past.delivered, 1, s0.table.topics[0].spec.topic), 0, 0, |s0.past.closed|);
    ReachableStep(s0, Run(Deliver(0, 1, 0)));
    s := Step(s0, Run(Deliver(0, 1, 0)));
    assert s.queue.items == [m];
    s := Taken(s, m);
  }

  lemma Taken(s0: Recorder, m: QueuedMessage) returns (s: Recorder)
    requires Reachable(s0) && s0.queue.items == [m] && s0.thread.pc.Top? && !s0.queue.flushRequested
    ensures Reachable(s)
    ensures s == s0.(thread := WriterThread(Holding, [m], false),
                     queue := s0.queue.(items := [], bytes := s0.queue.bytes - m.data.length))
  {
    BytesOfFirst([m]);
    ReachableStep(s0, Writer(Take));
    s := Step(s0, Writer(Take));
  }

  /** With nothing queued, the drain wait is over at once. */
  lemma DrainedAtOnce(s0: Recorder) returns (s: Recorder)
    requires Reachable(s0) && s0.exec.pc.Finishing? && s0.queue.items == []
    ensures Reachable(s) && s.exec == s0.exec.(pc := Closing(s0.exec.pc.ending))
    ensures s.thread == s0.thread && s.sink == s0.sink && s.table == s0.table && s.goals == s0.goals
    ensures s.past == s0.past.(exits := s.past.exits)
  {
    ReachableControl(s0);
    ReachableStep(s0, Finish(BeginDrain));
    s := Step(s0, Finish(BeginDrain));
  }

  /** A deactivation ends the episode. */
  lemma Deactivated(s0: Recorder) returns (s: Recorder)
    requires Reachable(s0) && s0.exec.pc.Idle? && s0.exec.recording && !s0.exec.pending && s0.exec.phase.Active?
    requires s0.queue.items == []
    ensures Reachable(s)
    ensures s.exec == s0.exec.(accepting := false, recording := false, tickTimer := false,
                               pc := Closing(Ending(NodeDeactivated, Deactivate, None)))
    ensures s.thread == s0.thread && s.sink == s0.sink && s.table == s0.table && s.goals == s0.goals
    ensures s.past == s0.past.(exits := s.past.exits)
  {
    s := s0;
    ReachableStep(s, Life(BeginStop(Deactivate)));
    s := Step(s, Life(BeginStop(Deactivate)));
    ReachableStep(s, Life(StopRecording));
    s := Step(s, Life(StopRecording));
    s := DrainedAtOnce(s);
  }

  // ---------- A goal the documentation's table does not describe ----------

  predicate Starting(s: Recorder, goal: Uuid) {
    && s.exec.goal == Some(goal) && goal in s.goals.state && s.goals.state[goal] == Executing
    && s.goals.settled == [] && s.queue.items == [] && !s.exec.pending && !s.exec.recording && Free(s)
    && s.exec.phase.Active?
  }

  lemma Accepted(goal: Uuid) returns (s: Recorder)
    ensures Reachable(s) && Starting(s, goal) && s.exec.pc == Opening(ByGoal(goal))
  {
    s := Initial(0);
    ReachableInitial(0);
    ReachableStep(s, Life(Configure([])));
    s := Step(s, Life(Configure([])));
    ReachableStep(s, Life(Activate));
    s := Step(s, Life(Activate));
    ReachableStep(s, Start(AcceptGoal(goal, 0, [])));
    s := Step(s, Start(AcceptGoal(goal, 0, [])));
  }

  lemma HeadWritten(goal: Uuid) returns (s: Recorder)
    ensures Reachable(s) && Starting(s, goal) && s.exec.pc.Flushed? && s.sink.writer.Some?
  {
    s := Accepted(goal);
    ReachableStep(s, Start(OpenStorage(|s.table.topics|, true)));
    s := Step(s, Start(OpenStorage(|s.table.topics|, true)));
    var head := HeadEntries(s.table.topics, 0);
    ReachableStep(s, Start(FlushHead(0, |head|)));
    s := Step(s, Start(FlushHead(0, |head|)));
  }

  predicate BeingCanceled(s: Recorder, goal: Uuid) {
    && s.exec.goal == Some(goal) && goal in s.goals.state && s.goals.state[goal] == Canceling
    && s.goals.settled == [] && Free(s)
  }

  lemma Writing(goal: Uuid) returns (s: Recorder)
    ensures Reachable(s) && Starting(s, goal) && s.exec.pc.Spawned? && s.sink.writer.Some?
  {
    s := HeadWritten(goal);
    ReachableStep(s, Start(SpawnThread));
    s := Step(s, Start(SpawnThread));
  }

  lemma Recording(goal: Uuid) returns (s: Recorder)
    ensures Reachable(s) && Starting(s.(exec := s.exec.(recording := false)), goal) && s.exec.pc.Idle?
    ensures s.exec.recording && s.sink.writer.Some?
  {
    s := Writing(goal);
    ReachableStep(s, Start(GoLive(0)));
    s := Step(s, Start(GoLive(0)));
  }

  lemma Live(goal: Uuid) returns (s: Recorder)
    ensures Reachable(s) && BeingCanceled(s, goal) && s.exec.pc.Idle? && s.exec.recording
    ensures s.exec.phase.Active? && !s.exec.pending && s.queue.items == [] && s.sink.writer.Some?
  {
    s := Recording(goal);
    ReachableStep(s, Run(HandleCancel(goal)));
    s := Step(s, Run(HandleCancel(goal)));
  }

  lemma StoppedRecording(goal: Uuid) returns (s: Recorder)
    ensures Reachable(s) && BeingCanceled(s, goal) && s.exec.pc.Finishing? && s.exec.pc.ending.reason == NodeDeactivated
    ensures s.queue.items == [] && s.sink.writer.Some?
  {
    s := Live(goal);
    ReachableStep(s, Life(BeginStop(Deactivate)));
    s := Step(s, Life(BeginStop(Deactivate)));
    ReachableStep(s, Life(StopRecording));
    s := Step(s, Life(StopRecording));
  }

  lemma DrainLeft(goal: Uuid) returns (s: Recorder)
    ensures Reachable(s) && BeingCanceled(s, goal) && s.exec.pc.Closing? && s.exec.pc.ending.reason == NodeDeactivated
    ensures s.sink.writer.Some?
  {
    s := StoppedRecording(goal);
    s := DrainedAtOnce(s);
  }

  lemma Closed(goal: Uuid) returns (s: Recorder)
    ensures Reachable(s) && BeingCanceled(s, goal)
    ensures s.exec.pc.Destroying? && s.exec.pc.ending.reason == NodeDeactivated
    ensures s.past.closed != []
  {
    s := DrainLeft(goal);
    ReachableStep(s, Finish(CloseBag));
    s := Step(s, Finish(CloseBag));
  }

  lemma Reported(goal: Uuid) returns (s: Recorder)
    ensures Reachable(s) && BeingCanceled(s, goal) && s.exec.pc.Settling? && s.exec.pc.result.reason == NodeDeactivated
  {
    s := Closed(goal);
    ReachableStep(s, Finish(DestroyTopics));
    s := Step(s, Finish(DestroyTopics));
    ReachableStep(s, Finish(Report(true)));
    s := Step(s, Finish(Report(true)));
  }

  /** A cancel and then a deactivation before the next tick: told "deactivated", and yet CANCELED. */
  lemma DeactivatedYetCanceled(goal: Uuid) returns (s: Recorder)
    ensures Reachable(s) && |s.goals.settled| == 1
    ensures var x := s.goals.settled[0];
      x.goal == goal && x.result.reason == NodeDeactivated && x.verdict == Canceled != Documented(x.result.reason)
  {
    s := Reported(goal);
    ReachableStep(s, Finish(TestCanceling));
    s := Step(s, Finish(TestCanceling));
    ReachableStep(s, Finish(CallSettle));
    s := Step(s, Finish(CallSettle));
  }

  // ---------- A result without a bag ----------

  lemma OpenRefused(goal: Uuid) returns (s: Recorder)
    ensures Reachable(s) && Starting(s, goal) && s.exec.pc == Settling(FAILED_START, AfterFailedStart)
  {
    s := Accepted(goal);
    ReachableStep(s, Start(OpenStorage(0, false)));
    s := Step(s, Start(OpenStorage(0, false)));
    ReachableStep(s, Start(AbortOpen));
    s := Step(s, Start(AbortOpen));
  }

  /** The goal was accepted, opening its bag fails, and the result has no bag path. */
  lemma SettledWithoutBag(goal: Uuid) returns (s: Recorder)
    ensures Reachable(s) && |s.goals.settled| == 1
    ensures s.goals.settled[0].goal == goal && s.goals.settled[0].result.bag.None?
  {
    s := OpenRefused(goal);
    ReachableStep(s, Finish(TestCanceling));
    s := Step(s, Finish(TestCanceling));
    ReachableStep(s, Finish(CallSettle));
    s := Step(s, Finish(CallSettle));
  }

  // ---------- A goal the start service lets go ----------

  /** The goal is released: no longer anybody's to settle. */
  predicate LetGo(s: Recorder, goal: Uuid) {
    && s.exec.goal.None? && s.exec.goalId == "" && s.exec.detached && s.exec.starter == Some(goal)
    && goal in s.goals.released && goal in s.goals.state
    && s.goals.settled == [] && Free(s) && !s.exec.pending
  }

  lemma StartedByGoal(goal: Uuid) returns (s: Recorder)
    ensures Reachable(s) && s.exec.pc.Idle? && s.exec.recording && s.exec.starter == Some(goal)
    ensures Starting(s.(exec := s.exec.(recording := false)), goal) && s.sink.writer.Some?
  {
    s := Recording(goal);
    ReachableStamps(s);
  }

  lemma ServiceRefused(goal: Uuid) returns (s: Recorder)
    ensures Reachable(s) && LetGo(s, goal) && s.exec.pc.Idle? && s.exec.recording && s.exec.phase.Active?
    ensures s.queue.items == [] && s.sink.writer.Some?
  {
    s := StartedByGoal(goal);
    ReachableStep(s, Start(StartService([])));
    s := Step(s, Start(StartService([])));
  }

  lemma EndedWithoutGoal(goal: Uuid) returns (s: Recorder)
    ensures Reachable(s) && LetGo(s, goal) && s.exec.pc.Closing? && s.exec.pc.ending.callback == Deactivate
    ensures !s.exec.recording && s.sink.writer.Some?
  {
    s := ServiceRefused(goal);
    s := Deactivated(s);
  }

  lemma ClosedWithoutGoal(goal: Uuid) returns (s: Recorder)
    ensures Reachable(s) && LetGo(s, goal) && s.exec.pc.Reporting? && s.exec.pc.ending.callback == Deactivate
    ensures !s.exec.recording && s.sink.writer.None? && s.past.closed != []
    ensures s.past.closed[|s.past.closed| - 1].starter == Some(goal)
  {
    s := EndedWithoutGoal(goal);
    ReachableStamps(s);
    ReachableStep(s, Finish(CloseBag));
    s := Step(s, Finish(CloseBag));
    ReachableStep(s, Finish(DestroyTopics));
    s := Step(s, Finish(DestroyTopics));
  }

  /**
    ~/start_recording during a goal's episode is refused, and yet takes the goal: the episode is over, its
    bag carries no goal id, and settle_goal was never called for the accepted goal.
   */
  lemma GoalLetGo(goal: Uuid) returns (s: Recorder)
    ensures Reachable(s) && s.exec.pc.Idle? && !s.exec.recording && !s.exec.pending
    ensures goal in s.goals.state && goal in s.goals.released && s.goals.settled == []
    ensures s.past.closed != [] && var bag := s.past.closed[|s.past.closed| - 1];
      bag.starter == Some(goal) && bag.metadata == Some("")
  {
    s := ClosedWithoutGoal(goal);
    ReachableStep(s, Finish(Report(true)));
    s := Step(s, Finish(Report(true)));
  }

  // ---------- An episode of a goal, with one topic ----------

  const TOPIC: RecordTopic := RecordTopic("/a", "std_msgs/msg/String", Qos(10, true, true, false, 0), NoBuffer)

  /** One topic, no goal, no cancel: a service-started episode. */
  predicate Plain(s: Recorder) {
    && s.exec.goal.None? && s.exec.phase.Active? && !s.exec.pending && Free(s)
    && |s.table.topics| == 1 && s.table.topics[0].spec == TOPIC
  }

  predicate NoBagYet(p: Past) {
    p.closed == [] && p.exits == map[] && p.handled == [] && p.abandoned == []
  }

  lemma Configured() returns (s: Recorder)
    ensures Reachable(s) && Plain(s) && s.exec.pc.Idle? && s.exec.accepting && !s.exec.recording
    ensures s.queue == EMPTY_QUEUE && s.thread == IDLE_THREAD
    ensures s.past.accepted == [] && s.past.dropped == [] && NoBagYet(s.past)
    ensures s.goals == Goals(map[], [], {})
  {
    s := Initial(1);
    ReachableInitial(1);
    var specs := [TOPIC];
    assert specs[..0] == [] && AddAll(EMPTY, [], false) == EMPTY;
    ReachableStep(s, Life(Configure(specs)));
    s := Step(s, Life(Configure(specs)));
    ReachableStep(s, Life(Activate));
    s := Step(s, Life(Activate));
  }

  /** The episode of an executing goal, with the one topic and nothing received or closed yet. */
  predicate OfGoal(s: Recorder, goal: Uuid) {
    && s.exec.goal == Some(goal) && goal in s.goals.state && s.goals.state[goal] == Executing
    && s.goals.settled == [] && s.exec.phase.Active? && !s.exec.pending && Free(s)
    && |s.table.topics| == 1 && s.table.topics[0].spec == TOPIC
    && s.past.dropped == [] && s.past.handled == [] && s.past.closed == []
  }

  lemma GoalStarted(goal: Uuid) returns (s: Recorder)
    ensures Reachable(s) && OfGoal(s, goal) && s.exec.pc == Opening(ByGoal(goal)) && !s.exec.recording
    ensures s.exec.limit == 1 && s.exec.dropped == 0 && s.queue == EMPTY_QUEUE && s.thread == IDLE_THREAD
    ensures !s.sink.writeFailed && !s.sink.stopRequested
  {
    s := Configured();
    var topics := s.table.topics;
    assert Discover(s.table, []) == s.table;
    assert topics[..0] == [] && ResubscribeCount(topics) == 0;
    ReachableStep(s, Start(AcceptGoal(goal, 1, [])));
    s := Step(s, Start(AcceptGoal(goal, 1, [])));
  }

  lemma GoalFlushed(goal: Uuid) returns (s: Recorder)
    ensures Reachable(s) && OfGoal(s, goal) && s.exec.pc == Flushed(ByGoal(goal)) && !s.exec.recording
    ensures s.exec.limit == 1 && s.exec.dropped == 0 && s.queue == EMPTY_QUEUE && s.thread == IDLE_THREAD
    ensures s.sink.writer.Some? && !s.sink.writeFailed && !s.sink.stopRequested
  {
    s := GoalStarted(goal);
    ReachableStep(s, Start(OpenStorage(|s.table.topics|, true)));
    s := Step(s, Start(OpenStorage(|s.table.topics|, true)));
    var head := HeadEntries(s.table.topics, 0);
    FlushKeepsTopics(s.table.topics, |head|);
    ReachableStep(s, Start(FlushHead(0, |head|)));
    s := Step(s, Start(FlushHead(0, |head|)));
  }

  lemma GoalRecording(goal: Uuid) returns (s: Recorder)
    ensures Reachable(s) && OfGoal(s, goal) && s.exec.pc.Idle? && s.exec.recording && s.exec.started == 0
    ensures s.exec.limit == 1 && s.exec.dropped == 0
    ensures s.queue == EMPTY_QUEUE.(running := true) && s.thread == WriterThread(Top, [], false)
    ensures s.sink.writer.Some? && !s.sink.writeFailed && !s.sink.stopRequested
  {
    s := GoalFlushed(goal);
    ReachableStep(s, Start(SpawnThread));
    s := Step(s, Start(SpawnThread));
    ReachableStep(s, Start(GoLive(0)));
    s := Step(s, Start(GoLive(0)));
  }

  // ---------- Drops a result does not name ----------

  lemma OneDropped(goal: Uuid) returns (s: Recorder)
    ensures Reachable(s) && s.exec.goal == Some(goal) && s.goals.settled == []
    ensures s.exec.pc.Idle? && s.exec.recording && s.exec.phase.Active?
    ensures s.queue == EMPTY_QUEUE.(running := true) && s.thread.pc.Top?
    ensures |OfEpisode(s.past.dropped, 0)| == 1 && s.past.closed == [] && s.sink.writer.Some? && !s.exec.pending
  {
    s := GoalRecording(goal);
    var big := QUEUE_MAX_BYTES + 1;
    ReachableStep(s, Run(Deliver(0, big, 0)));
    s := Step(s, Run(Deliver(0, big, 0)));
    assert s.past.dropped[..0] == [] && OfEpisode([], 0) == [];
  }

  lemma DroppedStopped(goal: Uuid) returns (s: Recorder)
    ensures Reachable(s) && s.exec.goal == Some(goal) && s.goals.settled == [] && s.exec.pc.Closing?
    ensures Free(s) && s.sink.writer.Some? && |OfEpisode(s.past.dropped, 0)| == 1 && s.past.closed == []
  {
    s := OneDropped(goal);
    s := Deactivated(s);
  }

  lemma DroppedClosed(goal: Uuid) returns (s: Recorder)
    ensures Reachable(s) && s.exec.goal == Some(goal) && s.goals.settled == [] && s.exec.pc.Reporting?
    ensures |OfEpisode(s.past.dropped, 0)| == 1 && |s.past.closed| == 1
  {
    s := DroppedStopped(goal);
    ReachableStep(s, Finish(CloseBag));
    s := Step(s, Finish(CloseBag));
    ReachableStep(s, Finish(DestroyTopics));
    s := Step(s, Finish(DestroyTopics));
  }

  lemma DroppedReported(goal: Uuid) returns (s: Recorder)
    ensures Reachable(s) && s.exec.goal == Some(goal) && s.goals.settled == [] && s.exec.pc.Settling?
    ensures s.exec.pc.result.bag == Some(0) && s.exec.pc.result.dropped.None?
    ensures |OfEpisode(s.past.dropped, 0)| == 1
  {
    s := DroppedClosed(goal);
    ReachableStep(s, Finish(Report(false)));
    s := Step(s, Finish(Report(false)));
  }

  /** A message is dropped, the metadata is not written, and the result names a bag and no drop. */
  lemma DropsUntold(goal: Uuid) returns (s: Recorder)
    ensures Reachable(s) && |s.goals.settled| == 1
    ensures var x := s.goals.settled[0]; x.goal == goal && x.result.bag == Some(0) && x.result.dropped.None?
    ensures |OfEpisode(s.past.dropped, 0)| == 1
  {
    s := DroppedReported(goal);
    ReachableGoals(s);
    ReachableStep(s, Finish(TestCanceling));
    s := Step(s, Finish(TestCanceling));
    ReachableStep(s, Finish(CallSettle));
    s := Step(s, Finish(CallSettle));
  }

  // ---------- A failed write that ends SUCCEEDED ----------

  /** The episode of an executing goal with one message taken off the queue. */
  predicate OneTaken(s: Recorder, goal: Uuid) {
    && s.exec.goal == Some(goal) && goal in s.goals.state && s.goals.state[goal] == Executing
    && s.goals.settled == [] && s.past.closed == [] && s.sink.writer.Some? && !s.sink.stopRequested
    && s.queue == EMPTY_QUEUE.(running := true) && s.exec.limit == 1
    && |s.table.topics| == 1
  }

  lemma TakenBeforeTick(goal: Uuid) returns (s: Recorder)
    ensures Reachable(s) && OneTaken(s, goal) && s.exec.pc.Idle? && s.exec.recording && s.exec.started == 0
    ensures s.exec.tickTimer
    ensures s.thread.pc.Holding? && |s.thread.batch| == 1 && s.thread.batch[0].topic == 0 && !s.thread.flushing
    ensures s.past.handled == [] && !s.sink.writeFailed
  {
    s := GoalRecording(goal);
    ReachableControl(s);
    var m: QueuedMessage;
    s, m := OneInHand(s);
  }

  lemma Looking(goal: Uuid) returns (s: Recorder)
    ensures Reachable(s) && OneTaken(s, goal) && s.exec.pc == Ticking(1, 0) && s.exec.recording
    ensures s.thread.pc.Looked? && |s.thread.batch| == 1 && !s.thread.flushing && s.past.handled == []
  {
    s := TakenBeforeTick(goal);
    ReachableStep(s, Run(Tick(1)));
    s := Step(s, Run(Tick(1)));
    ReachableStep(s, Writer(Lock));
    s := Step(s, Writer(Lock));
    ReachableStep(s, Writer(Lookup));
    s := Step(s, Writer(Lookup));
  }

  predicate OneFailed(p: Past) {
    |p.handled| == 1 && p.handled[0].fate == WriteFailed(0)
  }

  lemma FailedInTick(goal: Uuid) returns (s: Recorder)
    ensures Reachable(s) && OneTaken(s, goal) && OneFailed(s.past)
    ensures s.exec.pc == Finishing(Ending(Timeout, TickTimer, Some(0)))
    ensures s.thread.pc.Failing? && s.thread.batch == [] && !s.thread.flushing
  {
    s := Looking(goal);
    ReachableStep(s, Writer(Write(false)));
    s := Step(s, Writer(Write(false)));
    ReachableStep(s, Run(TickStop));
    s := Step(s, Run(TickStop));
  }

  lemma FailedUnlocked(goal: Uuid) returns (s: Recorder)
    ensures Reachable(s) && OneTaken(s.(sink := s.sink.(stopRequested := false)), goal) && OneFailed(s.past)
    ensures s.exec.pc == Finishing(Ending(Timeout, TickTimer, Some(0))) && s.thread.pc.Top?
  {
    s := FailedInTick(goal);
    ReachableStep(s, Writer(RaiseStop));
    s := Step(s, Writer(RaiseStop));
    ReachableStep(s, Writer(Unlock));
    s := Step(s, Writer(Unlock));
  }

  lemma FailedClosing(goal: Uuid) returns (s: Recorder)
    ensures Reachable(s) && OneFailed(s.past) && s.exec.pc == Closing(Ending(Timeout, TickTimer, Some(0)))
    ensures s.exec.goal == Some(goal) && goal in s.goals.state && s.goals.state[goal] == Executing
    ensures s.goals.settled == [] && s.past.closed == [] && s.sink.writer.Some? && Free(s)
  {
    s := FailedUnlocked(goal);
    s := DrainedAtOnce(s);
  }

  lemma FailedClosed(goal: Uuid) returns (s: Recorder)
    ensures Reachable(s) && OneFailed(s.past) && s.exec.pc == Destroying(Ending(Timeout, TickTimer, Some(0)))
    ensures s.exec.goal == Some(goal) && goal in s.goals.state && s.goals.state[goal] == Executing
    ensures s.goals.settled == [] && |s.past.closed| == 1
  {
    s := FailedClosing(goal);
    ReachableStep(s, Finish(CloseBag));
    s := Step(s, Finish(CloseBag));
  }

  lemma FailedReporting(goal: Uuid) returns (s: Recorder)
    ensures Reachable(s) && OneFailed(s.past) && s.exec.pc == Reporting(Ending(Timeout, TickTimer, Some(0)))
    ensures s.exec.goal == Some(goal) && goal in s.goals.state && s.goals.state[goal] == Executing
    ensures s.goals.settled == [] && |s.past.closed| == 1
  {
    s := FailedClosed(goal);
    ReachableStep(s, Finish(DestroyTopics));
    s := Step(s, Finish(DestroyTopics));
  }

  lemma FailedReported(goal: Uuid) returns (s: Recorder)
    ensures Reachable(s) && OneFailed(s.past) && s.exec.pc.Settling?
    ensures s.exec.pc.result.bag == Some(0) && s.exec.pc.result.reason == Timeout
    ensures s.exec.goal == Some(goal) && goal in s.goals.state && s.goals.state[goal] == Executing
    ensures s.goals.settled == []
  {
    s := FailedReporting(goal);
    ReachableStep(s, Finish(Report(true)));
    s := Step(s, Finish(Report(true)));
  }

  /** The only message is lost to a failed write between the two loads of the ending tick: told "timeout". */
  lemma FailedYetSucceeded(goal: Uuid) returns (s: Recorder)
    ensures Reachable(s) && |s.goals.settled| == 1 && OneFailed(s.past)
    ensures var x := s.goals.settled[0];
      x.goal == goal && x.verdict == Succeeded && x.result.reason == Timeout && x.result.bag == Some(0)
  {
    s := FailedReported(goal);
    ReachableStep(s, Finish(TestCanceling));
    s := Step(s, Finish(TestCanceling));
    ReachableStep(s, Finish(CallSettle));
    s := Step(s, Finish(CallSettle));
  }

  // ---------- A message the drain does not wait for ----------

  lemma ServiceStarted() returns (s: Recorder)
    ensures Reachable(s) && Plain(s) && s.exec.pc.Opening? && !s.exec.recording
    ensures s.queue == EMPTY_QUEUE && s.thread == IDLE_THREAD && s.past.accepted == [] && NoBagYet(s.past)
  {
    s := Configured();
    var topics := s.table.topics;
    assert Discover(s.table, []) == s.table;
    assert topics[..0] == [] && ResubscribeCount(topics) == 0;
    ReachableStep(s, Start(StartService([])));
    s := Step(s, Start(StartService([])));
  }

  lemma ServiceFlushed() returns (s: Recorder)
    ensures Reachable(s) && Plain(s) && s.exec.pc.Flushed? && s.sink.writer.Some? && !s.exec.recording
    ensures s.queue == EMPTY_QUEUE && s.thread == IDLE_THREAD && s.past.accepted == [] && NoBagYet(s.past)
  {
    s := ServiceStarted();
    ReachableStep(s, Start(OpenStorage(|s.table.topics|, true)));
    s := Step(s, Start(OpenStorage(|s.table.topics|, true)));
    var head := HeadEntries(s.table.topics, 0);
    FlushKeepsTopics(s.table.topics, |head|);
    ReachableStep(s, Start(FlushHead(0, |head|)));
    s := Step(s, Start(FlushHead(0, |head|)));
  }

  lemma ServiceRecording() returns (s: Recorder)
    ensures Reachable(s) && Plain(s) && s.exec.recording && s.exec.pc.Idle? && s.sink.writer.Some?
    ensures s.queue == EMPTY_QUEUE.(running := true) && s.thread == WriterThread(Top, [], false)
    ensures s.past.accepted == [] && NoBagYet(s.past)
  {
    s := ServiceFlushed();
    ReachableStep(s, Start(SpawnThread));
    s := Step(s, Start(SpawnThread));
    ReachableStep(s, Start(GoLive(0)));
    s := Step(s, Start(GoLive(0)));
  }

  /** Recording, with one message accepted and already in the writer's hands. */
  lemma MessageInHand() returns (s: Recorder, m: QueuedMessage)
    ensures Reachable(s) && s.exec.recording && s.exec.pc.Idle? && s.exec.phase.Active? && !s.exec.pending
    ensures s.past.accepted == [m] && m.episode == 0 && NoBagYet(s.past) && s.sink.writer.Some?
    ensures s.thread.pc.Holding? && s.thread.batch == [m] && s.queue.items == [] && s.queue.running
  {
    s := ServiceRecording();
    s, m := OneInHand(s);
  }

  lemma DrainSkipped() returns (s: Recorder, m: QueuedMessage)
    ensures Reachable(s) && s.exec.pc.Closing? && Free(s) && s.sink.writer.Some?
    ensures s.past.accepted == [m] && m.episode == 0 && s.thread.pc.Holding? && s.thread.batch == [m]
    ensures s.past.closed == [] && s.past.handled == [] && s.past.abandoned == []
  {
    s, m := MessageInHand();
    s := Deactivated(s);
  }

  /** An accepted message, never abandoned by a timeout, that ends up in no bag at all. */
  lemma AcceptedYetLost() returns (s: Recorder, m: QueuedMessage)
    ensures Reachable(s) && s.past.accepted == [m] && |s.past.closed| == 1 && s.past.abandoned == []
    ensures |s.past.handled| == 1 && s.past.handled[0] == Handled(m, NoBag)
  {
    s, m := DrainSkipped();
    ReachableStep(s, Finish(CloseBag));
    s := Step(s, Finish(CloseBag));
    ReachableStep(s, Writer(Lock));
    s := Step(s, Writer(Lock));
  }

  // ---------- A message written under another topic's name ----------

  const OTHER: RecordTopic := RecordTopic("/b", "std_msgs/msg/String", Qos(10, true, true, false, 0), NoBuffer)

  /** One discovered topic, at position 0. */
  predicate Single(t: Table, spec: RecordTopic) {
    t == Table([NewTopic(spec, 0, true)], map[spec.topic := 0])
  }

  /** Between episodes, with nothing in the contract. */
  predicate Waiting(s: Recorder) {
    && s.table == EMPTY && s.exec.pc.Idle? && s.exec.phase.Active? && s.exec.accepting
    && !s.exec.recording && !s.exec.pending && s.exec.goal.None? && s.sink.writer.None? && Free(s)
  }

  /** In an episode that a service call started. */
  predicate Within(s: Recorder, spec: RecordTopic) {
    && Single(s.table, spec) && s.exec.phase.Active? && s.exec.accepting
    && !s.exec.pending && s.exec.goal.None? && Free(s)
  }

  lemma DiscoverOne(spec: RecordTopic)
    requires spec.strategy == NoBuffer
    ensures Single(Discover(EMPTY, [spec]), spec)
    ensures ResubscribeCount(Discover(EMPTY, [spec]).topics) == 0
    ensures Resubscribe(Discover(EMPTY, [spec]).topics) == Discover(EMPTY, [spec]).topics
  {
    var all := UnbufferedAll([spec]);
    assert all == [spec] && all[..0] == [];
    assert AddAll(EMPTY, [], true) == EMPTY;
    var topics := Discover(EMPTY, [spec]).topics;
    assert topics[..0] == [];
    assert Resubscribe(topics) == topics;
  }

  lemma OpeningWith(s0: Recorder, spec: RecordTopic) returns (s: Recorder)
    requires Reachable(s0) && Waiting(s0) && spec.strategy == NoBuffer
    ensures Reachable(s) && Within(s, spec) && s.exec.pc.Opening? && !s.exec.recording
    ensures s.past == s0.past && s.thread == s0.thread && s.queue == s0.queue && s.sink.writer.None?
  {
    DiscoverOne(spec);
    ReachableStep(s0, Start(StartService([spec])));
    s := Step(s0, Start(StartService([spec])));
  }

  lemma OpenedWith(s0: Recorder, spec: RecordTopic) returns (s: Recorder)
    requires Reachable(s0) && Waiting(s0) && spec.strategy == NoBuffer
    ensures Reachable(s) && Within(s, spec) && s.exec.pc.Opened? && !s.exec.recording
    ensures s.past == s0.past && s.thread == s0.thread && s.queue == s0.queue && s.sink.writer.None?
  {
    s := OpeningWith(s0, spec);
    assert ResetWritten(s.table.topics, |s.table.topics|) == s.table.topics;
    ReachableStep(s, Start(OpenStorage(|s.table.topics|, true)));
    s := Step(s, Start(OpenStorage(|s.table.topics|, true)));
  }

  lemma FlushedWith(s0: Recorder, spec: RecordTopic) returns (s: Recorder)
    requires Reachable(s0) && Waiting(s0) && spec.strategy == NoBuffer
    ensures Reachable(s) && Within(s, spec) && s.exec.pc.Flushed? && !s.exec.recording && s.sink.writer.Some?
    ensures s.past == s0.past && s.thread == s0.thread && s.queue == s0.queue
  {
    s := OpenedWith(s0, spec);
    var topics := s.table.topics;
    assert topics[..0] == [] && HeadEntries(topics, 0) == [];
    FlushNone(topics);
    ReachableStep(s, Start(FlushHead(0, 0)));
    s := Step(s, Start(FlushHead(0, 0)));
  }

  lemma NoContract() returns (s: Recorder)
    ensures Reachable(s) && Waiting(s) && s.queue == EMPTY_QUEUE && s.thread == IDLE_THREAD && NoBagYet(s.past)
  {
    s := Initial(1);
    ReachableInitial(1);
    assert AddAll(EMPTY, [], false) == EMPTY;
    ReachableStep(s, Life(Configure([])));
    s := Step(s, Life(Configure([])));
    ReachableStep(s, Life(Activate));
    s := Step(s, Life(Activate));
  }

  lemma FirstSpawned() returns (s: Recorder)
    ensures Reachable(s) && Within(s, TOPIC) && s.exec.pc.Spawned? && !s.exec.recording && s.sink.writer.Some?
    ensures s.queue == EMPTY_QUEUE.(running := true) && s.thread == WriterThread(Top, [], false)
    ensures NoBagYet(s.past)
  {
    s := NoContract();
    s := FlushedWith(s, TOPIC);
    ReachableStep(s, Start(SpawnThread));
    s := Step(s, Start(SpawnThread));
  }

  lemma FirstEpisode() returns (s: Recorder)
    ensures Reachable(s) && Within(s, TOPIC) && s.exec.pc.Idle? && s.exec.recording && s.sink.writer.Some?
    ensures s.queue == EMPTY_QUEUE.(running := true) && s.thread == WriterThread(Top, [], false)
    ensures NoBagYet(s.past)
  {
    s := FirstSpawned();
    ReachableStep(s, Start(GoLive(0)));
    s := Step(s, Start(GoLive(0)));
  }

  lemma FirstInHand() returns (s: Recorder, m: QueuedMessage)
    ensures Reachable(s) && Within(s, TOPIC) && s.exec.pc.Idle? && s.exec.recording && s.sink.writer.Some?
    ensures s.queue == EMPTY_QUEUE.(running := true) && s.thread == WriterThread(Holding, [m], false)
    ensures NoBagYet(s.past) && m.episode == 0 && m.topic == 0 && m.data.source == TOPIC.topic
  {
    s := FirstEpisode();
    s, m := OneInHand(s);
  }

  lemma FirstStopped() returns (s: Recorder, m: QueuedMessage)
    ensures Reachable(s) && Single(s.table, TOPIC) && s.exec.phase.Active? && Free(s)
    ensures s.exec.pc == Closing(Ending(NodeDeactivated, Deactivate, None))
    ensures !s.exec.recording && !s.exec.pending && s.exec.goal.None? && s.sink.writer.Some?
    ensures s.thread == WriterThread(Holding, [m], false) && s.past.closed == [] && s.past.handled == []
    ensures m.episode == 0 && m.topic == 0 && m.data.source == TOPIC.topic
  {
    s, m := FirstInHand();
    s := Deactivated(s);
  }

  lemma DestroyOne(t: Table, spec: RecordTopic)
    requires Single(t, spec)
    ensures DestroyDiscovered(t) == EMPTY
  {
    assert t.topics[..0] == [] && Keep([]) == [];
    assert Keep(t.topics) == [] + [];
  }

  /** The bag is closed and its topics destroyed; the message is still in the writer's hands. */
  predicate Behind(s: Recorder, m: QueuedMessage) {
    && s.table == EMPTY && Free(s) && s.sink.writer.None?
    && !s.exec.recording && !s.exec.pending && s.exec.goal.None?
    && s.thread == WriterThread(Holding, [m], false) && |s.past.closed| == 1 && s.past.handled == []
  }

  lemma FirstClosed() returns (s: Recorder, m: QueuedMessage)
    ensures Reachable(s) && Behind(s, m) && s.exec.pc.Reporting? && s.exec.pc.ending.callback == Deactivate
    ensures m.episode == 0 && m.topic == 0 && m.data.source == TOPIC.topic
  {
    s, m := FirstStopped();
    ReachableStep(s, Finish(CloseBag));
    s := Step(s, Finish(CloseBag));
    DestroyOne(s.table, TOPIC);
    ReachableStep(s, Finish(DestroyTopics));
    s := Step(s, Finish(DestroyTopics));
  }

  lemma ActiveAgain() returns (s: Recorder, m: QueuedMessage)
    ensures Reachable(s) && Behind(s, m) && Waiting(s)
    ensures m.episode == 0 && m.topic == 0 && m.data.source == TOPIC.topic
  {
    s, m := FirstClosed();
    ReachableStep(s, Finish(Report(true)));
    s := Step(s, Finish(Report(true)));
    ReachableStep(s, Life(Activate));
    s := Step(s, Life(Activate));
  }

  /** A message taken but not yet written when its bag closes; the next episode discovers another topic. */
  lemma WrongName() returns (s: Recorder, x: Handled)
    ensures Reachable(s) && s.past.handled == [x]
    ensures x.msg.data.source == TOPIC.topic && x.fate == Written(1, OTHER.topic)
  {
    var m: QueuedMessage;
    s, m := ActiveAgain();
    s := FlushedWith(s, OTHER);
    ReachableStep(s, Writer(Lock));
    s := Step(s, Writer(Lock));
    ReachableStep(s, Writer(Lookup));
    s := Step(s, Writer(Lookup));
    ReachableStep(s, Writer(Write(true)));
    s := Step(s, Writer(Write(true)));
    x := s.past.handled[0];
  }
}
