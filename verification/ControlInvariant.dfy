/** Where the two threads can be, and what their flags say, in every reachable state. */
module ControlInvariant {
  import opened RecorderTypes
  import opened MessageFlow
  import opened RecorderState
  import opened WriterSteps
  import opened ExecutorSteps

  // ---------- The queue ----------

  /** The byte count is exact and both bounds hold. */
  predicate QueueOk(q: Queue) {
    && q.bytes == Bytes(q.items) <= QUEUE_MAX_BYTES
    && |q.items| <= QUEUE_MAX_MESSAGES
  }

  // ---------- The writer thread ----------

  predicate ThreadOk(w: WriterThread) {
    && |w.batch| <= BATCH_MAX
    && (w.pc.Off? || w.pc.Top? || w.pc.Checking? ==> w.batch == [])
    && (w.pc.Holding? || w.pc.Looked? ==> w.batch != [])
    && (w.pc.Off? || w.pc.Top? ==> !w.flushing)
    && (w.pc.Checking? ==> w.flushing)
  }

  // ---------- The episode state machine ----------

  predicate InOpening(pc: ExecPc) {
    pc.Opening? || pc.Opened? || pc.Flushed? || pc.Spawned? || pc.OpenFailed?
  }

  function OriginOf(pc: ExecPc): Origin
    requires InOpening(pc)
  {
    pc.origin
  }

  predicate InFinish(pc: ExecPc) {
    pc.Finishing? || pc.Draining? || pc.Closing? || pc.Destroying? || pc.Reporting?
  }

  predicate InSettle(pc: ExecPc) {
    pc.Settling? || pc.SettleCall?
  }

  predicate InShutdown(pc: ExecPc) {
    pc.Halting? || pc.Joining? || pc.Clearing? || pc.ErrorClosing?
  }

  /** Some episode, running, deferred or half way through a transition, may own the live goal. */
  predicate Engaged(e: Exec) {
    e.recording || e.pending || InOpening(e.pc) || InFinish(e.pc) || InSettle(e.pc)
  }

  predicate EpisodeOk(e: Exec) {
    && !(e.recording && e.pending)
    && e.tickTimer == e.recording
    && e.settleTimer == e.pending
    && (e.recording ==> e.pc.Idle? || e.pc.Ticking? || e.pc.Stopping?)
    && (e.pending ==> e.pc.Idle?)
    && (e.pc.Ticking? ==> e.recording)
    && (InOpening(e.pc) || ((e.recording || e.pending) && !e.pc.Stopping?) ==> e.accepting)
    && (e.accepting ==> e.phase.Active?)
    && (e.pc.Stopping? || InShutdown(e.pc) ==> !e.accepting)
    && (InFinish(e.pc) && !e.pc.ending.callback.TickTimer? ==> !e.accepting)
    && (InSettle(e.pc) && e.pc.after.AfterCancelledStart? ==> !e.accepting)
    && (InSettle(e.pc) && e.pc.after.AfterFinish? && !e.pc.after.callback.TickTimer? ==> !e.accepting)
    && (e.goal.Some? ==> Engaged(e))
    && (InSettle(e.pc) ==> e.goal.Some?)
    && (InOpening(e.pc) && OriginOf(e.pc).ByService? ==> e.goal.None?)
    && (InOpening(e.pc) && OriginOf(e.pc).ByGoal? ==> e.goal == Some(OriginOf(e.pc).goal))
  }

  // ---------- Both threads together ----------

  /** The executor is at a point where a bag must be open. */
  predicate BagNeeded(e: Exec) {
    e.recording || e.pc.Flushed? || e.pc.Spawned? || e.pc.Finishing? || e.pc.Draining? || e.pc.Closing?
  }

  predicate ControlOk(q: Queue, w: WriterThread, k: Sink, e: Exec) {
    && (HoldsWriterMutex(w.pc) ==> k.writer.Some?)
    && (BagNeeded(e) ==> k.writer.Some?)
    && (k.writer.Some? ==> BagNeeded(e) || e.pc.OpenFailed?)
    && (q.running ==> !w.pc.Off?)
    && (!w.pc.Off? ==> q.running || e.pc.Joining?)
    && (e.recording || e.pc.Spawned? || e.pc.Finishing? || e.pc.Draining? ==> q.running)
    && (e.pc.Joining? || e.pc.Clearing? ==> !q.running)
    && (q.items != [] ==> e.recording || e.pc.Finishing? || e.pc.Draining?)
  }

  /**
    The flush handshake. While finish_recording waits, a set flush_done_ means that nothing is queued
    and nothing is in the writer's hands, whatever flag the writer carried over from an earlier flush.
   */
  predicate HandshakeOk(q: Queue, w: WriterThread, e: Exec) {
    e.pc.Draining? ==>
      && (q.flushDone ==> q.items == [] && w.pc.Top? && w.batch == [] && !q.flushRequested)
      && (!q.flushDone ==> q.flushRequested)
      && (!q.flushDone && q.items == [] ==> w.flushing && !w.pc.Top? && !w.pc.Off?)
  }

  predicate Control(s: Recorder) {
    && QueueOk(s.queue)
    && ThreadOk(s.thread)
    && EpisodeOk(s.exec)
    && ControlOk(s.queue, s.thread, s.sink, s.exec)
    && HandshakeOk(s.queue, s.thread, s.exec)
  }

  lemma InitialControl(defaultLimit: int)
    ensures Control(Initial(defaultLimit))
  {
  }

  lemma WriterKeepsQueue(s: Recorder, a: WriterAction)
    requires QueueOk(s.queue) && WriterEnabled(s, a)
    ensures QueueOk(WriterStep(s, a).queue)
  {
    if a.Take? {
      BytesSplit(s.queue.items, BatchSize(s.queue));
    }
  }

  lemma WriterKeepsControl(s: Recorder, a: WriterAction)
    requires Control(s) && WriterEnabled(s, a)
    ensures Control(WriterStep(s, a))
  {
    WriterKeepsQueue(s, a);
  }

  lemma BeginStopKeepsControl(s: Recorder, callback: Callback)
    requires Control(s) && LifeEnabled(s, BeginStop(callback))
    ensures Control(BeginStopStep(s, callback))
  {
  }

  lemma StopKeepsControl(s: Recorder)
    requires Control(s) && LifeEnabled(s, StopRecording)
    ensures Control(StopRecordingStep(s))
  {
  }

  lemma HaltKeepsControl(s: Recorder, a: LifeAction)
    requires Control(s) && LifeEnabled(s, a) && (a.HaltThread? || a.Join? || a.Clear?)
    ensures Control(LifeStep(s, a))
  {
  }

  lemma LifeKeepsControl(s: Recorder, a: LifeAction)
    requires Control(s) && LifeEnabled(s, a)
    ensures Control(LifeStep(s, a))
  {
    match a
    case BeginStop(callback) => BeginStopKeepsControl(s, callback);
    case StopRecording => StopKeepsControl(s);
    case HaltThread => HaltKeepsControl(s, a);
    case Join => HaltKeepsControl(s, a);
    case Clear => HaltKeepsControl(s, a);
    case Configure(_) =>
    case Activate =>
    case CloseOnError =>
  }

  lemma StartEpisodeKeepsControl(s: Recorder, origin: Origin, limit: int, found: seq<RecordTopic>)
    requires Control(s.(exec := s.exec.(goal := None)))
    requires s.exec.pc.Idle? && s.exec.accepting && !s.exec.recording && !s.exec.pending
    requires s.exec.goal == if origin.ByGoal? then Some(origin.goal) else None
    requires !origin.ByTimer?
    ensures Control(StartEpisode(s, origin, limit, found))
  {
  }

  lemma StartServiceKeepsControl(s: Recorder, found: seq<RecordTopic>)
    requires Control(s) && s.exec.pc.Idle?
    ensures Control(StartServiceStep(s, found))
  {
  }

  lemma FlushKeepsControl(s: Recorder, start: int, flushed: nat)
    requires Control(s) && StartEnabled(s, FlushHead(start, flushed))
    ensures Control(FlushHeadStep(s, start, flushed))
  {
  }

  lemma AbortKeepsControl(s: Recorder)
    requires Control(s) && StartEnabled(s, AbortOpen)
    ensures Control(AbortOpenStep(s))
  {
  }

  lemma GoLiveKeepsControl(s: Recorder, a: StartAction)
    requires Control(s) && StartEnabled(s, a) && (a.SpawnThread? || a.GoLive?)
    ensures Control(StartStep(s, a))
  {
  }

  lemma StartKeepsControl(s: Recorder, a: StartAction)
    requires Control(s) && StartEnabled(s, a)
    ensures Control(StartStep(s, a))
  {
    match a
    case AcceptGoal(goal, limit, found) =>
      StartEpisodeKeepsControl(
        s.(exec := s.exec.(goal := Some(goal)), goals := s.goals.(state := s.goals.state[goal := Executing])),
        ByGoal(goal), limit, found);
    case StartService(found) => StartServiceKeepsControl(s, found);
    case FlushHead(start, flushed) => FlushKeepsControl(s, start, flushed);
    case AbortOpen => AbortKeepsControl(s);
    case CompleteStart =>
    case OpenStorage(_, _) =>
    case SpawnThread => GoLiveKeepsControl(s, a);
    case GoLive(_) => GoLiveKeepsControl(s, a);
  }

  lemma DeliverKeepsControl(s: Recorder, index: nat, data: Payload, now: int)
    requires Control(s) && s.exec.pc.Idle?
    ensures Control(DeliverStep(s, index, data, now))
  {
    if s.exec.recording {
      var m := QueuedMessage(data, now, index, |s.past.closed|);
      assert (s.queue.items + [m])[..|s.queue.items + [m]| - 1] == s.queue.items;
    }
  }

  lemma TickStopKeepsControl(s: Recorder)
    requires Control(s) && s.exec.pc.Ticking?
    ensures Control(TickStopStep(s))
  {
    if s.sink.stopRequested {
    } else if IsCanceling(s) {
    } else if s.exec.limit - s.exec.pc.elapsed <= 0 {
    } else {
    }
  }

  lemma RunKeepsControl(s: Recorder, a: RunAction)
    requires Control(s) && RunEnabled(s, a)
    ensures Control(RunStep(s, a))
  {
    match a
    case Deliver(position, length, now) =>
      var sub := s.table.topics[position].sub;
      DeliverKeepsControl(s, sub.index, Payload(s.past.delivered, length, sub.name), now);
    case TickStop => TickStopKeepsControl(s);
    case Tick(_) =>
    case CancelService(_) =>
    case HandleCancel(_) =>
    case CancelRefused =>
  }

  lemma ReportKeepsControl(s: Recorder, metadataOk: bool)
    requires Control(s) && FinishEnabled(s, Report(metadataOk))
    ensures Control(ReportStep(s, metadataOk))
  {
  }

  lemma SettleKeepsControl(s: Recorder)
    requires Control(s) && FinishEnabled(s, CallSettle)
    ensures Control(CallSettleStep(s))
  {
  }

  lemma DrainKeepsControl(s: Recorder, a: FinishAction)
    requires Control(s) && FinishEnabled(s, a) && (a.BeginDrain? || a.WakeDrain? || a.DrainTimeout?)
    ensures Control(FinishStep(s, a))
  {
  }

  lemma FinishKeepsControl(s: Recorder, a: FinishAction)
    requires Control(s) && FinishEnabled(s, a)
    ensures Control(FinishStep(s, a))
  {
    match a
    case Report(metadataOk) => ReportKeepsControl(s, metadataOk);
    case CallSettle => SettleKeepsControl(s);
    case BeginDrain => DrainKeepsControl(s, a);
    case WakeDrain => DrainKeepsControl(s, a);
    case DrainTimeout => DrainKeepsControl(s, a);
    case CloseBag =>
    case DestroyTopics =>
    case TestCanceling =>
  }
}
