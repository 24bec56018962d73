/** Which goal a bag and a result belong to, in every reachable state. */
module StampInvariant {
  import opened RecorderTypes
  import opened GoalId
  import opened RecorderState
  import opened WriterSteps
  import opened ExecutorSteps
  import opened ControlInvariant

  /** What belongs in the metadata of an episode started by `starter`. */
  function StampFor(starter: Option<Uuid>, detached: bool): string {
    if starter.Some? && !detached then FormatGoalId(starter.value) else ""
  }

  /** The current goal id is that of this episode's goal; only an inline goal start sets it at the end. */
  predicate IdOk(e: Exec) {
    && (e.recording || e.pending || InFinish(e.pc) ==> e.goalId == StampFor(e.starter, e.detached))
    && (InOpening(e.pc) ==>
      if OriginOf(e.pc).ByGoal? then e.starter == Some(OriginOf(e.pc).goal) && !e.detached
      else e.goalId == StampFor(e.starter, e.detached))
    && (e.goal.Some? && (e.recording || e.pending || InOpening(e.pc) || InFinish(e.pc)) ==>
      e.starter == e.goal && !e.detached)
  }

  predicate StampedOk(b: Bag) {
    b.metadata.Some? ==> b.metadata.value == StampFor(b.starter, b.detached)
  }

  predicate BagStartersOk(e: Exec, k: Sink, p: Past) {
    && (k.writer.Some? ==> k.writer.value.starter == e.starter && k.writer.value.metadata.None?)
    && (e.pc.Destroying? || e.pc.Reporting? ==> |p.closed| > 0 && p.closed[|p.closed| - 1].starter == e.starter)
    && (forall i :: 0 <= i < |p.closed| ==> StampedOk(p.closed[i]))
  }

  /** A result that names a bag goes to the goal that started that bag. */
  predicate Owned(result: Result, goal: Option<Uuid>, p: Past) {
    result.bag.Some? ==> result.bag.value < |p.closed| && p.closed[result.bag.value].starter == goal
  }

  predicate OwnersOk(e: Exec, g: Goals, p: Past) {
    && (e.pc.Settling? || e.pc.SettleCall? ==> Owned(e.pc.result, e.goal, p))
    && (forall i :: 0 <= i < |g.settled| ==> Owned(g.settled[i].result, Some(g.settled[i].goal), p))
  }

  predicate Stamped(s: Recorder) {
    IdOk(s.exec) && BagStartersOk(s.exec, s.sink, s.past) && OwnersOk(s.exec, s.goals, s.past)
  }

  lemma InitialStamps(defaultLimit: int)
    ensures Stamped(Initial(defaultLimit))
  {
  }

  lemma WriterKeepsStamps(s: Recorder, a: WriterAction)
    requires Stamped(s) && WriterEnabled(s, a)
    ensures Stamped(WriterStep(s, a))
  {
  }

  predicate SameStarters(p: Past, p': Past) {
    && |p.closed| <= |p'.closed|
    && forall i :: 0 <= i < |p.closed| ==> p'.closed[i].starter == p.closed[i].starter
  }

  lemma OwnersKept(e: Exec, g: Goals, p: Past, p': Past)
    requires OwnersOk(e, g, p) && SameStarters(p, p')
    ensures OwnersOk(e, g, p')
  {
  }

  /** Steps that open, close and settle nothing. */
  predicate StampFrame(s: Recorder, s': Recorder) {
    && s'.sink.writer == s.sink.writer && s'.past.closed == s.past.closed && s'.goals.settled == s.goals.settled
    && s'.exec.starter == s.exec.starter
    && IdOk(s'.exec)
    && (s'.exec.pc.Destroying? || s'.exec.pc.Reporting? ==> s.exec.pc.Destroying? || s.exec.pc.Reporting?)
    && (InSettle(s'.exec.pc) ==>
      || (InSettle(s.exec.pc) && s'.exec.pc.result == s.exec.pc.result && s'.exec.goal == s.exec.goal)
      || s'.exec.pc.result.bag.None?)
  }

  lemma FrameKeepsStamps(s: Recorder, s': Recorder)
    requires Stamped(s) && StampFrame(s, s')
    ensures Stamped(s')
  {
  }

  lemma BeginStopFrame(s: Recorder, callback: Callback)
    requires EpisodeOk(s.exec) && IdOk(s.exec) && s.exec.pc.Idle?
    ensures StampFrame(s, BeginStopStep(s, callback))
  {
  }

  lemma StopFrame(s: Recorder)
    requires EpisodeOk(s.exec) && IdOk(s.exec) && LifeEnabled(s, StopRecording)
    ensures StampFrame(s, StopRecordingStep(s))
  {
  }

  lemma LifeFrame(s: Recorder, a: LifeAction)
    requires EpisodeOk(s.exec) && IdOk(s.exec) && LifeEnabled(s, a) && !a.BeginStop? && !a.StopRecording?
    requires s.exec.pc.ErrorClosing? ==> s.sink.writer.None?
    ensures StampFrame(s, LifeStep(s, a))
  {
  }

  lemma LifeKeepsStamps(s: Recorder, a: LifeAction)
    requires Control(s) && Stamped(s) && LifeEnabled(s, a)
    ensures Stamped(LifeStep(s, a))
  {
    match a {
      case BeginStop(callback) => BeginStopFrame(s, callback);
      case StopRecording => StopFrame(s);
      case _ => LifeFrame(s, a);
    }
    FrameKeepsStamps(s, LifeStep(s, a));
  }

  lemma TickStopFrame(s: Recorder)
    requires EpisodeOk(s.exec) && IdOk(s.exec) && s.exec.pc.Ticking?
    ensures StampFrame(s, TickStopStep(s))
  {
    if s.sink.stopRequested {
    } else if IsCanceling(s) {
    } else if s.exec.limit - s.exec.pc.elapsed <= 0 {
    } else {
    }
  }

  lemma RunFrame(s: Recorder, a: RunAction)
    requires EpisodeOk(s.exec) && IdOk(s.exec) && RunEnabled(s, a)
    ensures StampFrame(s, RunStep(s, a))
  {
    if a.TickStop? {
      TickStopFrame(s);
    }
  }

  lemma RunKeepsStamps(s: Recorder, a: RunAction)
    requires EpisodeOk(s.exec) && Stamped(s) && RunEnabled(s, a)
    ensures Stamped(RunStep(s, a))
  {
    RunFrame(s, a);
    FrameKeepsStamps(s, RunStep(s, a));
  }

  lemma StartEpisodeStamps(s: Recorder, origin: Origin, limit: int, found: seq<RecordTopic>)
    requires BagStartersOk(s.exec, s.sink, s.past) && OwnersOk(s.exec, s.goals, s.past)
    requires s.sink.writer.None? && s.exec.pc.Idle? && !s.exec.recording && !s.exec.pending
    requires s.exec.goal == if origin.ByGoal? then Some(origin.goal) else None
    requires origin.ByService? ==> s.exec.goalId == ""
    requires !origin.ByTimer?
    ensures Stamped(StartEpisode(s, origin, limit, found))
  {
  }

  lemma ServiceStamps(s: Recorder, found: seq<RecordTopic>)
    requires Control(s) && Stamped(s) && s.exec.pc.Idle?
    ensures Stamped(StartServiceStep(s, found))
  {
    var e := s.exec;
    var letGo := s.(
      exec := e.(goal := None, goalId := "", detached := e.detached || e.recording || e.pending),
      goals := if e.goal.Some? then s.goals.(released := s.goals.released + {e.goal.value}) else s.goals);
    if !e.accepting || e.recording || e.pending {
      FrameKeepsStamps(s, letGo);
    } else {
      StartEpisodeStamps(letGo, ByService, 0, found);
    }
  }

  lemma FlushStamps(s: Recorder, start: int, flushed: nat)
    requires Control(s) && Stamped(s) && StartEnabled(s, FlushHead(start, flushed))
    ensures Stamped(FlushHeadStep(s, start, flushed))
  {
  }

  lemma AbortStamps(s: Recorder)
    requires Control(s) && Stamped(s) && StartEnabled(s, AbortOpen)
    ensures Stamped(AbortOpenStep(s))
  {
    var s' := AbortOpenStep(s);
    OwnersKept(s.exec, s.goals, s.past, s'.past);
  }

  lemma StartFrame(s: Recorder, a: StartAction)
    requires EpisodeOk(s.exec) && IdOk(s.exec) && StartEnabled(s, a)
    requires a.CompleteStart? || a.OpenStorage? || a.SpawnThread? || a.GoLive?
    ensures StampFrame(s, StartStep(s, a))
  {
  }

  lemma StartKeepsStamps(s: Recorder, a: StartAction)
    requires Control(s) && Stamped(s) && StartEnabled(s, a)
    ensures Stamped(StartStep(s, a))
  {
    match a
    case AcceptGoal(goal, limit, found) =>
      StartEpisodeStamps(
        s.(exec := s.exec.(goal := Some(goal)), goals := s.goals.(state := s.goals.state[goal := Executing])),
        ByGoal(goal), limit, found);
    case StartService(found) => ServiceStamps(s, found);
    case FlushHead(start, flushed) => FlushStamps(s, start, flushed);
    case AbortOpen => AbortStamps(s);
    case _ =>
      StartFrame(s, a);
      FrameKeepsStamps(s, StartStep(s, a));
  }

  lemma CloseStamps(s: Recorder)
    requires Control(s) && Stamped(s) && FinishEnabled(s, CloseBag)
    ensures Stamped(FinishStep(s, CloseBag))
  {
    OwnersKept(s.exec, s.goals, s.past, FinishStep(s, CloseBag).past);
  }

  /** Steps that stamp the last bag with the current id and may put a result of its goal up for settling. */
  predicate ReportedFrame(s: Recorder, s': Recorder) {
    && s'.sink == s.sink && s'.goals == s.goals && s.exec.pc.Reporting? && s.sink.writer.None?
    && SameStarters(s.past, s'.past) && |s'.past.closed| == |s.past.closed|
    && (forall i :: 0 <= i < |s.past.closed| ==> s'.past.closed[i] == s.past.closed[i] || StampedOk(s'.past.closed[i]))
    && IdOk(s'.exec) && !s'.exec.pc.Destroying? && !s'.exec.pc.Reporting?
    && (InSettle(s'.exec.pc) ==> Owned(s'.exec.pc.result, s'.exec.goal, s'.past))
  }

  lemma ReportedStamps(s: Recorder, s': Recorder)
    requires Stamped(s) && ReportedFrame(s, s')
    ensures Stamped(s')
  {
    OwnersKept(s.exec, s.goals, s.past, s'.past);
  }

  lemma ReturnFrame(e: Exec, callback: Callback)
    requires !e.recording && !e.pending && e.goal.None?
    ensures var e' := Return(e, callback);
      IdOk(e') && !InSettle(e'.pc) && !e'.pc.Destroying? && !e'.pc.Reporting?
  {
  }

  lemma ReportFrame(s: Recorder, metadataOk: bool)
    requires EpisodeOk(s.exec) && IdOk(s.exec) && FinishEnabled(s, Report(metadataOk)) && s.sink.writer.None?
    requires s.past.closed[|s.past.closed| - 1].starter == s.exec.starter
    ensures ReportedFrame(s, ReportStep(s, metadataOk))
  {
    if s.exec.goal.None? {
      ReturnFrame(s.exec.(goalId := ""), s.exec.pc.ending.callback);
    }
    ReportStampsLast(s, metadataOk);
  }

  lemma ReportStampsLast(s: Recorder, metadataOk: bool)
    requires IdOk(s.exec) && FinishEnabled(s, Report(metadataOk))
    requires s.past.closed[|s.past.closed| - 1].starter == s.exec.starter
    ensures var p, p' := s.past, ReportStep(s, metadataOk).past;
      && SameStarters(p, p') && |p'.closed| == |p.closed|
      && forall i :: 0 <= i < |p.closed| ==> p'.closed[i] == p.closed[i] || StampedOk(p'.closed[i])
  {
  }

  lemma ReportStamps(s: Recorder, metadataOk: bool)
    requires Control(s) && Stamped(s) && FinishEnabled(s, Report(metadataOk))
    ensures Stamped(ReportStep(s, metadataOk))
  {
    ReportFrame(s, metadataOk);
    ReportedStamps(s, ReportStep(s, metadataOk));
  }

  lemma SettleStamps(s: Recorder)
    requires Control(s) && Stamped(s) && FinishEnabled(s, CallSettle)
    ensures Stamped(CallSettleStep(s))
  {
  }

  lemma DrainFrame(s: Recorder, a: FinishAction)
    requires EpisodeOk(s.exec) && IdOk(s.exec) && FinishEnabled(s, a)
    requires a.BeginDrain? || a.WakeDrain? || a.DrainTimeout?
    ensures StampFrame(s, FinishStep(s, a))
  {
    match a
    case BeginDrain =>
    case WakeDrain =>
    case DrainTimeout =>
    case _ =>
  }

  lemma FinishFrame(s: Recorder, a: FinishAction)
    requires EpisodeOk(s.exec) && IdOk(s.exec) && FinishEnabled(s, a) && (a.DestroyTopics? || a.TestCanceling?)
    ensures StampFrame(s, FinishStep(s, a))
  {
  }

  lemma FinishKeepsStamps(s: Recorder, a: FinishAction)
    requires Control(s) && Stamped(s) && FinishEnabled(s, a)
    ensures Stamped(FinishStep(s, a))
  {
    match a
    case CloseBag => CloseStamps(s);
    case Report(metadataOk) => ReportStamps(s, metadataOk);
    case CallSettle => SettleStamps(s);
    case _ =>
      if a.DestroyTopics? || a.TestCanceling? {
        FinishFrame(s, a);
      } else {
        DrainFrame(s, a);
      }
      FrameKeepsStamps(s, FinishStep(s, a));
  }
}
