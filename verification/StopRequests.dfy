/** What becomes of a request to stop an episode, and of a goal that is being cancelled, over whole runs. */
module StopRequests {
  import opened RecorderTypes
  import opened RecorderState
  import opened WriterSteps
  import opened ExecutorSteps
  import opened ControlInvariant
  import opened GoalInvariant
  import opened Runs

  // ---------- A stop request ----------

  /** An episode is pending, opening or recording. */
  predicate UnderWay(e: Exec) {
    e.recording || e.pending || InOpening(e.pc)
  }

  predicate AllUnderWay(s: Recorder, schedule: seq<Action>)
    requires IsRun(s, schedule)
    decreases |schedule|
  {
    UnderWay(s.exec) && (schedule == [] || AllUnderWay(Step(s, schedule[0]), schedule[1..]))
  }

  function TicksIn(schedule: seq<Action>): nat {
    if schedule == [] then 0
    else (if schedule[0].Run? && schedule[0].run.Tick? then 1 else 0) + TicksIn(schedule[1..])
  }

  lemma WriterKeepsStop(s: Recorder, a: WriterAction)
    requires WriterEnabled(s, a) && s.sink.stopRequested
    ensures WriterStep(s, a).sink.stopRequested && WriterStep(s, a).exec == s.exec
  {
  }

  lemma StartKeepsStop(s: Recorder, a: StartAction)
    requires StartEnabled(s, a) && s.sink.stopRequested && UnderWay(s.exec)
    ensures StartStep(s, a).sink.stopRequested
    ensures !s.exec.pc.Ticking? && !StartStep(s, a).exec.pc.Ticking?
  {
  }

  lemma LifeKeepsStop(s: Recorder, a: LifeAction)
    requires LifeEnabled(s, a) && s.sink.stopRequested
    ensures LifeStep(s, a).sink.stopRequested
    ensures !s.exec.pc.Ticking? && !LifeStep(s, a).exec.pc.Ticking?
  {
  }

  lemma FinishIsOver(s: Recorder, a: FinishAction)
    requires EpisodeOk(s.exec) && FinishEnabled(s, a)
    ensures !UnderWay(s.exec)
  {
  }

  /** What asks an episode to stop: a failed write, a cancel of the action, a service cancel gone direct or refused. */
  predicate AsksToStop(s: Recorder, a: Action) {
    || (a.Writer? && a.writer.RaiseStop?)
    || (a.Run? && (a.run.HandleCancel? || a.run.CancelRefused?))
    || (a.Run? && a.run.CancelService? && a.run.direct && (s.exec.recording || s.exec.pending))
  }

  /** And each of these leaves the request up, and the episode on; a cancel of an executing goal makes it CANCELING. */
  lemma StopIsRaised(s: Recorder, a: Action)
    requires Enabled(s, a) && AsksToStop(s, a)
    ensures var s' := Step(s, a);
      && s'.sink.stopRequested && s'.exec == s.exec
      && (a.Run? && a.run.HandleCancel? && s.goals.state[a.run.goal] == Executing ==>
        s'.goals.state == s.goals.state[a.run.goal := Canceling])
      && (a.Run? && !a.run.HandleCancel? ==> s'.goals == s.goals)
  {
  }

  /** The second load of a tick ends an episode that has been asked to stop. */
  lemma SecondLoadEnds(s: Recorder)
    requires RunEnabled(s, TickStop) && s.sink.stopRequested
    ensures var e := RunStep(s, TickStop).exec;
      e.pc == Finishing(Ending(if IsCanceling(s) then Cancelled else Stopped, TickTimer, Some(s.exec.pc.loaded)))
      && !e.recording
  {
  }

  lemma RunKeepsStop(s: Recorder, a: RunAction)
    requires EpisodeOk(s.exec) && RunEnabled(s, a) && s.sink.stopRequested && UnderWay(RunStep(s, a).exec)
    ensures RunStep(s, a).sink.stopRequested && !a.TickStop? && !s.exec.pc.Ticking?
    ensures a.Tick? <==> RunStep(s, a).exec.pc.Ticking?
  {
    if a.TickStop? {
      SecondLoadEnds(s);
    }
  }

  lemma StepKeepsStop(s: Recorder, a: Action)
    requires EpisodeOk(s.exec) && Enabled(s, a) && s.sink.stopRequested
    requires UnderWay(s.exec) && UnderWay(Step(s, a).exec)
    ensures Step(s, a).sink.stopRequested && a != Run(TickStop)
    ensures if a.Run? && a.run.Tick? then !s.exec.pc.Ticking? && Step(s, a).exec.pc.Ticking?
            else Step(s, a).exec.pc.Ticking? == s.exec.pc.Ticking?
  {
    match a
    case Writer(writer) => WriterKeepsStop(s, writer);
    case Life(life) => LifeKeepsStop(s, life);
    case Start(start) => StartKeepsStop(s, start);
    case Run(run) => RunKeepsStop(s, run);
    case Finish(finish) => FinishIsOver(s, finish);
    case CancelLands(_) =>
  }

  /**
    A stop request made while an episode is pending, opening or recording survives as long as the episode
    does, going live included; and no tick gets through after it: at most one begins, and its second load
    ends the episode.
   */
  lemma {:induction false} StopRequestHolds(s: Recorder, schedule: seq<Action>)
    requires Reachable(s) && s.sink.stopRequested && IsRun(s, schedule) && AllUnderWay(s, schedule)
    ensures Outcome(s, schedule).sink.stopRequested
    ensures Run(TickStop) !in schedule
    ensures TicksIn(schedule) <= if s.exec.pc.Ticking? then 0 else 1
    decreases |schedule|
  {
    if schedule != [] {
      ReachableControl(s);
      ReachableStep(s, schedule[0]);
      StepKeepsStop(s, schedule[0]);
      StopRequestHolds(Step(s, schedule[0]), schedule[1..]);
    }
  }

  // ---------- A goal being cancelled ----------

  predicate OnlyCanceled(settled: seq<Settlement>, goal: Uuid) {
    forall i :: 0 <= i < |settled| && settled[i].goal == goal ==> settled[i].verdict == Canceled
  }

  /** The goal is CANCELING, and was when settle_goal tested it, or it has been settled as CANCELED. */
  predicate CancelHeld(e: Exec, g: Goals, goal: Uuid) {
    && goal in g.state
    && OnlyCanceled(g.settled, goal)
    && (e.goal == Some(goal) ==> g.state[goal] == Canceling && (e.pc.SettleCall? ==> e.pc.sawCanceling))
  }

  lemma WriterKeepsCancel(s: Recorder, a: WriterAction, goal: Uuid)
    requires CancelHeld(s.exec, s.goals, goal) && WriterEnabled(s, a)
    ensures CancelHeld(WriterStep(s, a).exec, WriterStep(s, a).goals, goal)
  {
  }

  lemma ReturnFrame(e: Exec, callback: Callback)
    ensures Return(e, callback).goal == e.goal && !Return(e, callback).pc.SettleCall?
  {
  }

  lemma LifeFrame(s: Recorder, a: LifeAction)
    requires LifeEnabled(s, a)
    ensures var s' := LifeStep(s, a);
      s'.goals == s.goals && s'.exec.goal == s.exec.goal && !s'.exec.pc.SettleCall?
  {
    if a.StopRecording? {
      ReturnFrame(s.exec, s.exec.pc.callback);
    }
  }

  lemma LifeKeepsCancel(s: Recorder, a: LifeAction, goal: Uuid)
    requires CancelHeld(s.exec, s.goals, goal) && LifeEnabled(s, a)
    ensures CancelHeld(LifeStep(s, a).exec, LifeStep(s, a).goals, goal)
  {
    LifeFrame(s, a);
  }

  lemma StartFrame(s: Recorder, a: StartAction)
    requires StartEnabled(s, a)
    ensures var s' := StartStep(s, a);
      && s'.goals.settled == s.goals.settled && !s'.exec.pc.SettleCall?
      && (a.AcceptGoal? ==> s'.goals.state == s.goals.state[a.goal := Executing] && s'.exec.goal == Some(a.goal))
      && (!a.AcceptGoal? ==>
        s'.goals.state == s.goals.state && (s'.exec.goal == s.exec.goal || s'.exec.goal.None?))
  {
  }

  lemma StartKeepsCancel(s: Recorder, a: StartAction, goal: Uuid)
    requires CancelHeld(s.exec, s.goals, goal) && StartEnabled(s, a)
    ensures CancelHeld(StartStep(s, a).exec, StartStep(s, a).goals, goal)
  {
    StartFrame(s, a);
  }

  lemma RunKeepsCancel(s: Recorder, a: RunAction, goal: Uuid)
    requires CancelHeld(s.exec, s.goals, goal) && RunEnabled(s, a)
    ensures CancelHeld(RunStep(s, a).exec, RunStep(s, a).goals, goal)
  {
    if !a.HandleCancel? {
      RunFrame(s, a);
    }
  }

  lemma TickFrame(s: Recorder, a: RunAction)
    requires RunEnabled(s, a) && (a.Tick? || a.TickStop?)
    ensures var s' := RunStep(s, a);
      s'.goals == s.goals && s'.exec.goal == s.exec.goal && !s'.exec.pc.SettleCall?
  {
    if a.Tick? {
    } else if s.sink.stopRequested {
    } else if IsCanceling(s) {
    } else if s.exec.limit - s.exec.pc.elapsed <= 0 {
    } else {
    }
  }

  lemma RunFrame(s: Recorder, a: RunAction)
    requires RunEnabled(s, a) && !a.HandleCancel?
    ensures var s' := RunStep(s, a);
      s'.goals == s.goals && s'.exec.goal == s.exec.goal && !s'.exec.pc.SettleCall?
  {
    if a.Tick? || a.TickStop? {
      TickFrame(s, a);
    }
  }

  lemma SettleFrame(s: Recorder)
    requires FinishEnabled(s, CallSettle)
    ensures var s', pc, live := CallSettleStep(s), s.exec.pc, s.exec.goal.value;
      && s'.exec.goal.None? && s.goals.state.Keys <= s'.goals.state.Keys
      && s'.goals.settled == s.goals.settled
           + [Settlement(live, pc.result, pc.sawCanceling, Verdict(pc.result.reason, pc.sawCanceling))]
  {
    if s.exec.pc.after.AfterFinish? {
      ReturnFrame(s.exec.(goal := None, goalId := ""), s.exec.pc.after.callback);
    }
  }

  lemma SettleKeepsCancel(s: Recorder, goal: Uuid)
    requires CancelHeld(s.exec, s.goals, goal) && FinishEnabled(s, CallSettle)
    ensures CancelHeld(CallSettleStep(s).exec, CallSettleStep(s).goals, goal)
  {
    SettleFrame(s);
  }

  lemma ReportFrame(s: Recorder, metadataOk: bool)
    requires FinishEnabled(s, Report(metadataOk))
    ensures var s' := ReportStep(s, metadataOk);
      s'.goals == s.goals && s'.exec.goal == s.exec.goal && !s'.exec.pc.SettleCall?
  {
    ReturnFrame(s.exec.(goalId := ""), s.exec.pc.ending.callback);
  }

  lemma DrainFrame(s: Recorder, a: FinishAction)
    requires FinishEnabled(s, a) && (a.BeginDrain? || a.WakeDrain? || a.DrainTimeout?)
    ensures var s' := FinishStep(s, a);
      s'.goals == s.goals && s'.exec.goal == s.exec.goal && (s'.exec.pc.Draining? || s'.exec.pc.Closing?)
  {
    if a.BeginDrain? {
    } else if a.WakeDrain? {
    } else {
    }
  }

  lemma FinishKeepsCancel(s: Recorder, a: FinishAction, goal: Uuid)
    requires CancelHeld(s.exec, s.goals, goal) && FinishEnabled(s, a)
    ensures CancelHeld(FinishStep(s, a).exec, FinishStep(s, a).goals, goal)
  {
    if a.CallSettle? {
      SettleKeepsCancel(s, goal);
    } else if a.Report? {
      ReportFrame(s, a.metadataOk);
    } else if a.BeginDrain? || a.WakeDrain? || a.DrainTimeout? {
      DrainFrame(s, a);
    }
  }

  lemma StepKeepsCancel(s: Recorder, a: Action, goal: Uuid)
    requires CancelHeld(s.exec, s.goals, goal) && Enabled(s, a)
    ensures CancelHeld(Step(s, a).exec, Step(s, a).goals, goal)
  {
    match a
    case Writer(writer) => WriterKeepsCancel(s, writer, goal);
    case Life(life) => LifeKeepsCancel(s, life, goal);
    case Start(start) => StartKeepsCancel(s, start, goal);
    case Run(run) => RunKeepsCancel(s, run, goal);
    case Finish(finish) => FinishKeepsCancel(s, finish, goal);
    case CancelLands(_) =>
  }

  lemma {:induction false} RunKeepsCanceling(s: Recorder, schedule: seq<Action>, goal: Uuid)
    requires CancelHeld(s.exec, s.goals, goal) && IsRun(s, schedule)
    ensures CancelHeld(Outcome(s, schedule).exec, Outcome(s, schedule).goals, goal)
    decreases |schedule|
  {
    if schedule != [] {
      StepKeepsCancel(s, schedule[0], goal);
      RunKeepsCanceling(Step(s, schedule[0]), schedule[1..], goal);
    }
  }

  /** A live goal that is CANCELING before settle_goal tests it ends CANCELED in every run that settles it. */
  lemma CancelingEndsCanceled(s: Recorder, goal: Uuid, schedule: seq<Action>, i: nat)
    requires Reachable(s) && s.exec.goal == Some(goal) && goal in s.goals.state && s.goals.state[goal] == Canceling
    requires s.exec.pc.SettleCall? ==> s.exec.pc.sawCanceling
    requires IsRun(s, schedule)
    requires i < |Outcome(s, schedule).goals.settled| && Outcome(s, schedule).goals.settled[i].goal == goal
    ensures var g := Outcome(s, schedule).goals;
      g.settled[i].verdict == Canceled && goal in g.state && g.state[goal] == Canceled
  {
    ReachableGoals(s);
    RunKeepsCanceling(s, schedule, goal);
    RunReaches(s, schedule);
    ReachableGoals(Outcome(s, schedule));
    assert SettlementOk(Outcome(s, schedule).goals, Outcome(s, schedule).goals.settled[i]);
  }
}
