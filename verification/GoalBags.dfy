/**
  Which goals are told about a bag: exactly those whose episode was recorded. A goal whose start failed,
  or was dropped before it went live, is settled with an empty bag path.
 */
module GoalBags {
  import opened RecorderTypes
  import opened RecorderState
  import opened WriterSteps
  import opened ExecutorSteps
  import opened ControlInvariant
  import opened BagInvariant
  import opened DrainInvariant
  import opened GoalInvariant
  import opened StampInvariant
  import opened Runs

  /** A closed bag that was recorded into: its episode reached the drain wait. */
  predicate Recorded(p: Past, n: nat) {
    n < |p.closed| && n in p.exits
  }

  /** What is settled, or about to be, for the goal that started recorded bag `n` names that bag. */
  predicate OwnerOk(n: nat, goal: Uuid, e: Exec, g: Goals, p: Past) {
    && goal in g.state
    && (e.goal == Some(goal) ==>
      || ((e.pc.Destroying? || e.pc.Reporting?) && n == |p.closed| - 1)
      || (InSettle(e.pc) && e.pc.result.bag == Some(n)))
    && (forall i :: 0 <= i < |g.settled| && g.settled[i].goal == goal ==> g.settled[i].result.bag == Some(n))
  }

  ghost predicate OwnersNamed(e: Exec, g: Goals, p: Past) {
    forall n: nat :: Recorded(p, n) && p.closed[n].starter.Some? ==> OwnerOk(n, p.closed[n].starter.value, e, g, p)
  }

  /** From the acceptance of a start to the closing of its bag. */
  predicate Ongoing(e: Exec) {
    e.recording || e.pending || InOpening(e.pc) || e.pc.Finishing? || e.pc.Draining? || e.pc.Closing?
  }

  /** A named bag was recorded into, and an episode's goal is not settled while it lasts. */
  predicate NamesRecorded(e: Exec, g: Goals, p: Past) {
    && (e.pc.Destroying? || e.pc.Reporting? ==> |p.closed| > 0 && Recorded(p, |p.closed| - 1))
    && (InSettle(e.pc) && e.pc.result.bag.Some? ==> Recorded(p, e.pc.result.bag.value))
    && (forall i :: 0 <= i < |g.settled| && g.settled[i].result.bag.Some? ==>
      Recorded(p, g.settled[i].result.bag.value))
    && (e.starter.Some? ==> e.starter.value in g.state)
    && (Ongoing(e) && e.starter.Some? && e.goal != e.starter ==> !IsSettled(g, e.starter.value))
  }

  ghost predicate Attributed(s: Recorder) {
    OwnersNamed(s.exec, s.goals, s.past) && NamesRecorded(s.exec, s.goals, s.past)
  }

  // ---------- Steps that close no bag, settle no goal and start no episode ----------

  /** From closing through reporting to settling, the bag in question stays the same. */
  predicate SamePlace(e: Exec, e': Exec, n: nat) {
    if e.pc.Destroying? || e.pc.Reporting? then
      || e'.pc.Destroying? || e'.pc.Reporting?
      || (InSettle(e'.pc) && n > 0 && e'.pc.result.bag == Some(n - 1))
      || (e'.goal.None? && !InSettle(e'.pc))
    else
      && !e'.pc.Destroying? && !e'.pc.Reporting?
      && (if InSettle(e.pc) then InSettle(e'.pc) && e'.pc.result == e.pc.result
          else InSettle(e'.pc) ==> e'.pc.result.bag.None?)
  }

  predicate SameBags(p: Past, p': Past) {
    && |p'.closed| == |p.closed|
    && forall n :: 0 <= n < |p.closed| ==>
      p'.closed[n].starter == p.closed[n].starter && (n in p'.exits <==> n in p.exits)
  }

  predicate AttributionFrame(e: Exec, e': Exec, g: Goals, g': Goals, n: nat) {
    && g'.settled == g.settled && g.state.Keys <= g'.state.Keys
    && e'.starter == e.starter && (Ongoing(e') ==> Ongoing(e))
    && (e'.goal == e.goal || (e'.goal.None? && (e.goal.Some? ==> !IsSettled(g, e.goal.value))))
    && SamePlace(e, e', n)
  }

  lemma FrameKeepsAttribution(s: Recorder, s': Recorder)
    requires Attributed(s) && SameBags(s.past, s'.past)
    requires AttributionFrame(s.exec, s'.exec, s.goals, s'.goals, |s.past.closed|)
    ensures Attributed(s')
  {
    forall n: nat | Recorded(s'.past, n) && s'.past.closed[n].starter.Some?
      ensures OwnerOk(n, s'.past.closed[n].starter.value, s'.exec, s'.goals, s'.past)
    {
      assert Recorded(s.past, n);
      assert OwnerOk(n, s.past.closed[n].starter.value, s.exec, s.goals, s.past);
    }
  }

  lemma WriterFrame(s: Recorder, a: WriterAction)
    requires WriterEnabled(s, a)
    ensures var s' := WriterStep(s, a);
      SameBags(s.past, s'.past) && s'.exec == s.exec && s'.goals == s.goals
  {
  }

  /** Where the executor goes next says nothing about bags and goals. */
  lemma ReturnFrame(e: Exec, callback: Callback, g: Goals, n: nat)
    requires e.goal.None? || (!e.pc.Destroying? && !e.pc.Reporting?)
    requires !InSettle(e.pc) && !e.recording && !e.pending
    ensures AttributionFrame(e, Return(e, callback), g, g, n)
  {
  }

  lemma BeginStopFrame(s: Recorder, callback: Callback)
    requires LifeEnabled(s, BeginStop(callback))
    ensures AttributionFrame(s.exec, BeginStopStep(s, callback).exec, s.goals, s.goals, |s.past.closed|)
  {
    if s.exec.pending {
      if s.exec.goal.Some? {
      }
    }
  }

  lemma StopFrame(s: Recorder)
    requires EpisodeOk(s.exec) && LifeEnabled(s, StopRecording)
    ensures AttributionFrame(s.exec, StopRecordingStep(s).exec, s.goals, s.goals, |s.past.closed|)
  {
    if !s.exec.recording {
      ReturnFrame(s.exec, s.exec.pc.callback, s.goals, |s.past.closed|);
    }
  }

  lemma LifeKeepsPast(s: Recorder, a: LifeAction)
    requires LifeEnabled(s, a) && (s.exec.pc.ErrorClosing? ==> s.sink.writer.None?)
    ensures var s' := LifeStep(s, a);
      s'.past.closed == s.past.closed && s'.past.exits == s.past.exits && s'.goals == s.goals
  {
  }

  lemma LifeFrame(s: Recorder, a: LifeAction)
    requires EpisodeOk(s.exec) && LifeEnabled(s, a)
    ensures AttributionFrame(s.exec, LifeStep(s, a).exec, s.goals, s.goals, |s.past.closed|)
  {
    match a
    case BeginStop(callback) => BeginStopFrame(s, callback);
    case StopRecording => StopFrame(s);
    case Configure(_) =>
    case Activate =>
    case HaltThread =>
    case Join =>
    case Clear =>
    case CloseOnError =>
  }

  lemma RunFrame(s: Recorder, a: RunAction)
    requires EpisodeOk(s.exec) && RunEnabled(s, a)
    ensures var s' := RunStep(s, a);
      && SameBags(s.past, s'.past)
      && AttributionFrame(s.exec, s'.exec, s.goals, s'.goals, |s.past.closed|)
  {
  }

  lemma StartFrame(s: Recorder, a: StartAction)
    requires EpisodeOk(s.exec) && StartEnabled(s, a) && !a.AcceptGoal? && !a.StartService? && !a.AbortOpen?
    ensures var s' := StartStep(s, a);
      && SameBags(s.past, s'.past)
      && AttributionFrame(s.exec, s'.exec, s.goals, s'.goals, |s.past.closed|)
  {
  }

  lemma FinishFrame(s: Recorder, a: FinishAction)
    requires EpisodeOk(s.exec) && FinishEnabled(s, a) && !a.CloseBag? && !a.CallSettle? && !a.Report?
    ensures var s' := FinishStep(s, a);
      && SameBags(s.past, s'.past)
      && AttributionFrame(s.exec, s'.exec, s.goals, s'.goals, |s.past.closed|)
  {
  }

  lemma ReportFrame(s: Recorder, metadataOk: bool)
    requires EpisodeOk(s.exec) && FinishEnabled(s, Report(metadataOk))
    ensures var s' := ReportStep(s, metadataOk);
      && SameBags(s.past, s'.past)
      && AttributionFrame(s.exec, s'.exec, s.goals, s'.goals, |s.past.closed|)
  {
  }

  // ---------- The others ----------

  /** An episode begun: its goal, if any, is the starter, and no bag is in question. */
  predicate Begun(s: Recorder, s': Recorder) {
    && s'.past == s.past && s'.goals == s.goals && s'.exec.goal == s.exec.goal == s'.exec.starter
    && (s'.exec.pc.Idle? || s'.exec.pc.Opening?)
  }

  lemma BegunAttributed(s: Recorder, s': Recorder)
    requires Attributed(s.(exec := s.exec.(goal := None))) && s.exec.pc.Idle? && Begun(s, s')
    requires s.exec.goal.Some? ==>
      && s.exec.goal.value in s.goals.state
      && forall n: nat :: Recorded(s.past, n) ==> s.past.closed[n].starter != s.exec.goal
    ensures Attributed(s')
  {
    forall n: nat | Recorded(s'.past, n) && s'.past.closed[n].starter.Some?
      ensures OwnerOk(n, s'.past.closed[n].starter.value, s'.exec, s'.goals, s'.past)
    {
      assert Recorded(s.past, n);
      assert OwnerOk(n, s.past.closed[n].starter.value, s.exec.(goal := None), s.goals, s.past);
    }
  }

  lemma StartAttributed(s: Recorder, origin: Origin, limit: int, found: seq<RecordTopic>)
    requires Attributed(s.(exec := s.exec.(goal := None))) && s.exec.pc.Idle?
    requires s.exec.goal == if origin.ByGoal? then Some(origin.goal) else None
    requires origin.ByGoal? ==> origin.goal in s.goals.state
    requires origin.ByGoal? ==>
      forall n: nat :: Recorded(s.past, n) ==> s.past.closed[n].starter != Some(origin.goal)
    ensures Attributed(StartEpisode(s, origin, limit, found))
  {
    BegunAttributed(s, StartEpisode(s, origin, limit, found));
  }

  lemma AcceptAttributed(s: Recorder, goal: Uuid, limit: int, found: seq<RecordTopic>)
    requires EpisodeOk(s.exec) && Attributed(s) && StartEnabled(s, AcceptGoal(goal, limit, found))
    ensures Attributed(AcceptGoalStep(s, goal, limit, found))
  {
    assert s.exec.goal.None?;
    var s1 := s.(exec := s.exec.(goal := Some(goal)), goals := s.goals.(state := s.goals.state[goal := Executing]));
    forall n: nat | Recorded(s.past, n) ensures s.past.closed[n].starter != Some(goal) {
      if s.past.closed[n].starter.Some? {
        assert OwnerOk(n, s.past.closed[n].starter.value, s.exec, s.goals, s.past);
      }
    }
    FrameKeepsAttribution(s, s1.(exec := s1.exec.(goal := None)));
    StartAttributed(s1, ByGoal(goal), limit, found);
  }

  lemma ServiceAttributed(s: Recorder, found: seq<RecordTopic>)
    requires EpisodeOk(s.exec) && FatesOk(s.goals, s.exec.goal) && Attributed(s) && s.exec.pc.Idle?
    ensures Attributed(StartServiceStep(s, found))
  {
    var e := s.exec;
    var letGo := s.(
      exec := e.(goal := None, goalId := "", detached := e.detached || e.recording || e.pending),
      goals := if e.goal.Some? then s.goals.(released := s.goals.released + {e.goal.value}) else s.goals);
    FrameKeepsAttribution(s, letGo);
    if e.accepting && !e.recording && !e.pending {
      StartAttributed(letGo, ByService, 0, found);
    }
  }

  /** One more closed bag: recorded into only if it went through a drain wait. */
  lemma AppendAttributed(s: Recorder, s': Recorder, bag: Bag)
    requires Attributed(s) && s'.past == s.past.(closed := s.past.closed + [bag]) && s'.goals == s.goals
    requires s'.exec.goal == s.exec.goal && s'.exec.starter == s.exec.starter && !Ongoing(s'.exec)
    requires !s.exec.pc.Destroying? && !s.exec.pc.Reporting? && !InSettle(s.exec.pc)
    requires InSettle(s'.exec.pc) ==> s'.exec.pc.result.bag.None?
    requires s'.exec.pc.Destroying? || s'.exec.pc.Reporting? ==> |s.past.closed| in s.past.exits
    requires |s.past.closed| in s.past.exits ==>
      && s'.exec.pc.Destroying? && Ongoing(s.exec) && bag.starter == s.exec.starter
      && FatesOk(s.goals, s.exec.goal)
    ensures Attributed(s')
  {
    forall n: nat | Recorded(s'.past, n) && s'.past.closed[n].starter.Some?
      ensures OwnerOk(n, s'.past.closed[n].starter.value, s'.exec, s'.goals, s'.past)
    {
      var goal := s'.past.closed[n].starter.value;
      if n < |s.past.closed| {
        assert Recorded(s.past, n);
        assert OwnerOk(n, goal, s.exec, s.goals, s.past);
      } else {
        assert !IsSettled(s.goals, goal);
      }
    }
    assert forall n: nat :: Recorded(s.past, n) ==> Recorded(s'.past, n);
  }

  lemma CloseAttributed(s: Recorder)
    requires Attributed(s) && FinishEnabled(s, CloseBag) && |s.past.closed| in s.past.exits
    requires s.sink.writer.value.starter == s.exec.starter && FatesOk(s.goals, s.exec.goal)
    requires EpisodeOk(s.exec)
    ensures Attributed(FinishStep(s, CloseBag))
  {
    AppendAttributed(s, FinishStep(s, CloseBag), s.sink.writer.value);
  }

  lemma AbortAttributed(s: Recorder)
    requires Attributed(s) && StartEnabled(s, AbortOpen) && |s.past.closed| !in s.past.exits
    requires EpisodeOk(s.exec)
    ensures Attributed(AbortOpenStep(s))
  {
    if s.sink.writer.Some? {
      AppendAttributed(s, AbortOpenStep(s), s.sink.writer.value);
    } else {
      FrameKeepsAttribution(s, AbortOpenStep(s));
    }
  }

  lemma OnlyClosingHasExit(s: Recorder)
    requires BagOk(s.past, s.sink, s.exec) && DrainOk(s.past, s.thread, s.exec)
    ensures |s.past.closed| in s.past.exits <==> s.exec.pc.Closing?
  {
  }

  lemma SettleAttributed(s: Recorder)
    requires EpisodeOk(s.exec) && Attributed(s) && FinishEnabled(s, CallSettle)
    ensures Attributed(CallSettleStep(s))
  {
    var s', goal := CallSettleStep(s), s.exec.goal.value;
    SettleShape(s);
    forall n: nat | Recorded(s'.past, n) && s'.past.closed[n].starter.Some?
      ensures OwnerOk(n, s'.past.closed[n].starter.value, s'.exec, s'.goals, s'.past)
    {
      assert Recorded(s.past, n);
      assert OwnerOk(n, s.past.closed[n].starter.value, s.exec, s.goals, s.past);
    }
  }

  lemma SettleShape(s: Recorder)
    requires EpisodeOk(s.exec) && FinishEnabled(s, CallSettle)
    ensures var e' := CallSettleStep(s).exec;
      && e'.goal.None? && e'.starter == s.exec.starter && !Ongoing(e')
      && !InSettle(e'.pc) && !e'.pc.Destroying? && !e'.pc.Reporting?
    ensures s.goals.state.Keys <= CallSettleStep(s).goals.state.Keys
  {
  }

  lemma WriterKeepsAttribution(s: Recorder, a: WriterAction)
    requires Attributed(s) && WriterEnabled(s, a)
    ensures Attributed(WriterStep(s, a))
  {
    WriterFrame(s, a);
    FrameKeepsAttribution(s, WriterStep(s, a));
  }

  lemma LifeKeepsAttribution(s: Recorder, a: LifeAction)
    requires Control(s) && Attributed(s) && LifeEnabled(s, a)
    ensures Attributed(LifeStep(s, a))
  {
    LifeKeepsPast(s, a);
    LifeFrame(s, a);
    FrameKeepsAttribution(s, LifeStep(s, a));
  }

  lemma RunKeepsAttribution(s: Recorder, a: RunAction)
    requires EpisodeOk(s.exec) && Attributed(s) && RunEnabled(s, a)
    ensures Attributed(RunStep(s, a))
  {
    RunFrame(s, a);
    FrameKeepsAttribution(s, RunStep(s, a));
  }

  lemma CancelKeepsAttribution(s: Recorder, goal: Uuid)
    requires Attributed(s)
    ensures Attributed(CancelGoal(s, goal))
  {
    FrameKeepsAttribution(s, CancelGoal(s, goal));
  }

  lemma StepKeepsAttribution(s: Recorder, a: Action)
    requires Inv(s) && Attributed(s) && Enabled(s, a)
    ensures Attributed(Step(s, a))
  {
    match a
    case Writer(writer) => WriterKeepsAttribution(s, writer);
    case Life(life) => LifeKeepsAttribution(s, life);
    case Start(start) => StartKeepsAttribution(s, start);
    case Run(run) => RunKeepsAttribution(s, run);
    case Finish(finish) => FinishKeepsAttribution(s, finish);
    case CancelLands(goal) => CancelKeepsAttribution(s, goal);
  }

  lemma StartKeepsAttribution(s: Recorder, a: StartAction)
    requires Inv(s) && Attributed(s) && StartEnabled(s, a)
    ensures Attributed(StartStep(s, a))
  {
    match a
    case AcceptGoal(goal, limit, found) => AcceptAttributed(s, goal, limit, found);
    case StartService(found) => ServiceAttributed(s, found);
    case AbortOpen => OnlyClosingHasExit(s); AbortAttributed(s);
    case _ => StartFrame(s, a); FrameKeepsAttribution(s, StartStep(s, a));
  }

  lemma FinishKeepsAttribution(s: Recorder, a: FinishAction)
    requires Inv(s) && Attributed(s) && FinishEnabled(s, a)
    ensures Attributed(FinishStep(s, a))
  {
    match a
    case CloseBag => OnlyClosingHasExit(s); CloseAttributed(s);
    case CallSettle => SettleAttributed(s);
    case Report(metadataOk) => ReportFrame(s, metadataOk); FrameKeepsAttribution(s, ReportStep(s, metadataOk));
    case _ => FinishFrame(s, a); FrameKeepsAttribution(s, FinishStep(s, a));
  }

  lemma AttributedNext(states: seq<Recorder>, schedule: seq<Action>, n: nat)
    requires IsHistory(states, schedule) && n < |schedule| && Attributed(states[n])
    ensures Attributed(states[n + 1])
  {
    HistoryKeepsInv(states, schedule, n);
    assert Follows(states[n], schedule[n], states[n + 1]);
    StepKeepsAttribution(states[n], schedule[n]);
  }

  lemma {:induction false} RunAttributed(states: seq<Recorder>, schedule: seq<Action>, n: nat)
    requires IsHistory(states, schedule) && n <= |schedule|
    ensures Attributed(states[n])
  {
    if n > 0 {
      RunAttributed(states, schedule, n - 1);
      AttributedNext(states, schedule, n - 1);
    }
  }

  lemma ReachableAttributed(s: Recorder)
    requires Reachable(s)
    ensures Attributed(s)
  {
    var states: seq<Recorder>, schedule: seq<Action> :| IsHistory(states, schedule) && states[|schedule|] == s;
    RunAttributed(states, schedule, |schedule|);
  }

  /**
    A settled goal is told of a bag exactly when its episode was recorded, and then of that very bag; so
    no goal has two recorded bags.
   */
  lemma BagToldIff(s: Recorder, i: nat)
    requires Reachable(s) && i < |s.goals.settled|
    ensures var x := s.goals.settled[i];
      && (x.result.bag.Some? <==> exists n: nat :: Recorded(s.past, n) && s.past.closed[n].starter == Some(x.goal))
      && forall n: nat :: Recorded(s.past, n) && s.past.closed[n].starter == Some(x.goal) ==> x.result.bag == Some(n)
  {
    ReachableAttributed(s);
    ReachableInv(s);
    var x := s.goals.settled[i];
    forall n: nat | Recorded(s.past, n) && s.past.closed[n].starter == Some(x.goal) ensures x.result.bag == Some(n) {
      assert OwnerOk(n, x.goal, s.exec, s.goals, s.past);
    }
    if x.result.bag.Some? {
      assert Recorded(s.past, x.result.bag.value);
      assert Owned(x.result, Some(x.goal), s.past);
    }
  }
}
