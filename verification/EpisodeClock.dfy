/** The limit an episode runs under, the clock it is held against, and what a tick does about it. */
module EpisodeClock {
  import opened RecorderTypes
  import opened TopicTable
  import opened LatchedBuffers
  import opened RecorderState
  import opened WriterSteps
  import opened ExecutorSteps
  import opened ControlInvariant
  import opened Runs
  import opened StopRequests

  // ---------- What a start sets ----------

  /** A start that is not refused. */
  predicate Begins(s: Recorder, a: Action) {
    && a.Start? && StartEnabled(s, a.start)
    && (a.start.AcceptGoal?
        || (a.start.StartService? && s.exec.accepting && !s.exec.recording && !s.exec.pending))
  }

  /** The limit asked for; a service asks for none. */
  function Asked(a: Action): int {
    if a.Start? && a.start.AcceptGoal? then a.start.limit else 0
  }

  predicate AnyResubscribes(topics: seq<TopicState>) {
    exists i :: 0 <= i < |topics| && topics[i].spec.strategy == ResubscribeOnStart
  }

  lemma DiscoveredDoNotResubscribe(t: Table, found: seq<RecordTopic>)
    requires ValidTable(t)
    ensures AnyResubscribes(Discover(t, found).topics) <==> AnyResubscribes(t.topics)
  {
    var d := Discover(t, found).topics;
    DiscoverValid(t, found);
    AddAllExtends(t, UnbufferedAll(found), true);
    assert forall i :: 0 <= i < |t.topics| ==> d[i] == t.topics[i];
    if i :| 0 <= i < |d| && d[i].spec.strategy == ResubscribeOnStart {
      assert i < |t.topics| && t.topics[i].spec.strategy == ResubscribeOnStart;
    }
    if i :| 0 <= i < |t.topics| && t.topics[i].spec.strategy == ResubscribeOnStart {
      assert d[i].spec.strategy == ResubscribeOnStart;
    }
  }

  /** A start from `e`, with this limit asked for and a goal or none, in a table that resubscribes or does not. */
  predicate Begun(e: Exec, s': Recorder, asked: int, goal: Option<Uuid>, deferred: bool) {
    && s'.exec.limit == (if asked > 0 then asked else e.defaultLimit)
    && s'.exec.defaultLimit == e.defaultLimit && s'.exec.goal == s'.exec.starter == goal
    && s'.sink.messagesWritten == 0 && !s'.sink.writeFailed && !s'.sink.stopRequested && s'.exec.dropped == 0
    && !s'.exec.recording && !s'.exec.detached
    && (s'.exec.pending <==> deferred) && (s'.exec.settleTimer <==> deferred)
    && s'.exec.pc == if deferred then Idle else Opening(if goal.Some? then ByGoal(goal.value) else ByService)
  }

  lemma StartEpisodeBegins(s: Recorder, origin: Origin, limit: int, found: seq<RecordTopic>)
    requires ValidTable(s.table) && s.exec.pc.Idle? && !s.exec.recording && !s.exec.pending && !s.exec.settleTimer
    requires !origin.ByTimer? && s.exec.goal == if origin.ByGoal? then Some(origin.goal) else None
    ensures Begun(s.exec, StartEpisode(s, origin, limit, found), limit, s.exec.goal, AnyResubscribes(s.table.topics))
  {
    DiscoveredDoNotResubscribe(s.table, found);
    ResubscribeCountIs(Discover(s.table, found).topics);
  }

  /**
    An accepted start runs under the limit asked for, or the node's default when none is: with nothing
    written, dropped, failed or asked to stop, and deferred exactly when some topic resubscribes.
   */
  lemma StartSets(s: Recorder, a: Action)
    requires Reachable(s) && Begins(s, a)
    ensures Begun(s.exec, Step(s, a), Asked(a), if a.start.AcceptGoal? then Some(a.start.goal) else None,
                  AnyResubscribes(s.table.topics))
  {
    ReachableControl(s);
    ReachableTable(s);
    match a.start
    case AcceptGoal(goal, limit, found) =>
      StartEpisodeBegins(
        s.(exec := s.exec.(goal := Some(goal)), goals := s.goals.(state := s.goals.state[goal := Executing])),
        ByGoal(goal), limit, found);
    case StartService(found) =>
      var e := s.exec;
      StartEpisodeBegins(
        s.(exec := e.(goal := None, goalId := "", detached := e.detached || e.recording || e.pending),
           goals := if e.goal.Some? then s.goals.(released := s.goals.released + {e.goal.value}) else s.goals),
        ByService, 0, found);
    case _ =>
  }

  lemma ReachableTable(s: Recorder)
    requires Reachable(s)
    ensures ValidTable(s.table)
  {
    ReachableBags(s);
  }

  /** A refused start leaves the episode that is on, its limit and its bag alone. */
  lemma RefusedLeavesEpisode(s: Recorder, found: seq<RecordTopic>)
    requires StartEnabled(s, StartService(found)) && !Begins(s, Start(StartService(found)))
    ensures var s' := StartStep(s, StartService(found));
      && s'.sink == s.sink && s'.queue == s.queue && s'.table == s.table && s'.past == s.past
      && s'.exec == s.exec.(goal := None, goalId := "", detached := s'.exec.detached)
  {
  }

  /** When the settle delay is over a start that is still pending opens its bag; one that was dropped does not. */
  lemma SettledStartOpens(s: Recorder)
    requires Reachable(s) && StartEnabled(s, CompleteStart)
    ensures var s' := StartStep(s, CompleteStart);
      && s'.exec.pc == Opening(ByTimer) && !s'.exec.pending && !s'.exec.settleTimer
      && SameLimits(s.exec, s'.exec) && s'.exec.goal == s.exec.goal && s'.exec.starter == s.exec.starter
      && s'.sink == s.sink && s'.table == s.table
  {
    ReachableControl(s);
  }

  // ---------- The limit stays ----------

  predicate SameLimits(e: Exec, e': Exec) {
    e'.limit == e.limit && e'.defaultLimit == e.defaultLimit
  }

  lemma LifeKeepsLimit(s: Recorder, a: LifeAction)
    requires LifeEnabled(s, a)
    ensures SameLimits(s.exec, LifeStep(s, a).exec)
  {
  }

  lemma StartKeepsLimit(s: Recorder, a: StartAction)
    requires StartEnabled(s, a) && !Begins(s, Start(a))
    ensures SameLimits(s.exec, StartStep(s, a).exec)
  {
  }

  lemma RunKeepsLimit(s: Recorder, a: RunAction)
    requires RunEnabled(s, a)
    ensures SameLimits(s.exec, RunStep(s, a).exec)
  {
  }

  lemma ReturnKeepsLimit(e: Exec, callback: Callback)
    ensures SameLimits(e, Return(e, callback))
  {
  }

  lemma ReportKeepsLimit(s: Recorder, metadataOk: bool)
    requires FinishEnabled(s, Report(metadataOk))
    ensures SameLimits(s.exec, ReportStep(s, metadataOk).exec)
  {
    ReturnKeepsLimit(s.exec.(goalId := ""), s.exec.pc.ending.callback);
  }

  lemma SettleKeepsLimit(s: Recorder)
    requires FinishEnabled(s, CallSettle)
    ensures SameLimits(s.exec, CallSettleStep(s).exec)
  {
    if s.exec.pc.after.AfterFinish? {
      ReturnKeepsLimit(s.exec.(goal := None, goalId := ""), s.exec.pc.after.callback);
    }
  }

  lemma FinishKeepsLimit(s: Recorder, a: FinishAction)
    requires FinishEnabled(s, a)
    ensures SameLimits(s.exec, FinishStep(s, a).exec)
  {
    match a
    case Report(metadataOk) => ReportKeepsLimit(s, metadataOk);
    case CallSettle => SettleKeepsLimit(s);
    case BeginDrain =>
    case WakeDrain =>
    case DrainTimeout =>
    case CloseBag =>
    case DestroyTopics =>
    case TestCanceling =>
  }

  /** Only a start that is not refused changes the limit, and the node's default never changes. */
  lemma StepKeepsLimit(s: Recorder, a: Action)
    requires Enabled(s, a) && !Begins(s, a)
    ensures SameLimits(s.exec, Step(s, a).exec)
  {
    match a
    case Writer(_) =>
    case Life(life) => LifeKeepsLimit(s, life);
    case Start(start) => StartKeepsLimit(s, start);
    case Run(run) => RunKeepsLimit(s, run);
    case Finish(finish) => FinishKeepsLimit(s, finish);
    case CancelLands(_) =>
  }

  /** An episode keeps its limit for as long as it is pending, opening or recording. */
  lemma {:induction false} LimitStays(s: Recorder, schedule: seq<Action>)
    requires IsRun(s, schedule) && AllUnderWay(s, schedule)
    ensures SameLimits(s.exec, Outcome(s, schedule).exec)
    decreases |schedule|
  {
    if schedule != [] {
      StepKeepsLimit(s, schedule[0]);
      LimitStays(Step(s, schedule[0]), schedule[1..]);
    }
  }

  // ---------- What a tick decides ----------

  /**
    With no stop requested and no cancel seen, a tick ends the episode exactly when its time is up, and then
    as a timeout; otherwise the episode goes on, and a live goal is told how far it has come.
   */
  lemma TickDecides(s: Recorder)
    requires Reachable(s) && RunEnabled(s, TickStop) && !s.sink.stopRequested && !IsCanceling(s)
    ensures var s' := RunStep(s, TickStop);
      && (s'.exec.pc.Finishing? <==> s.exec.lastClock - s.exec.started >= s.exec.limit)
      && (s'.exec.pc.Finishing? ==> s'.exec.pc.ending.reason.Timeout? && !s'.exec.recording)
      && (!s'.exec.pc.Finishing? ==>
        && s'.exec.pc.Idle? && s'.exec.recording && s'.exec.tickTimer && s'.sink == s.sink
        && (s.exec.goal.None? ==> s'.past == s.past)
        && (s.exec.goal.Some? ==> Told(s, s', s.exec.goal.value)))
  {
    ReachableClock(s);
    ReachableControl(s);
    ReachableCounts(s);
  }

  /** One more feedback for this goal: the time since going live, and the bag's size less a write not yet counted. */
  predicate Told(s: Recorder, s': Recorder, goal: Uuid) {
    && |s'.past.feedback| == |s.past.feedback| + 1 && s.past.feedback <= s'.past.feedback
    && s.sink.writer.Some?
    && var f := s'.past.feedback[|s.past.feedback|];
       && f.goal == goal && f.elapsed == s.exec.lastClock - s.exec.started && f.limit == s.exec.limit
       && f.written + (if s.thread.pc.Stored? then 1 else 0) == |s.sink.writer.value.entries|
  }

  /** A goal seen cancelling ends the episode as cancelled, a stop request alone as stopped. */
  lemma StopDecides(s: Recorder)
    requires Reachable(s) && RunEnabled(s, TickStop) && (s.sink.stopRequested || IsCanceling(s))
    ensures var s' := RunStep(s, TickStop);
      && s'.exec.pc.Finishing? && !s'.exec.recording
      && (IsCanceling(s) ==> s'.exec.pc.ending.reason.Cancelled?)
      && (!IsCanceling(s) ==> s'.exec.pc.ending.reason.Stopped?)
  {
  }

  // ---------- The clock over a whole run ----------

  /** By episode: the limit it was given, the reading it went live at, and that of its last tick. */
  datatype Log = Log(limits: map<nat, int>, lives: map<nat, int>, ticks: map<nat, int>)

  function Logged(log: Log, s: Recorder, a: Action): Log {
    var n := |s.past.closed|;
    Log(if Begins(s, a) then log.limits[n := if Asked(a) > 0 then Asked(a) else s.exec.defaultLimit] else log.limits,
        if a.Start? && a.start.GoLive? then log.lives[n := a.start.now] else log.lives,
        if a.Run? && a.run.Tick? && s.exec.recording then log.ticks[n := a.run.now] else log.ticks)
  }

  /** The last tick of the episode came `limit` or more after it went live. */
  predicate Expired(log: Log, n: nat) {
    n in log.limits && n in log.lives && n in log.ticks && log.ticks[n] - log.lives[n] >= log.limits[n]
  }

  /** Nothing is logged for an episode that is over. */
  predicate SameBefore(log: Log, log': Log, n: nat) {
    forall m :: 0 <= m < n && Expired(log, m) ==> Expired(log', m)
  }

  predicate EpisodeClockOk(e: Exec, log: Log, n: nat) {
    && (UnderWay(e) ==> n in log.limits && log.limits[n] == e.limit)
    && (e.recording ==> n in log.lives && log.lives[n] == e.started)
    && (e.pc.Ticking? ==>
      n in log.ticks && log.ticks[n] == e.lastClock && e.pc.elapsed == e.lastClock - e.started)
    && (e.pc.Finishing? || e.pc.Draining? || e.pc.Closing? ==> (e.pc.ending.reason.Timeout? ==> Expired(log, n)))
    && (e.pc.Destroying? || e.pc.Reporting? ==>
      n > 0 && (e.pc.ending.reason.Timeout? ==> Expired(log, n - 1)))
    && (InSettle(e.pc) ==> ResultDue(e.pc.result, log, n))
  }

  predicate ResultDue(r: Result, log: Log, n: nat) {
    r.reason.Timeout? ==> r.bag.Some? && r.bag.value < n && Expired(log, r.bag.value)
  }

  predicate ClockOk(s: Recorder, log: Log) {
    && EpisodeClockOk(s.exec, log, |s.past.closed|)
    && forall i :: 0 <= i < |s.goals.settled| ==> ResultDue(s.goals.settled[i].result, log, |s.past.closed|)
  }

  lemma WriterKeepsClock(s: Recorder, a: WriterAction, log: Log)
    requires ClockOk(s, log) && WriterEnabled(s, a)
    ensures ClockOk(WriterStep(s, a), log)
  {
  }

  /** Steps that neither close a bag, settle a goal nor put an episode under way. */
  predicate ClockFrame(s: Recorder, s': Recorder) {
    && |s'.past.closed| == |s.past.closed| && s'.goals.settled == s.goals.settled
    && SameLimits(s.exec, s'.exec) && s'.exec.started == s.exec.started && s'.exec.lastClock == s.exec.lastClock
    && (UnderWay(s'.exec) ==> UnderWay(s.exec)) && (s'.exec.recording ==> s.exec.recording)
    && (s'.exec.pc == s.exec.pc || PcFollows(s.exec.pc, s'.exec.pc))
  }

  /** To a point where no clock matters any more, or where the same ending or a result that is no timeout is at hand. */
  predicate PcFollows(pc: ExecPc, pc': ExecPc) {
    && !pc'.Ticking?
    && (pc'.Finishing? || pc'.Draining? || pc'.Closing? ==>
      !pc'.ending.reason.Timeout? || ((pc.Finishing? || pc.Draining? || pc.Closing?) && pc'.ending == pc.ending))
    && (pc'.Destroying? || pc'.Reporting? ==> (pc.Destroying? || pc.Reporting?) && pc'.ending == pc.ending)
    && (InSettle(pc') ==> !pc'.result.reason.Timeout? || (InSettle(pc) && pc'.result == pc.result))
  }

  lemma FrameKeepsClock(s: Recorder, s': Recorder, log: Log)
    requires ClockOk(s, log) && ClockFrame(s, s')
    ensures ClockOk(s', log)
  {
  }

  lemma ReturnFollows(e: Exec, callback: Callback)
    ensures var e' := Return(e, callback);
      && PcFollows(e.pc, e'.pc) && SameLimits(e, e') && e'.started == e.started && e'.lastClock == e.lastClock
      && !InOpening(e'.pc) && e'.recording == e.recording && e'.pending == e.pending
  {
    match callback
    case TickTimer =>
    case Deactivate =>
    case Cleanup =>
    case Shutdown =>
    case OnError =>
  }

  lemma StopFrame(s: Recorder)
    requires EpisodeOk(s.exec) && LifeEnabled(s, StopRecording)
    ensures ClockFrame(s, StopRecordingStep(s))
  {
    if !s.exec.recording {
      ReturnFollows(s.exec, s.exec.pc.callback);
    }
  }

  lemma BeginStopFrame(s: Recorder, callback: Callback)
    requires EpisodeOk(s.exec) && LifeEnabled(s, BeginStop(callback))
    ensures ClockFrame(s, BeginStopStep(s, callback))
  {
  }

  lemma LifeFrame(s: Recorder, a: LifeAction)
    requires EpisodeOk(s.exec) && LifeEnabled(s, a)
    requires s.exec.pc.ErrorClosing? ==> s.sink.writer.None?
    ensures ClockFrame(s, LifeStep(s, a))
  {
    if a.StopRecording? {
      StopFrame(s);
    } else if a.BeginStop? {
      BeginStopFrame(s, a.callback);
    }
  }

  lemma LifeKeepsClock(s: Recorder, a: LifeAction, log: Log)
    requires EpisodeOk(s.exec) && ClockOk(s, log) && LifeEnabled(s, a)
    requires s.exec.pc.ErrorClosing? ==> s.sink.writer.None?
    ensures ClockOk(LifeStep(s, a), log)
  {
    LifeFrame(s, a);
    FrameKeepsClock(s, LifeStep(s, a), log);
  }

  lemma TickKeepsClock(s: Recorder, now: int, log: Log)
    requires EpisodeOk(s.exec) && ClockOk(s, log) && RunEnabled(s, Tick(now))
    ensures ClockOk(TickStep(s, now), Logged(log, s, Run(Tick(now))))
  {
    SettledStayDue(s, log, Logged(log, s, Run(Tick(now))), TickStep(s, now));
  }

  /** What is logged of the episode that is on leaves earlier ones alone. */
  lemma SettledStayDue(s: Recorder, log: Log, log': Log, s': Recorder)
    requires ClockOk(s, log) && s'.goals.settled == s.goals.settled && |s'.past.closed| >= |s.past.closed|
    requires SameBefore(log, log', |s.past.closed|)
    ensures forall i :: 0 <= i < |s'.goals.settled| ==> ResultDue(s'.goals.settled[i].result, log', |s'.past.closed|)
  {
  }

  lemma TickStopKeepsClock(s: Recorder, log: Log)
    requires EpisodeOk(s.exec) && ClockOk(s, log) && RunEnabled(s, TickStop)
    ensures ClockOk(TickStopStep(s), log)
  {
    if s.sink.stopRequested {
    } else if IsCanceling(s) {
    } else if s.exec.limit - s.exec.pc.elapsed <= 0 {
    } else {
    }
  }

  lemma RunFrame(s: Recorder, a: RunAction)
    requires RunEnabled(s, a) && !a.Tick? && !a.TickStop?
    ensures ClockFrame(s, RunStep(s, a))
  {
  }

  lemma RunKeepsClock(s: Recorder, a: RunAction, log: Log)
    requires EpisodeOk(s.exec) && ClockOk(s, log) && RunEnabled(s, a)
    ensures ClockOk(RunStep(s, a), Logged(log, s, Run(a)))
  {
    match a
    case Tick(now) => TickKeepsClock(s, now, log);
    case TickStop => TickStopKeepsClock(s, log);
    case _ =>
      RunFrame(s, a);
      FrameKeepsClock(s, RunStep(s, a), log);
  }

  lemma BeginKeepsClock(s: Recorder, a: StartAction, log: Log)
    requires EpisodeOk(s.exec) && ClockOk(s, log) && Begins(s, Start(a))
    ensures ClockOk(StartStep(s, a), Logged(log, s, Start(a)))
  {
    var s' := StartStep(s, a);
    assert s'.past == s.past && s'.goals.settled == s.goals.settled && !s'.exec.recording;
    assert s'.exec.limit == if Asked(Start(a)) > 0 then Asked(Start(a)) else s.exec.defaultLimit;
    assert s'.exec.pc.Idle? || s'.exec.pc.Opening?;
    SettledStayDue(s, log, Logged(log, s, Start(a)), s');
  }

  lemma LiveKeepsClock(s: Recorder, now: int, log: Log)
    requires EpisodeOk(s.exec) && ClockOk(s, log) && StartEnabled(s, GoLive(now))
    ensures ClockOk(GoLiveStep(s, now), Logged(log, s, Start(GoLive(now))))
  {
    SettledStayDue(s, log, Logged(log, s, Start(GoLive(now))), GoLiveStep(s, now));
  }

  lemma AbortKeepsClock(s: Recorder, log: Log)
    requires EpisodeOk(s.exec) && ClockOk(s, log) && StartEnabled(s, AbortOpen)
    ensures ClockOk(AbortOpenStep(s), log)
  {
    SettledStayDue(s, log, log, AbortOpenStep(s));
  }

  lemma OpeningFrame(s: Recorder, a: StartAction)
    requires EpisodeOk(s.exec) && StartEnabled(s, a) && !Begins(s, Start(a)) && !a.GoLive? && !a.AbortOpen?
    ensures ClockFrame(s, StartStep(s, a))
  {
  }

  lemma StartKeepsClock(s: Recorder, a: StartAction, log: Log)
    requires EpisodeOk(s.exec) && ClockOk(s, log) && StartEnabled(s, a)
    ensures ClockOk(StartStep(s, a), Logged(log, s, Start(a)))
  {
    if Begins(s, Start(a)) {
      BeginKeepsClock(s, a, log);
    } else if a.GoLive? {
      LiveKeepsClock(s, a.now, log);
    } else if a.AbortOpen? {
      AbortKeepsClock(s, log);
    } else {
      OpeningFrame(s, a);
      FrameKeepsClock(s, StartStep(s, a), log);
    }
  }

  lemma LeaveFrame(s: Recorder, ending: Ending, kind: ExitKind)
    requires (s.exec.pc.Finishing? || s.exec.pc.Draining?) && s.exec.pc.ending == ending
    ensures ClockFrame(s, LeaveDrain(s, ending, kind))
  {
  }

  lemma BeginDrainFrame(s: Recorder)
    requires s.exec.pc.Finishing?
    ensures ClockFrame(s, BeginDrainStep(s))
  {
    var asked := s.(queue := s.queue.(flushRequested := true, flushDone := false));
    LeaveFrame(asked, s.exec.pc.ending, ByEmpty);
  }

  lemma DrainFrame(s: Recorder, a: FinishAction)
    requires FinishEnabled(s, a) && (a.BeginDrain? || a.WakeDrain? || a.DrainTimeout?)
    ensures ClockFrame(s, FinishStep(s, a))
  {
    match a
    case BeginDrain => BeginDrainFrame(s);
    case WakeDrain => LeaveFrame(s, s.exec.pc.ending, if s.queue.flushDone then ByFlush else ByEmpty);
    case DrainTimeout => LeaveFrame(s, s.exec.pc.ending, ByTimeout);
    case _ =>
  }

  lemma CloseKeepsClock(s: Recorder, log: Log)
    requires EpisodeOk(s.exec) && ClockOk(s, log) && FinishEnabled(s, CloseBag)
    ensures ClockOk(FinishStep(s, CloseBag), log)
  {
    SettledStayDue(s, log, log, FinishStep(s, CloseBag));
  }

  lemma TestFrame(s: Recorder, a: FinishAction)
    requires FinishEnabled(s, a) && (a.DestroyTopics? || a.TestCanceling?)
    ensures ClockFrame(s, FinishStep(s, a))
  {
  }

  lemma ReportKeepsClock(s: Recorder, metadataOk: bool, log: Log)
    requires EpisodeOk(s.exec) && ClockOk(s, log) && FinishEnabled(s, Report(metadataOk))
    ensures ClockOk(ReportStep(s, metadataOk), log)
  {
    ReturnFollows(s.exec.(goalId := ""), s.exec.pc.ending.callback);
    SettledStayDue(s, log, log, ReportStep(s, metadataOk));
  }

  lemma SettledPc(s: Recorder)
    requires EpisodeOk(s.exec) && FinishEnabled(s, CallSettle)
    ensures var e := CallSettleStep(s).exec;
      !UnderWay(e) && !e.pc.Ticking? && !InFinish(e.pc) && !InSettle(e.pc)
  {
  }

  lemma SettleKeepsClock(s: Recorder, log: Log)
    requires EpisodeOk(s.exec) && ClockOk(s, log) && FinishEnabled(s, CallSettle)
    ensures ClockOk(CallSettleStep(s), log)
  {
    SettledPc(s);
  }

  lemma FinishKeepsClock(s: Recorder, a: FinishAction, log: Log)
    requires EpisodeOk(s.exec) && ClockOk(s, log) && FinishEnabled(s, a)
    ensures ClockOk(FinishStep(s, a), log)
  {
    match a
    case CloseBag => CloseKeepsClock(s, log);
    case Report(metadataOk) => ReportKeepsClock(s, metadataOk, log);
    case CallSettle => SettleKeepsClock(s, log);
    case _ =>
      if a.DestroyTopics? || a.TestCanceling? {
        TestFrame(s, a);
      } else {
        DrainFrame(s, a);
      }
      FrameKeepsClock(s, FinishStep(s, a), log);
  }

  lemma StepKeepsClock(s: Recorder, a: Action, log: Log)
    requires Control(s) && ClockOk(s, log) && Enabled(s, a)
    ensures ClockOk(Step(s, a), Logged(log, s, a))
  {
    match a
    case Writer(writer) => WriterKeepsClock(s, writer, log);
    case Life(life) => LifeKeepsClock(s, life, log);
    case Start(start) => StartKeepsClock(s, start, log);
    case Run(run) => RunKeepsClock(s, run, log);
    case Finish(finish) => FinishKeepsClock(s, finish, log);
    case CancelLands(_) =>
  }

  /** The log of the first `n` steps of a run. */
  function LogAt(states: seq<Recorder>, schedule: seq<Action>, n: nat): Log
    requires n <= |schedule| < |states|
  {
    if n == 0 then Log(map[], map[], map[])
    else Logged(LogAt(states, schedule, n - 1), states[n - 1], schedule[n - 1])
  }

  lemma InitialClock(s: Recorder)
    requires exists defaultLimit: int :: s == Initial(defaultLimit)
    ensures ClockOk(s, Log(map[], map[], map[]))
  {
  }

  lemma NextClock(s: Recorder, a: Action, s': Recorder, log: Log)
    requires Control(s) && ClockOk(s, log) && Follows(s, a, s')
    ensures ClockOk(s', Logged(log, s, a))
  {
    StepKeepsClock(s, a, log);
  }

  lemma ControlAt(states: seq<Recorder>, schedule: seq<Action>, n: nat)
    requires IsHistory(states, schedule) && n <= |schedule|
    ensures Control(states[n])
  {
    HistoryKeepsInv(states, schedule, n);
  }

  lemma NextAt(states: seq<Recorder>, schedule: seq<Action>, n: nat)
    requires IsHistory(states, schedule) && n < |schedule|
    ensures Control(states[n]) && Follows(states[n], schedule[n], states[n + 1])
  {
    ControlAt(states, schedule, n);
  }

  lemma StartAt(states: seq<Recorder>, schedule: seq<Action>)
    requires IsHistory(states, schedule)
    ensures ClockOk(states[0], Log(map[], map[], map[]))
  {
    InitialClock(states[0]);
  }

  lemma ClockNext(states: seq<Recorder>, schedule: seq<Action>, n: nat)
    requires IsHistory(states, schedule) && n < |schedule| && ClockOk(states[n], LogAt(states, schedule, n))
    ensures ClockOk(states[n + 1], LogAt(states, schedule, n + 1))
  {
    NextAt(states, schedule, n);
    NextClock(states[n], schedule[n], states[n + 1], LogAt(states, schedule, n));
  }

  lemma {:induction false} HistoryKeepsClock(states: seq<Recorder>, schedule: seq<Action>, n: nat)
    requires IsHistory(states, schedule) && n <= |schedule|
    ensures ClockOk(states[n], LogAt(states, schedule, n))
  {
    if n == 0 {
      StartAt(states, schedule);
    } else {
      HistoryKeepsClock(states, schedule, n - 1);
      ClockNext(states, schedule, n - 1);
    }
  }

  lemma ReachableClock(s: Recorder)
    requires Reachable(s) && s.exec.pc.Ticking?
    ensures s.exec.pc.elapsed == s.exec.lastClock - s.exec.started
  {
    var states: seq<Recorder>, schedule: seq<Action> :| IsHistory(states, schedule) && states[|schedule|] == s;
    HistoryKeepsClock(states, schedule, |schedule|);
  }

  // ---------- What the log says of the run ----------

  /** Step `k` is an accepted start of episode `n`, and no later one of the first `m` steps is. */
  ghost predicate LastStart(states: seq<Recorder>, schedule: seq<Action>, m: nat, n: nat, k: nat) {
    && k < m <= |schedule| < |states| && Begins(states[k], schedule[k]) && |states[k].past.closed| == n
    && forall j :: k < j < m && |states[j].past.closed| == n ==> !Begins(states[j], schedule[j])
  }

  ghost predicate LastLive(states: seq<Recorder>, schedule: seq<Action>, m: nat, n: nat, k: nat) {
    && k < m <= |schedule| < |states| && schedule[k].Start? && schedule[k].start.GoLive?
    && |states[k].past.closed| == n
    && forall j :: k < j < m && |states[j].past.closed| == n ==> !(schedule[j].Start? && schedule[j].start.GoLive?)
  }

  ghost predicate LastTick(states: seq<Recorder>, schedule: seq<Action>, m: nat, n: nat, k: nat) {
    && k < m <= |schedule| < |states| && schedule[k].Run? && schedule[k].run.Tick? && states[k].exec.recording
    && |states[k].past.closed| == n
    && forall j :: k < j < m && |states[j].past.closed| == n && states[j].exec.recording ==>
      !(schedule[j].Run? && schedule[j].run.Tick?)
  }

  lemma {:induction false} LimitLogged(states: seq<Recorder>, schedule: seq<Action>, m: nat, n: nat) returns (k: nat)
    requires m <= |schedule| < |states| && n in LogAt(states, schedule, m).limits
    ensures LastStart(states, schedule, m, n, k)
    ensures LogAt(states, schedule, m).limits[n]
         == if Asked(schedule[k]) > 0 then Asked(schedule[k]) else states[k].exec.defaultLimit
  {
    k := m - 1;
    if !(Begins(states[k], schedule[k]) && |states[k].past.closed| == n) {
      k := LimitLogged(states, schedule, m - 1, n);
    }
  }

  lemma {:induction false} LiveLogged(states: seq<Recorder>, schedule: seq<Action>, m: nat, n: nat) returns (k: nat)
    requires m <= |schedule| < |states| && n in LogAt(states, schedule, m).lives
    ensures LastLive(states, schedule, m, n, k) && LogAt(states, schedule, m).lives[n] == schedule[k].start.now
  {
    k := m - 1;
    if !(schedule[k].Start? && schedule[k].start.GoLive? && |states[k].past.closed| == n) {
      k := LiveLogged(states, schedule, m - 1, n);
    }
  }

  lemma {:induction false} TickLogged(states: seq<Recorder>, schedule: seq<Action>, m: nat, n: nat) returns (k: nat)
    requires m <= |schedule| < |states| && n in LogAt(states, schedule, m).ticks
    ensures LastTick(states, schedule, m, n, k) && LogAt(states, schedule, m).ticks[n] == schedule[k].run.now
  {
    k := m - 1;
    if !(schedule[k].Run? && schedule[k].run.Tick? && states[k].exec.recording && |states[k].past.closed| == n) {
      k := TickLogged(states, schedule, m - 1, n);
    }
  }

  lemma {:induction false} DefaultStays(states: seq<Recorder>, schedule: seq<Action>, n: nat)
    requires IsHistory(states, schedule) && n <= |schedule|
    ensures states[n].exec.defaultLimit == states[0].exec.defaultLimit
  {
    if n > 0 {
      DefaultStays(states, schedule, n - 1);
      var s, a := states[n - 1], schedule[n - 1];
      assert Follows(s, a, states[n]);
      if Begins(s, a) {
        BeginKeepsDefault(s, a.start);
      } else {
        StepKeepsLimit(s, a);
      }
    }
  }

  lemma BeginKeepsDefault(s: Recorder, a: StartAction)
    requires Begins(s, Start(a))
    ensures StartStep(s, a).exec.defaultLimit == s.exec.defaultLimit
  {
  }

  /** The limit an accepted start asks for, the node's default standing in for none. */
  function Granted(states: seq<Recorder>, a: Action): int
    requires states != []
  {
    if Asked(a) > 0 then Asked(a) else states[0].exec.defaultLimit
  }

  /**
    No goal is told of a timeout early: its episode was started with some limit, went live at some clock
    reading, and had a last tick whose reading is at least that limit later.
   */
  lemma TimeoutIsDue(states: seq<Recorder>, schedule: seq<Action>, i: nat) returns (a: nat, b: nat, c: nat)
    requires IsHistory(states, schedule) && i < |states[|schedule|].goals.settled|
    requires states[|schedule|].goals.settled[i].result.reason.Timeout?
    ensures var r, m := states[|schedule|].goals.settled[i].result, |schedule|;
      && r.bag.Some?
      && LastStart(states, schedule, m, r.bag.value, a) && LastLive(states, schedule, m, r.bag.value, b)
      && LastTick(states, schedule, m, r.bag.value, c)
      && schedule[c].run.now - schedule[b].start.now >= Granted(states, schedule[a])
  {
    var s, m := states[|schedule|], |schedule|;
    HistoryKeepsClock(states, schedule, m);
    assert ResultDue(s.goals.settled[i].result, LogAt(states, schedule, m), |s.past.closed|);
    var n := s.goals.settled[i].result.bag.value;
    a := LimitLogged(states, schedule, m, n);
    b := LiveLogged(states, schedule, m, n);
    c := TickLogged(states, schedule, m, n);
    DefaultStays(states, schedule, a);
  }

  /** Inside a tick, the elapsed time is the tick's reading less that of going live. */
  lemma ElapsedSinceLive(states: seq<Recorder>, schedule: seq<Action>) returns (a: nat, b: nat, c: nat)
    requires IsHistory(states, schedule) && states[|schedule|].exec.pc.Ticking?
    ensures var s, m := states[|schedule|], |schedule|;
      && LastStart(states, schedule, m, |s.past.closed|, a) && LastLive(states, schedule, m, |s.past.closed|, b)
      && LastTick(states, schedule, m, |s.past.closed|, c)
      && s.exec.pc.elapsed == schedule[c].run.now - schedule[b].start.now
      && s.exec.limit == Granted(states, schedule[a])
  {
    var s, m := states[|schedule|], |schedule|;
    HistoryKeepsClock(states, schedule, m);
    ControlAt(states, schedule, m);
    a := LimitLogged(states, schedule, m, |s.past.closed|);
    b := LiveLogged(states, schedule, m, |s.past.closed|);
    c := TickLogged(states, schedule, m, |s.past.closed|);
    DefaultStays(states, schedule, a);
  }
}
