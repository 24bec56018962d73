/**
  Late messages of contract topics. Until the node is configured again every bag registers the same
  contract topics at the same positions, so a message of one of them keeps its name however late it is.
 */
module ContractLabels {
  import opened RecorderTypes
  import opened TopicTable
  import opened LatchedBuffers
  import opened RecorderState
  import opened WriterSteps
  import opened ExecutorSteps
  import opened ControlInvariant
  import opened BagInvariant
  import opened Runs
  import opened LabelTheorems
  import opened RecorderTheorems

  // ---------- The contract part of a table ----------

  function ContractNames(topics: seq<TopicState>): seq<string> {
    Names(topics)[..ContractCount(topics)]
  }

  lemma ShapeKeepsContract(a: seq<TopicState>, b: seq<TopicState>)
    requires SameShape(a, b)
    ensures ContractNames(a) == ContractNames(b)
  {
    CountIs(b, ContractCount(a));
  }

  lemma DiscoverKeepsContract(t: Table, found: seq<RecordTopic>)
    requires ValidTable(t)
    ensures ContractNames(Discover(t, found).topics) == ContractNames(t.topics)
  {
    var d, n := Discover(t, found).topics, ContractCount(t.topics);
    AddAllExtends(t, UnbufferedAll(found), true);
    assert forall i :: 0 <= i < |t.topics| ==> d[i] == t.topics[i];
    CountIs(d, n);
    assert Names(d)[..n] == Names(t.topics)[..n];
  }

  lemma DestroyKeepsContract(t: Table)
    requires ValidTable(t)
    ensures ContractNames(DestroyDiscovered(t).topics) == ContractNames(t.topics)
  {
    DestroyRestoresContract(t);
    PrefixKeepsContract(t.topics, DestroyDiscovered(t).topics);
  }

  lemma PrefixKeepsContract(topics: seq<TopicState>, kept: seq<TopicState>)
    requires kept == topics[..ContractCount(topics)]
    ensures ContractNames(kept) == ContractNames(topics)
  {
    CountIs(kept, ContractCount(topics));
  }

  lemma StartKeepsContract(t: Table, found: seq<RecordTopic>)
    requires TableOk(t)
    ensures var d := Discover(t, found); ContractNames(Resubscribe(d.topics)) == ContractNames(t.topics)
  {
    var d := Discover(t, found);
    DiscoverValid(t, found);
    DiscoverKeepsContract(t, found);
    StartTableOk(t, found);
    ShapeKeepsContract(d.topics, Resubscribe(d.topics));
  }

  // ---------- Until the next configure ----------

  /** The callback a transition in progress belongs to. */
  function InCallback(pc: ExecPc): Option<Callback> {
    match pc
    case Finishing(ending) => Some(ending.callback)
    case Draining(ending) => Some(ending.callback)
    case Closing(ending) => Some(ending.callback)
    case Destroying(ending) => Some(ending.callback)
    case Reporting(ending) => Some(ending.callback)
    case Settling(_, AfterCancelledStart(callback)) => Some(callback)
    case Settling(_, AfterFinish(callback)) => Some(callback)
    case SettleCall(_, _, AfterCancelledStart(callback)) => Some(callback)
    case SettleCall(_, _, AfterFinish(callback)) => Some(callback)
    case Stopping(callback) => Some(callback)
    case _ => None
  }

  /** A contract is in force: the node is configured, or on its way back to being inactive. */
  predicate Configured(e: Exec) {
    e.phase.Active? || e.phase.Inactive? || InCallback(e.pc) == Some(Deactivate)
  }

  predicate SameContract(contract: seq<string>, first: nat, s: Recorder) {
    && (Configured(s.exec) ==> ContractNames(s.table.topics) == contract)
    && forall n :: first <= n < Bound(s.past, s.sink) ==> contract <= RegisteredIn(s.past, s.sink, n)
  }

  /** Steps that leave the contract part of the table alone, or end its being in force. */
  predicate ContractFrame(s: Recorder, s': Recorder) {
    Configured(s'.exec) ==> Configured(s.exec) && ContractNames(s'.table.topics) == ContractNames(s.table.topics)
  }

  predicate SameBound(s: Recorder, s': Recorder) {
    Bound(s'.past, s'.sink) == Bound(s.past, s.sink)
  }

  lemma WriterFrame(s: Recorder, a: WriterAction)
    requires TableOk(s.table) && WriterEnabled(s, a)
    ensures ContractFrame(s, WriterStep(s, a)) && SameBound(s, WriterStep(s, a))
  {
    if a.CountTopic? {
      CountOneKeepsTable(s.table, s.thread.pc.topic);
      ShapeKeepsContract(s.table.topics, WriterStep(s, a).table.topics);
    }
  }

  lemma LifeBound(s: Recorder, a: LifeAction)
    requires LifeEnabled(s, a)
    ensures SameBound(s, LifeStep(s, a))
  {
  }

  lemma ReturnConfigured(e: Exec, callback: Callback)
    requires Configured(Return(e, callback))
    ensures callback == Deactivate || e.phase.Active? || e.phase.Inactive?
  {
  }

  lemma StopFrame(s: Recorder)
    requires s.exec.pc.Stopping?
    ensures ContractFrame(s, StopRecordingStep(s))
  {
    if Configured(Return(s.exec, s.exec.pc.callback)) {
      ReturnConfigured(s.exec, s.exec.pc.callback);
    }
  }

  lemma LifeFrame(s: Recorder, a: LifeAction)
    requires LifeEnabled(s, a) && !a.Configure?
    ensures ContractFrame(s, LifeStep(s, a))
  {
    match a
    case Activate =>
    case BeginStop(callback) => BeginStopFrame(s, callback);
    case StopRecording => StopFrame(s);
    case Clear => ClearFrame(s);
    case HaltThread =>
    case Join =>
    case CloseOnError =>
  }

  lemma ClearFrame(s: Recorder)
    requires s.exec.pc.Clearing?
    ensures ContractFrame(s, ClearStep(s))
  {
  }

  lemma BeginStopFrame(s: Recorder, callback: Callback)
    requires LifeEnabled(s, BeginStop(callback))
    ensures ContractFrame(s, BeginStopStep(s, callback))
  {
  }

  lemma RunBound(s: Recorder, a: RunAction)
    requires RunEnabled(s, a)
    ensures SameBound(s, RunStep(s, a))
  {
  }

  lemma RunConfigured(s: Recorder, a: RunAction)
    requires RunEnabled(s, a) && Configured(RunStep(s, a).exec) && !a.Deliver?
    ensures Configured(s.exec) && RunStep(s, a).table == s.table
  {
    if a.TickStop? {
      if s.sink.stopRequested {
      } else if IsCanceling(s) {
      } else if s.exec.limit - s.exec.pc.elapsed <= 0 {
      } else {
      }
    }
  }

  lemma DeliverFrame(s: Recorder, index: nat, data: Payload, now: int)
    requires TableOk(s.table)
    ensures ContractFrame(s, DeliverStep(s, index, data, now))
  {
    if !s.exec.recording {
      IdleKeepsTable(s.table, index, BufferedMessage(data, now));
      ShapeKeepsContract(s.table.topics, IdleMessage(s.table.topics, index, BufferedMessage(data, now)));
    }
  }

  lemma RunFrame(s: Recorder, a: RunAction)
    requires TableOk(s.table) && RunEnabled(s, a)
    ensures ContractFrame(s, RunStep(s, a))
  {
    match a
    case Deliver(position, length, now) =>
      var sub := s.table.topics[position].sub;
      DeliverFrame(s, sub.index, Payload(s.past.delivered, length, sub.name), now);
    case _ =>
      if Configured(RunStep(s, a).exec) {
        RunConfigured(s, a);
      }
  }

  lemma StartBound(s: Recorder, a: StartAction)
    requires StartEnabled(s, a) && !a.FlushHead?
    ensures SameBound(s, StartStep(s, a))
  {
  }

  lemma StartConfigured(s: Recorder, a: StartAction)
    requires StartEnabled(s, a) && Configured(StartStep(s, a).exec)
    ensures Configured(s.exec)
  {
  }

  lemma StartTable(s: Recorder, a: StartAction)
    requires StartEnabled(s, a)
    ensures var t := StartStep(s, a).table;
      match a
      case AcceptGoal(_, _, found) => var d := Discover(s.table, found); t == d.(topics := Resubscribe(d.topics))
      case StartService(found) =>
        t == s.table || (var d := Discover(s.table, found); t == d.(topics := Resubscribe(d.topics)))
      case OpenStorage(created, _) => t == s.table.(topics := ResetWritten(s.table.topics, created))
      case FlushHead(_, flushed) => t == s.table.(topics := FlushCounts(s.table.topics, flushed))
      case _ => t == s.table
  {
  }

  lemma StartFrame(s: Recorder, a: StartAction)
    requires TableOk(s.table) && StartEnabled(s, a)
    ensures ContractFrame(s, StartStep(s, a))
  {
    StartTable(s, a);
    if Configured(StartStep(s, a).exec) {
      StartConfigured(s, a);
    }
    StartSteps(s.table, a, StartStep(s, a).table);
  }

  /** What a start may do to the table keeps its contract part. */
  lemma StartSteps(t: Table, a: StartAction, t': Table)
    requires TableOk(t)
    requires match a
             case AcceptGoal(_, _, found) => var d := Discover(t, found); t' == d.(topics := Resubscribe(d.topics))
             case StartService(found) =>
               t' == t || (var d := Discover(t, found); t' == d.(topics := Resubscribe(d.topics)))
             case OpenStorage(created, _) => t' == t.(topics := ResetWritten(t.topics, created))
             case FlushHead(_, flushed) => t' == t.(topics := FlushCounts(t.topics, flushed))
             case _ => t' == t
    ensures ContractNames(t'.topics) == ContractNames(t.topics)
  {
    match a
    case AcceptGoal(_, _, found) => StartKeepsContract(t, found);
    case StartService(found) => StartKeepsContract(t, found);
    case OpenStorage(created, _) => ShapeKeepsContract(t.topics, ResetWritten(t.topics, created));
    case FlushHead(_, flushed) =>
      FlushKeepsTopics(t.topics, flushed);
      ShapeKeepsContract(t.topics, FlushCounts(t.topics, flushed));
    case _ =>
  }

  lemma FinishBound(s: Recorder, a: FinishAction)
    requires FinishEnabled(s, a)
    ensures SameBound(s, FinishStep(s, a))
  {
  }

  lemma FinishTable(s: Recorder, a: FinishAction)
    requires FinishEnabled(s, a)
    ensures FinishStep(s, a).table == if a.DestroyTopics? then DestroyDiscovered(s.table) else s.table
  {
  }

  lemma ReportConfigured(s: Recorder, metadataOk: bool)
    requires FinishEnabled(s, Report(metadataOk)) && Configured(ReportStep(s, metadataOk).exec)
    ensures Configured(s.exec)
  {
    if s.exec.goal.None? {
      ReturnConfigured(s.exec.(goalId := ""), s.exec.pc.ending.callback);
    }
  }

  lemma SettleConfigured(s: Recorder)
    requires FinishEnabled(s, CallSettle) && Configured(CallSettleStep(s).exec)
    ensures Configured(s.exec)
  {
    match s.exec.pc.after
    case AfterFailedStart =>
    case AfterCancelledStart(_) =>
    case AfterFinish(callback) => ReturnConfigured(s.exec.(goal := None, goalId := ""), callback);
  }

  lemma CloseConfigured(s: Recorder, a: FinishAction)
    requires FinishEnabled(s, a) && (a.CloseBag? || a.DestroyTopics? || a.TestCanceling?)
    requires Configured(FinishStep(s, a).exec)
    ensures Configured(s.exec)
  {
  }

  lemma DrainConfigured(s: Recorder, a: FinishAction)
    requires FinishEnabled(s, a) && IsDrain(a) && Configured(FinishStep(s, a).exec)
    ensures Configured(s.exec)
  {
    var e', ending := FinishStep(s, a).exec, s.exec.pc.ending;
    match a {
      case BeginDrain =>
        assert e' == s.exec.(pc := Closing(ending)) || e' == s.exec.(pc := Draining(ending));
      case WakeDrain =>
        assert e' == s.exec.(pc := Closing(ending));
      case DrainTimeout =>
        assert e' == s.exec.(pc := Closing(ending));
      case _ =>
    }
  }

  lemma FinishConfigured(s: Recorder, a: FinishAction)
    requires FinishEnabled(s, a) && Configured(FinishStep(s, a).exec)
    ensures Configured(s.exec)
  {
    match a
    case Report(metadataOk) => ReportConfigured(s, metadataOk);
    case CallSettle => SettleConfigured(s);
    case _ => if IsDrain(a) { DrainConfigured(s, a); } else { CloseConfigured(s, a); }
  }

  lemma FinishFrame(s: Recorder, a: FinishAction)
    requires TableOk(s.table) && FinishEnabled(s, a)
    ensures ContractFrame(s, FinishStep(s, a))
  {
    FinishTable(s, a);
    if Configured(FinishStep(s, a).exec) {
      FinishConfigured(s, a);
    }
    DestroyKeepsContract(s.table);
  }

  lemma FrameKeepsContract(contract: seq<string>, first: nat, s: Recorder, s': Recorder)
    requires SameContract(contract, first, s) && ContractFrame(s, s')
    requires SameRegistered(s.past, s.sink, s'.past, s'.sink)
    requires forall n :: Bound(s.past, s.sink) <= n < Bound(s'.past, s'.sink) ==>
      contract <= RegisteredIn(s'.past, s'.sink, n)
    ensures SameContract(contract, first, s')
  {
  }

  /** A newly opened bag registers the table, contract part first. */
  lemma FlushRegistersContract(contract: seq<string>, s: Recorder, start: int, flushed: nat)
    requires StartEnabled(s, FlushHead(start, flushed)) && EpisodeOk(s.exec) && s.sink.writer.None?
    requires s.exec.pc.registered == Names(s.table.topics)
    requires Configured(s.exec) ==> ContractNames(s.table.topics) == contract
    ensures var s' := FlushHeadStep(s, start, flushed);
      Bound(s'.past, s'.sink) == Bound(s.past, s.sink) + 1
      && contract <= RegisteredIn(s'.past, s'.sink, Bound(s.past, s.sink))
  {
  }

  lemma FlushKeepsSame(contract: seq<string>, first: nat, s: Recorder, start: int, flushed: nat)
    requires TableOk(s.table) && EpisodeOk(s.exec) && SameContract(contract, first, s)
    requires StartEnabled(s, FlushHead(start, flushed))
    requires s.sink.writer.None? && s.exec.pc.registered == Names(s.table.topics)
    ensures SameContract(contract, first, FlushHeadStep(s, start, flushed))
  {
    StartFrame(s, FlushHead(start, flushed));
    StartKeepsRegistered(s, FlushHead(start, flushed));
    FlushRegistersContract(contract, s, start, flushed);
    FrameKeepsContract(contract, first, s, FlushHeadStep(s, start, flushed));
  }

  lemma StartKeepsSame(contract: seq<string>, first: nat, s: Recorder, a: StartAction)
    requires Control(s) && Bags(s) && SameContract(contract, first, s) && StartEnabled(s, a)
    ensures SameContract(contract, first, StartStep(s, a))
  {
    if a.FlushHead? {
      FlushKeepsSame(contract, first, s, a.start, a.flushed);
    } else {
      StartFrame(s, a);
      StartKeepsRegistered(s, a);
      StartBound(s, a);
      FrameKeepsContract(contract, first, s, StartStep(s, a));
    }
  }

  lemma StepKeepsContract(contract: seq<string>, first: nat, s: Recorder, a: Action)
    requires Control(s) && Bags(s) && SameContract(contract, first, s)
    requires Enabled(s, a) && !(a.Life? && a.life.Configure?)
    ensures SameContract(contract, first, Step(s, a))
  {
    match a
    case Writer(writer) =>
      WriterFrame(s, writer);
      WriterKeepsRegistered(s, writer);
      FrameKeepsContract(contract, first, s, WriterStep(s, writer));
    case Life(life) =>
      LifeFrame(s, life);
      LifeBound(s, life);
      LifeKeepsRegistered(s, life);
      FrameKeepsContract(contract, first, s, LifeStep(s, life));
    case Start(start) => StartKeepsSame(contract, first, s, start);
    case Run(run) =>
      RunFrame(s, run);
      RunBound(s, run);
      RunKeepsRegistered(s, run);
      FrameKeepsContract(contract, first, s, RunStep(s, run));
    case Finish(finish) =>
      FinishFrame(s, finish);
      FinishBound(s, finish);
      FinishKeepsRegistered(s, finish);
      FrameKeepsContract(contract, first, s, FinishStep(s, finish));
    case CancelLands(_) =>
  }

  predicate NoConfigure(schedule: seq<Action>) {
    forall i :: 0 <= i < |schedule| ==> !(schedule[i].Life? && schedule[i].life.Configure?)
  }

  lemma {:induction false} RunKeepsContract(contract: seq<string>, first: nat, s: Recorder, schedule: seq<Action>)
    requires Reachable(s) && SameContract(contract, first, s) && IsRun(s, schedule) && NoConfigure(schedule)
    ensures SameContract(contract, first, Outcome(s, schedule))
    decreases |schedule|
  {
    if schedule != [] {
      ReachableControl(s);
      ReachableBags(s);
      ReachableStep(s, schedule[0]);
      StepKeepsContract(contract, first, s, schedule[0]);
      RunKeepsContract(contract, first, Step(s, schedule[0]), schedule[1..]);
    }
  }

  lemma ContractNow(s: Recorder)
    requires Reachable(s) && Configured(s.exec)
    ensures SameContract(ContractNames(s.table.topics), |s.past.closed|, s)
  {
    ReachableBags(s);
  }

  /**
    From a configured state on, through any run without another configure, every message of a contract
    topic that is written at all is written under the topic that delivered it, in whichever bag.
   */
  lemma ContractTopicsKeepTheirName(s: Recorder, schedule: seq<Action>, i: nat)
    requires Reachable(s) && Configured(s.exec) && IsRun(s, schedule) && NoConfigure(schedule)
    requires var p := Outcome(s, schedule).past;
      && i < |p.handled| && p.handled[i].fate.Written?
      && p.handled[i].msg.episode >= |s.past.closed|
      && p.handled[i].msg.topic < ContractCount(s.table.topics)
    ensures var x := Outcome(s, schedule).past.handled[i]; x.fate.name == x.msg.data.source
  {
    var contract, s' := ContractNames(s.table.topics), Outcome(s, schedule);
    ContractNow(s);
    RunKeepsContract(contract, |s.past.closed|, s, schedule);
    RunReaches(s, schedule);
    RightNameIff(s', i);
    NeverEarlier(s', i);
    var x := s'.past.handled[i];
    assert contract <= RegisteredIn(s'.past, s'.sink, x.msg.episode);
    assert contract <= RegisteredIn(s'.past, s'.sink, x.fate.bag);
  }

  lemma NeverEarlier(s: Recorder, i: nat)
    requires Reachable(s) && i < |s.past.handled| && s.past.handled[i].fate.Written?
    ensures s.past.handled[i].msg.episode <= s.past.handled[i].fate.bag
  {
    ReachableBags(s);
    assert HandledOk(s.past.handled[i], |s.past.closed|, Bound(s.past, s.sink));
  }
}
