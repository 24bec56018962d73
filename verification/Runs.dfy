/** Every interleaving of the two threads, over any number of episodes, and what all of them keep. */
module Runs {
  import opened RecorderTypes
  import opened RecorderState
  import opened WriterSteps
  import opened ExecutorSteps
  import opened ControlInvariant
  import opened FlowInvariant
  import opened BagInvariant
  import opened CountInvariant
  import opened DrainInvariant
  import opened GoalInvariant
  import opened StampInvariant
  import opened FailureInvariant
  import opened TopicCounts
  import BagPreserved

  /** One step of either thread, or a cancel landing at the action server at any moment. */
  datatype Action =
    | Writer(writer: WriterAction)
    | Life(life: LifeAction)
    | Start(start: StartAction)
    | Run(run: RunAction)
    | Finish(finish: FinishAction)
    | CancelLands(goal: Uuid)

  predicate Enabled(s: Recorder, a: Action) {
    match a
    case Writer(writer) => WriterEnabled(s, writer)
    case Life(life) => LifeEnabled(s, life)
    case Start(start) => StartEnabled(s, start)
    case Run(run) => RunEnabled(s, run)
    case Finish(finish) => FinishEnabled(s, finish)
    case CancelLands(_) => true
  }

  function Step(s: Recorder, a: Action): Recorder
    requires Enabled(s, a)
  {
    match a
    case Writer(writer) => WriterStep(s, writer)
    case Life(life) => LifeStep(s, life)
    case Start(start) => StartStep(s, start)
    case Run(run) => RunStep(s, run)
    case Finish(finish) => FinishStep(s, finish)
    case CancelLands(goal) => CancelGoal(s, goal)
  }

  /** A schedule that can be followed from `s`. */
  predicate IsRun(s: Recorder, schedule: seq<Action>)
    decreases |schedule|
  {
    schedule == []
    || (Enabled(s, schedule[0]) && IsRun(Step(s, schedule[0]), schedule[1..]))
  }

  function Outcome(s: Recorder, schedule: seq<Action>): Recorder
    requires IsRun(s, schedule)
    decreases |schedule|
  {
    if schedule == [] then s else Outcome(Step(s, schedule[0]), schedule[1..])
  }

  predicate Follows(s: Recorder, a: Action, s': Recorder) {
    Enabled(s, a) && s' == Step(s, a)
  }

  /** The states of a whole run, from the start. */
  ghost predicate IsHistory(states: seq<Recorder>, schedule: seq<Action>) {
    && |states| == |schedule| + 1
    && (exists defaultLimit: int :: states[0] == Initial(defaultLimit))
    && forall i {:trigger schedule[i]} :: 0 <= i < |schedule| ==> Follows(states[i], schedule[i], states[i + 1])
  }

  ghost predicate Reachable(s: Recorder) {
    exists states: seq<Recorder>, schedule: seq<Action> ::
      IsHistory(states, schedule) && states[|schedule|] == s
  }

  lemma ReachableInitial(defaultLimit: int)
    ensures Reachable(Initial(defaultLimit))
  {
    var states: seq<Recorder>, schedule: seq<Action> := [Initial(defaultLimit)], [];
    assert IsHistory(states, schedule) && states[|schedule|] == Initial(defaultLimit);
  }

  lemma ReachableNext(s: Recorder, a: Action, s': Recorder)
    requires Reachable(s) && Follows(s, a, s')
    ensures Reachable(s')
  {
    var states: seq<Recorder>, schedule: seq<Action> :| IsHistory(states, schedule) && states[|schedule|] == s;
    var states', schedule' := states + [s'], schedule + [a];
    forall i | 0 <= i < |schedule'| ensures Follows(states'[i], schedule'[i], states'[i + 1]) {
      if i < |schedule| {
        assert Follows(states[i], schedule[i], states[i + 1]);
      }
    }
    assert IsHistory(states', schedule') && states'[|schedule'|] == s';
  }

  lemma ReachableStep(s: Recorder, a: Action)
    requires Reachable(s) && Enabled(s, a)
    ensures Reachable(Step(s, a))
  {
    ReachableNext(s, a, Step(s, a));
  }

  lemma ReachableWriter(s: Recorder, a: WriterAction)
    requires Reachable(s) && WriterEnabled(s, a)
    ensures Reachable(WriterStep(s, a))
  {
    ReachableNext(s, Writer(a), WriterStep(s, a));
  }

  lemma ReachableLife(s: Recorder, a: LifeAction)
    requires Reachable(s) && LifeEnabled(s, a)
    ensures Reachable(LifeStep(s, a))
  {
    ReachableNext(s, Life(a), LifeStep(s, a));
  }

  lemma ReachableStart(s: Recorder, a: StartAction)
    requires Reachable(s) && StartEnabled(s, a)
    ensures Reachable(StartStep(s, a))
  {
    ReachableNext(s, Start(a), StartStep(s, a));
  }

  lemma ReachableRun(s: Recorder, a: RunAction)
    requires Reachable(s) && RunEnabled(s, a)
    ensures Reachable(RunStep(s, a))
  {
    ReachableNext(s, Run(a), RunStep(s, a));
  }

  lemma ReachableFinish(s: Recorder, a: FinishAction)
    requires Reachable(s) && FinishEnabled(s, a)
    ensures Reachable(FinishStep(s, a))
  {
    ReachableNext(s, Finish(a), FinishStep(s, a));
  }

  /** Any schedule that can be followed from a reachable state ends in one. */
  lemma {:induction false} RunReaches(s: Recorder, schedule: seq<Action>)
    requires Reachable(s) && IsRun(s, schedule)
    ensures Reachable(Outcome(s, schedule))
    decreases |schedule|
  {
    if schedule != [] {
      ReachableStep(s, schedule[0]);
      RunReaches(Step(s, schedule[0]), schedule[1..]);
    }
  }

  // ---------- The invariant ----------

  predicate FeedbackOk(p: Past) {
    forall i :: 0 <= i < |p.feedback| ==> p.feedback[i].elapsed < p.feedback[i].limit
  }

  ghost predicate Inv(s: Recorder) {
    && Control(s)
    && LineOk(s.past, s.thread, s.queue)
    && Bags(s)
    && Counts(s)
    && DrainOk(s.past, s.thread, s.exec)
    && Goaled(s)
    && Stamped(s)
    && FailuresOk(s)
    && TopicCountsOk(s)
    && FeedbackOk(s.past)
  }

  lemma InitialBooks(s: Recorder, defaultLimit: int)
    requires s == Initial(defaultLimit)
    ensures LineOk(s.past, s.thread, s.queue) && Counts(s) && DrainOk(s.past, s.thread, s.exec) && FeedbackOk(s.past)
    ensures TopicCountsOk(s)
  {
    InitialTopicCounts(defaultLimit);
    InitialCounts(defaultLimit);
    InitialDrain(defaultLimit);
  }

  lemma InitialOwners(s: Recorder, defaultLimit: int)
    requires s == Initial(defaultLimit)
    ensures Goaled(s) && Stamped(s) && FailuresOk(s)
  {
    InitialGoals(defaultLimit);
    InitialStamps(defaultLimit);
    InitialFailures(defaultLimit);
  }

  lemma InvOf(s: Recorder)
    requires Control(s) && Bags(s) && Goaled(s) && Stamped(s) && FailuresOk(s) && FeedbackOk(s.past)
    requires LineOk(s.past, s.thread, s.queue) && Counts(s) && TopicCountsOk(s) && DrainOk(s.past, s.thread, s.exec)
    ensures Inv(s)
  {
  }

  lemma InitialInv(defaultLimit: int)
    ensures Inv(Initial(defaultLimit))
  {
    InitialControl(defaultLimit);
    InitialBags(defaultLimit);
    InitialBooks(Initial(defaultLimit), defaultLimit);
    InitialOwners(Initial(defaultLimit), defaultLimit);
    InvOf(Initial(defaultLimit));
  }

  lemma CountsContext(s: Recorder)
    requires Control(s) && NameOk(s.past, s.thread, s.queue, s.sink, s.table, s.exec)
    ensures HoldsWriterMutex(s.thread.pc) ==> s.sink.writer.Some?
    ensures s.thread.pc.Counted? ==> s.thread.pc.topic < |s.table.topics|
    ensures s.exec.pc.Destroying? || s.exec.pc.Reporting? || Starting(s.exec) ==> s.sink.writer.None?
  {
  }

  lemma WriterKeepsAllCounts(s: Recorder, a: WriterAction)
    requires Control(s) && NameOk(s.past, s.thread, s.queue, s.sink, s.table, s.exec)
    requires Counts(s) && WriterEnabled(s, a)
    ensures Counts(WriterStep(s, a))
  {
    CountsContext(s);
    WriterKeepsCounts(s, a);
    WriterKeepsDrops(s, a);
  }

  lemma WriterKeepsFlow(s: Recorder, a: WriterAction)
    requires Control(s) && Bags(s) && LineOk(s.past, s.thread, s.queue) && DrainOk(s.past, s.thread, s.exec)
    requires WriterEnabled(s, a)
    ensures var s' := WriterStep(s, a);
      LineOk(s'.past, s'.thread, s'.queue) && DrainOk(s'.past, s'.thread, s'.exec)
  {
    WriterKeepsLineOk(s, a);
    WriterKeepsDrain(s, a);
  }

  lemma WriterKeepsInv(s: Recorder, a: WriterAction)
    requires Inv(s) && WriterEnabled(s, a)
    ensures Inv(WriterStep(s, a))
  {
    WriterKeepsControl(s, a);
    BagPreserved.WriterKeepsAllBags(s, a);
    WriterKeepsAllCounts(s, a);
    WriterKeepsFlow(s, a);
    WriterKeepsStamps(s, a);
    WriterKeepsFailed(s, a);
    WriterKeepsCounters(s, a);
    WriterKeepsTheRest(s, a);
  }

  lemma WriterKeepsCounters(s: Recorder, a: WriterAction)
    requires Control(s) && Bags(s) && TopicCountsOk(s) && WriterEnabled(s, a)
    ensures TopicCountsOk(WriterStep(s, a))
  {
    WriterKeepsTopicCounts(s, a);
  }

  lemma WriterKeepsFailed(s: Recorder, a: WriterAction)
    requires Control(s) && FailuresOk(s) && WriterEnabled(s, a)
    ensures FailuresOk(WriterStep(s, a))
  {
    WriterKeepsFailures(s, a);
  }

  lemma WriterKeepsTheRest(s: Recorder, a: WriterAction)
    requires Goaled(s) && FeedbackOk(s.past) && WriterEnabled(s, a)
    ensures var s' := WriterStep(s, a); Goaled(s') && FeedbackOk(s'.past)
  {
  }

  lemma LifeKeepsBooks(s: Recorder, a: LifeAction)
    requires Control(s) && LineOk(s.past, s.thread, s.queue) && Bags(s) && Counts(s) && LifeEnabled(s, a)
    ensures var s' := LifeStep(s, a); LineOk(s'.past, s'.thread, s'.queue) && Bags(s') && Counts(s')
  {
    LifeKeepsLineOk(s, a);
    BagPreserved.LifeKeepsBags(s, a);
    LifeKeepsCounts(s, a);
  }

  lemma LifeKeepsInv(s: Recorder, a: LifeAction)
    requires Inv(s) && LifeEnabled(s, a)
    ensures Inv(LifeStep(s, a))
  {
    LifeKeepsControl(s, a);
    LifeKeepsBooks(s, a);
    DrainInvariant.LifeFrame(s, a);
    FrameKeepsDrain(s, LifeStep(s, a));
    LifeKeepsGoals(s, a);
    LifeKeepsStamps(s, a);
    LifeKeepsFailed(s, a);
    TopicCounts.LifeFrame(s, a);
    FrameKeepsTopicCounts(s, LifeStep(s, a));
  }

  lemma LifeKeepsFailed(s: Recorder, a: LifeAction)
    requires Control(s) && FailuresOk(s) && LifeEnabled(s, a)
    ensures FailuresOk(LifeStep(s, a))
  {
    LifeKeepsFailures(s, a);
  }

  lemma StartKeepsBooks(s: Recorder, a: StartAction)
    requires Control(s) && LineOk(s.past, s.thread, s.queue) && Bags(s) && Counts(s) && StartEnabled(s, a)
    ensures var s' := StartStep(s, a); LineOk(s'.past, s'.thread, s'.queue) && Bags(s') && Counts(s')
  {
    StartKeepsLineOk(s, a);
    BagPreserved.StartKeepsBags(s, a);
    StartKeepsCounts(s, a);
  }

  lemma StartKeepsOwners(s: Recorder, a: StartAction)
    requires Control(s) && TagOk(s.past, s.thread, s.queue, s.sink) && DrainOk(s.past, s.thread, s.exec)
    requires Goaled(s) && Stamped(s) && StartEnabled(s, a)
    ensures var s' := StartStep(s, a); DrainOk(s'.past, s'.thread, s'.exec) && Goaled(s') && Stamped(s')
  {
    StartKeepsDrain(s, a);
    StartKeepsGoals(s, a);
    StartKeepsStamps(s, a);
  }

  lemma StartKeepsCounters(s: Recorder, a: StartAction)
    requires Control(s) && Bags(s) && TopicCountsOk(s) && StartEnabled(s, a)
    ensures TopicCountsOk(StartStep(s, a))
  {
    StartKeepsTopicCounts(s, a);
  }

  lemma StartPublishesNothing(s: Recorder, a: StartAction)
    requires StartEnabled(s, a)
    ensures StartStep(s, a).past.feedback == s.past.feedback
  {
  }

  lemma StartKeepsInv(s: Recorder, a: StartAction)
    requires Inv(s) && StartEnabled(s, a)
    ensures Inv(StartStep(s, a))
  {
    StartKeepsControl(s, a);
    StartKeepsBooks(s, a);
    StartKeepsOwners(s, a);
    StartKeepsFailures(s, a);
    StartKeepsCounters(s, a);
    StartPublishesNothing(s, a);
  }

  lemma RunKeepsInv(s: Recorder, a: RunAction)
    requires Inv(s) && RunEnabled(s, a)
    ensures Inv(RunStep(s, a))
  {
    RunKeepsControl(s, a);
    RunKeepsLineOk(s, a);
    BagPreserved.RunKeepsBags(s, a);
    RunKeepsCounts(s, a);
    RunKeepsDrain(s, a);
    RunKeepsGoals(s, a);
    RunKeepsStamps(s, a);
    RunKeepsFailed(s, a);
    TopicCounts.RunFrame(s, a);
    FrameKeepsTopicCounts(s, RunStep(s, a));
    RunKeepsFeedback(s, a);
  }

  lemma RunKeepsFailed(s: Recorder, a: RunAction)
    requires Control(s) && FailuresOk(s) && RunEnabled(s, a)
    ensures FailuresOk(RunStep(s, a))
  {
    RunKeepsFailures(s, a);
  }

  lemma RunKeepsFeedback(s: Recorder, a: RunAction)
    requires FeedbackOk(s.past) && RunEnabled(s, a)
    ensures FeedbackOk(RunStep(s, a).past)
  {
  }

  lemma FinishKeepsBooks(s: Recorder, a: FinishAction)
    requires Control(s) && LineOk(s.past, s.thread, s.queue) && Bags(s) && Counts(s) && FinishEnabled(s, a)
    ensures var s' := FinishStep(s, a); LineOk(s'.past, s'.thread, s'.queue) && Bags(s') && Counts(s')
  {
    FinishKeepsLineOk(s, a);
    BagPreserved.FinishKeepsBags(s, a);
    FinishKeepsCounts(s, a);
  }

  lemma FinishKeepsOwners(s: Recorder, a: FinishAction)
    requires Control(s) && Bags(s) && DrainOk(s.past, s.thread, s.exec)
    requires Goaled(s) && Stamped(s) && FinishEnabled(s, a)
    ensures var s' := FinishStep(s, a); DrainOk(s'.past, s'.thread, s'.exec) && Goaled(s') && Stamped(s')
  {
    FinishKeepsDrain(s, a);
    FinishKeepsGoals(s, a);
    FinishKeepsStamps(s, a);
  }

  lemma FinishPublishesNothing(s: Recorder, a: FinishAction)
    requires FinishEnabled(s, a)
    ensures FinishStep(s, a).past.feedback == s.past.feedback
  {
  }

  lemma FinishKeepsInv(s: Recorder, a: FinishAction)
    requires Inv(s) && FinishEnabled(s, a)
    ensures Inv(FinishStep(s, a))
  {
    FinishKeepsControl(s, a);
    FinishKeepsBooks(s, a);
    FinishKeepsOwners(s, a);
    FinishKeepsFailures(s, a);
    TopicCounts.FinishFrame(s, a);
    FrameKeepsTopicCounts(s, FinishStep(s, a));
    FinishPublishesNothing(s, a);
  }

  lemma CancelKeepsInv(s: Recorder, goal: Uuid)
    requires Inv(s)
    ensures Inv(CancelGoal(s, goal))
  {
    CancelKeepsGoals(s, goal);
  }

  lemma StepKeepsInv(s: Recorder, a: Action)
    requires Inv(s) && Enabled(s, a)
    ensures Inv(Step(s, a))
  {
    match a
    case Writer(writer) => WriterKeepsInv(s, writer);
    case Life(life) => LifeKeepsInv(s, life);
    case Start(start) => StartKeepsInv(s, start);
    case Run(run) => RunKeepsInv(s, run);
    case Finish(finish) => FinishKeepsInv(s, finish);
    case CancelLands(goal) => CancelKeepsInv(s, goal);
  }

  lemma {:induction false} HistoryKeepsInv(states: seq<Recorder>, schedule: seq<Action>, n: nat)
    requires IsHistory(states, schedule) && n <= |schedule|
    ensures Inv(states[n])
  {
    if n == 0 {
      var defaultLimit: int :| states[0] == Initial(defaultLimit);
      InitialInv(defaultLimit);
    } else {
      HistoryKeepsInv(states, schedule, n - 1);
      assert Follows(states[n - 1], schedule[n - 1], states[n]);
      StepKeepsInv(states[n - 1], schedule[n - 1]);
    }
  }

  /** The invariant holds in every state of every run. */
  lemma ReachableInv(s: Recorder)
    requires Reachable(s)
    ensures Inv(s)
  {
    var states: seq<Recorder>, schedule: seq<Action> :| IsHistory(states, schedule) && states[|schedule|] == s;
    HistoryKeepsInv(states, schedule, |schedule|);
  }

  // ---------- The parts of it, one by one ----------

  lemma ReachableControl(s: Recorder)
    requires Reachable(s)
    ensures Control(s)
  {
    ReachableInv(s);
  }

  lemma ReachableThread(s: Recorder)
    requires Reachable(s)
    ensures QueueOk(s.queue) && ThreadOk(s.thread)
    ensures HoldsWriterMutex(s.thread.pc) ==> s.sink.writer.Some?
  {
    ReachableControl(s);
  }

  lemma ReachableFree(s: Recorder)
    requires Reachable(s) && s.exec.pc.Opening?
    ensures Free(s) && s.sink.writer.None? && !s.exec.recording
  {
    ReachableControl(s);
  }

  lemma ReachableLine(s: Recorder)
    requires Reachable(s)
    ensures LineOk(s.past, s.thread, s.queue)
  {
    ReachableInv(s);
  }

  lemma ReachableBags(s: Recorder)
    requires Reachable(s)
    ensures Bags(s)
  {
    ReachableInv(s);
  }

  lemma ReachableCounts(s: Recorder)
    requires Reachable(s)
    ensures Counts(s)
  {
    ReachableInv(s);
  }

  lemma ReachableDrain(s: Recorder)
    requires Reachable(s)
    ensures DrainOk(s.past, s.thread, s.exec)
  {
    ReachableInv(s);
  }

  lemma ReachableGoals(s: Recorder)
    requires Reachable(s)
    ensures Goaled(s)
  {
    ReachableInv(s);
  }

  lemma ReachableStamps(s: Recorder)
    requires Reachable(s)
    ensures Stamped(s)
  {
    ReachableInv(s);
  }

  lemma ReachableFailures(s: Recorder)
    requires Reachable(s)
    ensures FailuresOk(s)
  {
    ReachableInv(s);
  }

  lemma ReachableTopicCounts(s: Recorder)
    requires Reachable(s)
    ensures TopicCountsOk(s)
  {
    ReachableInv(s);
  }
}
