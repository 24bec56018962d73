/** What holds in every reachable state: flush handshake, episodes, goals, bags, and who is told what. */
module RecorderTheorems {
  import opened RecorderTypes
  import opened GoalId
  import opened TopicTable
  import opened LatchedBuffers
  import opened MessageFlow
  import opened RecorderState
  import opened WriterSteps
  import opened ExecutorSteps
  import opened ControlInvariant
  import opened BagInvariant
  import opened CountInvariant
  import opened GoalInvariant
  import opened StampInvariant
  import opened FailureInvariant
  import opened TopicCounts
  import opened Runs
  import opened MessageTheorems

  // ---------- Queue and flush ----------

  lemma QueueBounds(s: Recorder)
    requires Reachable(s)
    ensures 0 <= s.queue.bytes == Bytes(s.queue.items) <= 536870912
    ensures |s.queue.items| <= 20000 && |s.thread.batch| <= 256
  {
    ReachableControl(s);
  }

  /** A message is dropped exactly when taking it would break one of the two true bounds. */
  lemma DroppedIffFull(s: Recorder, position: nat, length: nat, now: int)
    requires Reachable(s) && RunEnabled(s, Deliver(position, length, now)) && s.exec.recording
    ensures var s' := RunStep(s, Deliver(position, length, now));
      if |s.queue.items| + 1 > 20000 || Bytes(s.queue.items) + length > 536870912
      then s'.past.dropped == s.past.dropped + [s'.past.received[|s.past.received|]] && s'.queue == s.queue
      else s'.past.dropped == s.past.dropped && s'.queue.items == s.queue.items + [s'.past.received[|s.past.received|]]
  {
    ReachableControl(s);
  }

  /** While finish_recording waits, flush_done_ means nothing queued and nothing in hand. */
  lemma FlushDoneMeansEmpty(s: Recorder)
    requires Reachable(s) && s.exec.pc.Draining? && s.queue.flushDone
    ensures s.queue.items == [] && s.thread.batch == []
  {
    ReachableControl(s);
  }

  predicate IsDrain(a: FinishAction) {
    a.BeginDrain? || a.WakeDrain? || a.DrainTimeout?
  }

  /**
    Every way out of the wait, the immediate one on an empty queue included, leaves an empty queue and at
    most one batch in the writer's hands; none at all when the flush was answered.
   */
  lemma DrainExitBounded(s: Recorder, a: FinishAction)
    requires Reachable(s) && FinishEnabled(s, a) && IsDrain(a)
    ensures var s' := FinishStep(s, a);
      && (!a.BeginDrain? || s.queue.items == [] ==> s'.exec.pc.Closing?)
      && (s'.exec.pc.Closing? ==>
        && s'.queue.items == [] && s'.queue.bytes == 0 && !s'.queue.flushRequested
        && s'.thread.batch == s.thread.batch && |s.thread.batch| <= 256
        && (a.WakeDrain? && s.queue.flushDone ==> s.thread.batch == [])
        && (!a.DrainTimeout? ==> s'.past.abandoned == s.past.abandoned))
  {
    ReachableControl(s);
    match a
    case BeginDrain =>
    case WakeDrain =>
    case DrainTimeout =>
    case _ =>
  }

  /** How a wait ended is recorded as it was: answered, empty or timed out, with what was then in hand and lost. */
  lemma ExitRecorded(s: Recorder, a: FinishAction)
    requires Reachable(s) && FinishEnabled(s, a) && IsDrain(a) && FinishStep(s, a).exec.pc.Closing?
    ensures var n, p' := |s.past.closed|, FinishStep(s, a).past;
      && n in p'.exits
      && (p'.exits[n].kind.ByTimeout? <==> a.DrainTimeout?)
      && (p'.exits[n].kind.ByFlush? <==> a.WakeDrain? && s.queue.flushDone)
      && p'.exits[n].inHand == |s.thread.batch|
      && p'.exits[n].lost == (if a.DrainTimeout? then |s.queue.items| else 0)
      && p'.abandoned == s.past.abandoned + (if a.DrainTimeout? then s.queue.items else [])
      && forall m :: m in s.past.exits && m != n ==> m in p'.exits && p'.exits[m] == s.past.exits[m]
  {
    ReachableControl(s);
    match a
    case BeginDrain =>
    case WakeDrain =>
    case DrainTimeout =>
    case _ =>
  }

  // ---------- Episodes ----------

  /** What every callback finds, and leaves. */
  lemma CallbackBoundary(s: Recorder)
    requires Reachable(s) && s.exec.pc.Idle?
    ensures var e := s.exec;
      && !(e.recording && e.pending)
      && (e.recording <==> s.sink.writer.Some?) && (e.recording <==> e.tickTimer)
      && (e.pending <==> e.settleTimer)
      && (e.recording ==> s.queue.running && !s.thread.pc.Off?)
      && (e.recording || e.pending ==> e.accepting)
      && (e.goal.Some? ==> e.recording || e.pending)
      && (!e.recording ==> s.queue.items == [])
  {
    ReachableControl(s);
  }

  /** Once deactivated, cleaned up, shut down or recovered from an error, nothing is left running. */
  lemma NothingLeft(s: Recorder)
    requires Reachable(s) && s.exec.pc.Idle? && !s.exec.phase.Active?
    ensures !s.exec.accepting && !s.exec.recording && !s.exec.pending && s.exec.goal.None?
    ensures s.sink.writer.None? && s.queue.items == []
    ensures !s.exec.tickTimer && !s.exec.settleTimer
  {
    ReachableControl(s);
  }

  /** When cleanup or shutdown clears queue and table, the thread has ended and there is nothing to lose. */
  lemma ClearedAfterThread(s: Recorder)
    requires Reachable(s) && s.exec.pc.Clearing?
    ensures s.thread.pc.Off? && s.thread.batch == [] && s.queue.items == [] && s.sink.writer.None?
    ensures ClearStep(s).past.abandoned == s.past.abandoned
  {
    ReachableControl(s);
  }

  /** No reachable state is stuck: inside a callback, one of the threads can always move. */
  lemma NeverStuck(s: Recorder) returns (a: Action)
    requires Reachable(s) && !s.exec.pc.Idle?
    ensures Enabled(s, a) && (a.Writer? || a.Finish? || a.Start? || a.Life? || a.Run?)
  {
    ReachableControl(s);
    ReachableBags(s);
    ReachableGoals(s);
    if HoldsWriterMutex(s.thread.pc) || (s.exec.pc.Joining? && !s.thread.pc.Off?) {
      var w := WriterInside(s);
      a := Writer(w);
    } else if InOpening(s.exec.pc) {
      var start := OpeningNext(s);
      a := Start(start);
    } else if InFinish(s.exec.pc) || InSettle(s.exec.pc) {
      var finish := FinishNext(s);
      a := Finish(finish);
    } else if s.exec.pc.Ticking? {
      a := Run(TickStop);
    } else {
      var life := LifeNext(s);
      a := Life(life);
    }
  }

  /** The writer thread only ever waits at the top of its loop. */
  lemma WriterInside(s: Recorder) returns (w: WriterAction)
    requires ThreadOk(s.thread) && (HoldsWriterMutex(s.thread.pc) ==> s.sink.writer.Some?)
    requires !s.thread.pc.Off? && (s.thread.pc.Top? ==> WakeUp(s.queue))
    ensures WriterEnabled(s, w)
  {
    match s.thread.pc
    case Top => w := Take;
    case Holding => w := Lock;
    case Between => w := if s.thread.batch == [] then Unlock else Lookup;
    case Looked(_) => w := Write(true);
    case Stored(_) => w := Count;
    case Counted(_) => w := CountTopic;
    case Failing => w := RaiseStop;
    case Checking => w := Check;
  }

  lemma OpeningNext(s: Recorder) returns (a: StartAction)
    requires InOpening(s.exec.pc) && Free(s)
    ensures StartEnabled(s, a)
  {
    match s.exec.pc
    case Opening(_) => a := OpenStorage(0, false);
    case Opened(_, _) => a := FlushHead(0, 0);
    case Flushed(_) => a := SpawnThread;
    case Spawned(_) => a := GoLive(0);
    case OpenFailed(_) => a := AbortOpen;
  }

  lemma FinishNext(s: Recorder) returns (a: FinishAction)
    requires (InFinish(s.exec.pc) || InSettle(s.exec.pc)) && Free(s)
    requires s.exec.pc.Closing? ==> s.sink.writer.Some?
    requires s.exec.pc.Reporting? ==> s.past.closed != []
    requires InSettle(s.exec.pc) ==> s.exec.goal.Some? && s.exec.goal.value in s.goals.state
    ensures FinishEnabled(s, a)
  {
    match s.exec.pc
    case Finishing(_) => a := BeginDrain;
    case Draining(_) => a := if Drained(s.queue) then WakeDrain else DrainTimeout;
    case Closing(_) => a := CloseBag;
    case Destroying(_) => a := DestroyTopics;
    case Reporting(_) => a := Report(true);
    case Settling(_, _) => a := TestCanceling;
    case SettleCall(_, _, _) => a := CallSettle;
  }

  lemma LifeNext(s: Recorder) returns (a: LifeAction)
    requires (s.exec.pc.Stopping? || InShutdown(s.exec.pc)) && Free(s)
    requires s.exec.pc.Joining? ==> s.thread.pc.Off?
    ensures LifeEnabled(s, a)
  {
    match s.exec.pc
    case Stopping(_) => a := StopRecording;
    case Halting(_) => a := HaltThread;
    case Joining(_) => a := Join;
    case Clearing(_) => a := Clear;
    case ErrorClosing => a := CloseOnError;
  }

  // ---------- Counters and results ----------

  /** Between two messages of an open bag every count is exact: messages, messages by topic, drops. */
  lemma CountsAgree(s: Recorder)
    requires Reachable(s) && s.sink.writer.Some? && !s.thread.pc.Stored? && !s.thread.pc.Counted?
    ensures s.sink.messagesWritten == |s.sink.writer.value.entries| == SumWritten(s.table.topics)
    ensures forall i :: 0 <= i < |s.table.topics| ==>
      s.table.topics[i].written == CountName(s.sink.writer.value.entries, s.table.topics[i].spec.topic)
    ensures s.exec.dropped == |OfEpisode(s.past.dropped, |s.past.closed|)|
  {
    ReachableCounts(s);
    ReachableTopicCounts(s);
  }

  /** Every result sent names a bag of the goal that got it, and counts that bag's messages. */
  lemma ResultsAreTrue(s: Recorder, i: nat)
    requires Reachable(s) && i < |s.goals.settled|
    ensures var r := s.goals.settled[i].result;
      match r.bag
      case None => r.written == 0
      case Some(n) =>
        && n < |s.past.closed|
        && r.written == |s.past.closed[n].entries|
        && s.past.closed[n].starter == Some(s.goals.settled[i].goal)
  {
    ReachableCounts(s);
    ReachableStamps(s);
    assert ResultOk(s.goals.settled[i].result, s.past);
    assert Owned(s.goals.settled[i].result, Some(s.goals.settled[i].goal), s.past);
  }

  /** A result names the drops of its bag's episode exactly when there were any and the metadata was written. */
  lemma DropsToldIff(s: Recorder, i: nat)
    requires Reachable(s) && i < |s.goals.settled|
    ensures var r := s.goals.settled[i].result;
      match r.bag
      case None => r.dropped.None?
      case Some(n) =>
        var drops := |OfEpisode(s.past.dropped, n)|;
        && (r.dropped == Some(drops) <==> drops > 0 && r.metadataOk)
        && (r.dropped == None <==> drops == 0 || !r.metadataOk)
  {
    ReachableCounts(s);
    assert ResultOk(s.goals.settled[i].result, s.past);
  }

  lemma FeedbackBeforeLimit(s: Recorder, i: nat)
    requires Reachable(s) && i < |s.past.feedback|
    ensures s.past.feedback[i].elapsed < s.past.feedback[i].limit
  {
    ReachableInv(s);
  }

  // ---------- Bags ----------

  /**
    A bag that is being recorded into, or was, opens with the last `depth` eligible messages of every
    topic, in topic order, all at the bag-start time; its registered topics are the table's, position by
    position.
   */
  lemma BagHead(s: Recorder, n: nat)
    requires Reachable(s) && n < Bound(s.past, s.sink)
    requires if n < |s.past.closed| then n in s.past.exits else s.exec.recording
    ensures var bag := BagAt(s, n);
      && HeadEntries(bag.origin, bag.start) <= bag.entries
      && AllLatched(bag.origin)
      && bag.registered == Names(bag.origin)
  {
    ReachableBags(s);
    BagAtOk(s, n);
    HeadIsPrefix(BagAt(s, n), s.past.handled, n);
  }

  lemma HeadIsPrefix(bag: Bag, handled: seq<Handled>, n: nat)
    requires BagMatches(bag, handled, n) && Complete(bag)
    ensures HeadEntries(bag.origin, bag.start) <= bag.entries
  {
    var head := HeadEntries(bag.origin, bag.start);
    assert head[..bag.headLength] == head;
  }

  /** A message written in its own episode is written under the topic that delivered it, a registered one. */
  lemma WrittenUnderItsTopic(s: Recorder, i: nat)
    requires Reachable(s) && i < |s.past.handled|
    ensures var x := s.past.handled[i];
      x.fate.Written? ==>
        && x.fate.bag < Bound(s.past, s.sink)
        && x.fate.name in BagAt(s, x.fate.bag).registered
        && x.msg.episode <= x.fate.bag
        && (x.msg.episode == x.fate.bag ==> x.fate.name == x.msg.data.source)
  {
    ReachableBags(s);
    WrittenName(s, i);
  }

  lemma WrittenName(s: Recorder, i: nat)
    requires TagOk(s.past, s.thread, s.queue, s.sink) && HandledNamedOk(s.past, s.sink) && i < |s.past.handled|
    ensures var x := s.past.handled[i];
      x.fate.Written? ==>
        && x.msg.episode <= x.fate.bag < Bound(s.past, s.sink)
        && NamedOk(x, RegisteredIn(s.past, s.sink, x.fate.bag))
  {
    assert HandledOk(s.past.handled[i], |s.past.closed|, Bound(s.past, s.sink));
  }

  /** Callbacks hold their own position, names are distinct, discovered topics come last. */
  lemma TableAlwaysValid(s: Recorder)
    requires Reachable(s)
    ensures ValidTable(s.table) && AllLatched(s.table.topics)
  {
    ReachableBags(s);
  }

  /** A message delivered while idle reaches the topic it was published on, and no other topic changes. */
  lemma IdleDelivery(s: Recorder, position: nat, length: nat, now: int)
    requires Reachable(s) && RunEnabled(s, Deliver(position, length, now)) && !s.exec.recording
    ensures var topic := s.table.topics[position];
      RunStep(s, Deliver(position, length, now)).table.topics ==
        s.table.topics[position :=
          Buffered(topic, BufferedMessage(Payload(s.past.delivered, length, topic.spec.topic), now))]
  {
    TableAlwaysValid(s);
  }

  /** The goal id in a bag's metadata is that of the goal that started it, unless a service call detached it. */
  lemma Provenance(s: Recorder, n: nat)
    requires Reachable(s) && n < |s.past.closed| && s.past.closed[n].metadata.Some?
    ensures var bag := s.past.closed[n];
      bag.metadata.value == if bag.starter.Some? && !bag.detached then FormatGoalId(bag.starter.value) else ""
    ensures forall goal ::
      s.past.closed[n].metadata.value == FormatGoalId(goal) ==> s.past.closed[n].starter == Some(goal)
  {
    ReachableStamps(s);
    var bag := s.past.closed[n];
    assert StampedOk(bag);
    forall goal | bag.metadata.value == FormatGoalId(goal) ensures bag.starter == Some(goal) {
      DashesShown(goal);
      ParseFormat(goal);
      if bag.starter.Some? { ParseFormat(bag.starter.value); }
    }
  }

  function StampText(starter: Option<Uuid>, detached: bool): string {
    if starter.Some? && !detached then FormatGoalId(starter.value) else ""
  }

  /** Reporting stamps the last bag: with its goal's id, or with nothing when there is none; unless that fails. */
  lemma MetadataWritten(s: Recorder, metadataOk: bool)
    requires Reachable(s) && FinishEnabled(s, Report(metadataOk))
    ensures var n, p' := |s.past.closed| - 1, FinishStep(s, Report(metadataOk)).past;
      && |p'.closed| == n + 1 && (forall i :: 0 <= i < n ==> p'.closed[i] == s.past.closed[i])
      && p'.closed[n].starter == s.exec.starter && p'.closed[n].entries == s.past.closed[n].entries
      && (p'.closed[n].metadata.Some? <==> metadataOk)
      && (metadataOk ==> p'.closed[n].metadata.value == StampText(s.exec.starter, s.exec.detached))
  {
    ReachableStamps(s);
  }

  // ---------- Goals ----------

  function SettledCount(settled: seq<Settlement>, goal: Uuid): nat
    decreases |settled|
  {
    if settled == [] then 0
    else SettledCount(settled[..|settled| - 1], goal) + (if settled[|settled| - 1].goal == goal then 1 else 0)
  }

  lemma {:induction false} SettledAtMostOnce(settled: seq<Settlement>, goal: Uuid)
    requires forall i, j :: 0 <= i < j < |settled| ==> settled[i].goal != settled[j].goal
    ensures SettledCount(settled, goal) == if exists i :: 0 <= i < |settled| && settled[i].goal == goal then 1 else 0
    decreases |settled|
  {
    if settled != [] {
      var front, last := settled[..|settled| - 1], settled[|settled| - 1];
      SettledAtMostOnce(front, goal);
      if i :| 0 <= i < |settled| && settled[i].goal == goal {
        assert last.goal == goal || front[i].goal == goal;
        assert forall k :: 0 <= k < |front| ==> front[k] == settled[k];
      }
    }
  }

  /** Every accepted goal is settled once, or live, or released, and only one of the three. */
  lemma GoalFates(s: Recorder, goal: Uuid)
    requires Reachable(s) && goal in s.goals.state
    ensures SettledCount(s.goals.settled, goal)
            + (if s.exec.goal == Some(goal) then 1 else 0)
            + (if goal in s.goals.released then 1 else 0) == 1
    ensures s.exec.pc.Idle? && !s.exec.recording && !s.exec.pending && goal !in s.goals.released ==>
      SettledCount(s.goals.settled, goal) == 1
  {
    ReachableGoals(s);
    ReachableControl(s);
    FateIsUnique(s.goals, s.exec.goal, goal);
  }

  lemma ReleasedGrows(s: Recorder, a: Action)
    requires Enabled(s, a)
    ensures s.goals.released <= Step(s, a).goals.released
    ensures s.goals.state.Keys <= Step(s, a).goals.state.Keys
  {
  }

  lemma {:induction false} StaysReleased(s: Recorder, schedule: seq<Action>)
    requires IsRun(s, schedule)
    ensures s.goals.released <= Outcome(s, schedule).goals.released
    ensures s.goals.state.Keys <= Outcome(s, schedule).goals.state.Keys
    decreases |schedule|
  {
    if schedule != [] {
      ReleasedGrows(s, schedule[0]);
      StaysReleased(Step(s, schedule[0]), schedule[1..]);
    }
  }

  /** A goal that ~/start_recording has let go is never settled, however the run goes on. */
  lemma ReleasedNeverSettled(s: Recorder, goal: Uuid, schedule: seq<Action>)
    requires Reachable(s) && goal in s.goals.released && goal in s.goals.state && IsRun(s, schedule)
    ensures SettledCount(Outcome(s, schedule).goals.settled, goal) == 0
  {
    StaysReleased(s, schedule);
    RunReaches(s, schedule);
    GoalFates(Outcome(s, schedule), goal);
  }

  lemma FateIsUnique(g: Goals, live: Option<Uuid>, goal: Uuid)
    requires FatesOk(g, live) && goal in g.state
    ensures SettledCount(g.settled, goal) + (if live == Some(goal) then 1 else 0)
            + (if goal in g.released then 1 else 0) == 1
  {
    SettledAtMostOnce(g.settled, goal);
  }

  /** Whatever lands between the test and the call, settle_goal's call is legal. */
  lemma SettleAlwaysLegal(s: Recorder)
    requires Reachable(s) && FinishEnabled(s, CallSettle)
    ensures Legal(s.goals.state[s.exec.goal.value], Verdict(s.exec.pc.result.reason, s.exec.pc.sawCanceling))
    ensures !Running(CallSettleStep(s).goals.state[s.exec.goal.value])
  {
    ReachableGoals(s);
    SettleIsLegal(s);
  }

  /** A tick ends the episode with a failure exactly when a write into the open bag has failed by then. */
  lemma TickSeesFailure(s: Recorder, now: int)
    requires Reachable(s) && RunEnabled(s, Tick(now))
    ensures var pc := RunStep(s, Tick(now)).exec.pc;
      if FailedIn(s.past.handled, |s.past.closed|) then pc.Finishing? && pc.ending.reason.Failure? else pc.Ticking?
  {
    ReachableControl(s);
    ReachableFailures(s);
  }

  /**
    CANCELED exactly when the test saw CANCELING. SUCCEEDED only when a tick ended the episode, no write into
    its bag had failed when that tick looked, and the metadata was written.
   */
  lemma VerdictMeaning(s: Recorder, i: nat)
    requires Reachable(s) && i < |s.goals.settled|
    ensures var x := s.goals.settled[i];
      && x.goal in s.goals.state && s.goals.state[x.goal] == x.verdict
      && (x.verdict == Canceled <==> x.sawCanceling)
      && (x.verdict == Succeeded ==>
        && (x.result.reason.Timeout? || x.result.reason.Stopped?)
        && x.result.bag.Some? && x.result.metadataOk && EndedByTick(x.result)
        && !FailedIn(Loaded(x.result, s.past.handled), x.result.bag.value))
      && (x.result.reason.Cancelled? ==> x.verdict == Canceled)
  {
    ReachableGoals(s);
    ReachableFailures(s);
    assert SettlementOk(s.goals, s.goals.settled[i]);
    assert OutcomeOk(s.goals.settled[i].result, s.past.handled, |s.past.closed|);
  }

  predicate EndedByTick(r: Result) {
    r.end.Ended? && r.end.ending.loaded.Some?
  }

  /** What had been handled when the tick that ended the episode loaded write_failed_. */
  function Loaded(r: Result, handled: seq<Handled>): seq<Handled>
    requires EndedByTick(r)
  {
    var k := r.end.ending.loaded.value;
    if k <= |handled| then handled[..k] else handled
  }

  /**
    When a write into a goal's bag failed, the goal still ends SUCCEEDED exactly when a tick ended the episode
    having looked before the first such failure, the metadata was written, and no cancel was seen.
   */
  lemma FailedYetSucceededIff(s: Recorder, i: nat)
    requires Reachable(s) && i < |s.goals.settled|
    requires s.goals.settled[i].result.bag.Some?
    requires FailedIn(s.past.handled, s.goals.settled[i].result.bag.value)
    ensures var x := s.goals.settled[i];
      x.verdict == Succeeded <==>
        && EndedByTick(x.result) && !FailedIn(Loaded(x.result, s.past.handled), x.result.bag.value)
        && x.result.metadataOk && !x.sawCanceling
  {
    ReachableGoals(s);
    ReachableFailures(s);
    assert SettlementOk(s.goals, s.goals.settled[i]);
    assert OutcomeOk(s.goals.settled[i].result, s.past.handled, |s.past.closed|);
  }

  /** The goal state the documentation lists for each termination reason. */
  function Documented(reason: Reason): GoalState {
    match reason
    case Timeout => Succeeded
    case Stopped => Succeeded
    case Cancelled => Canceled
    case NodeDeactivated => Aborted
    case Failure => Aborted
  }

  /** What the documentation lists as the cause of an error: a bag that did not open, a write or the metadata. */
  predicate BagFailure(r: Result, handled: seq<Handled>) {
    r.end.NeverOpened? || !r.metadataOk || (r.bag.Some? && FailedIn(handled, r.bag.value))
  }

  /** The row of the documented table: the state its reason calls for, and `error` for bag failures alone. */
  predicate AsDocumented(x: Settlement, handled: seq<Handled>) {
    && x.verdict == Documented(x.result.reason)
    && (x.result.reason.Failure? <==> BagFailure(x.result, handled))
  }

  /** The failed writes, if any, were there to be seen by what ended the episode. */
  predicate FailuresShown(r: Result, handled: seq<Handled>) {
    match r.end
    case NeverOpened => true
    case StartDropped(callback) => !callback.OnError?
    case Ended(ending) =>
      r.metadataOk && r.bag.Some? ==>
        if EndedByTick(r) then FailedIn(handled, r.bag.value) ==> FailedIn(Loaded(r, handled), r.bag.value)
        else ending.callback.OnError? <==> FailedIn(handled, r.bag.value)
  }

  /**
    A goal ends as the table says exactly when, if it was seen cancelling, it is told it was cancelled; and
    when no write failed behind the back of what ended the episode. A lifecycle transition looks at none, and
    the error callback takes a failure for granted.
   */
  lemma DocumentedIff(s: Recorder, i: nat)
    requires Reachable(s) && i < |s.goals.settled|
    ensures var x := s.goals.settled[i];
      AsDocumented(x, s.past.handled) <==>
        (x.sawCanceling ==> x.result.reason.Cancelled?) && FailuresShown(x.result, s.past.handled)
  {
    ReachableGoals(s);
    ReachableFailures(s);
    assert SettlementOk(s.goals, s.goals.settled[i]);
    assert OutcomeOk(s.goals.settled[i].result, s.past.handled, |s.past.closed|);
    LoadedGrows(s.goals.settled[i].result, s.past.handled);
  }

  lemma LoadedGrows(r: Result, handled: seq<Handled>)
    ensures EndedByTick(r) && r.bag.Some? && FailedIn(Loaded(r, handled), r.bag.value) ==>
      FailedIn(handled, r.bag.value)
  {
    if EndedByTick(r) && r.bag.Some? && FailedIn(Loaded(r, handled), r.bag.value) {
      var loaded := Loaded(r, handled);
      var i :| 0 <= i < |loaded| && loaded[i].fate == WriteFailed(r.bag.value);
      assert handled[i] == loaded[i];
    }
  }
}
