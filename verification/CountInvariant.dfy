/** The counters a client sees are the true sizes of the bags, in every reachable state. */
module CountInvariant {
  import opened RecorderTypes
  import opened TopicTable
  import opened LatchedBuffers
  import opened MessageFlow
  import opened RecorderState
  import opened WriterSteps
  import opened ExecutorSteps
  import opened ControlInvariant
  import opened BagInvariant

  function Owed(b: bool): nat {
    if b then 1 else 0
  }

  /**
    messages_written_ and the per-topic counters both equal the size of the open bag, give or take the
    one message the writer has stored and not yet counted.
   */
  predicate CountOk(k: Sink, w: WriterThread, t: Table, e: Exec, p: Past) {
    && (k.writer.Some? ==>
      && k.messagesWritten + Owed(w.pc.Stored?) == |k.writer.value.entries|
      && SumWritten(t.topics) + Owed(w.pc.Stored? || w.pc.Counted?) == |k.writer.value.entries|)
    && (Starting(e) ==> k.messagesWritten == 0)
    && (e.pc.Opened? ==> SumWritten(t.topics) == 0)
    && (e.pc.Destroying? || e.pc.Reporting? ==>
      |p.closed| > 0 && k.messagesWritten == |p.closed[|p.closed| - 1].entries|)
  }

  /** messages_dropped_ is the number of this episode's messages that met a full queue. */
  predicate DropOk(k: Sink, e: Exec, p: Past) {
    && (k.writer.Some? ==> e.dropped == |OfEpisode(p.dropped, |p.closed|)|)
    && (e.pending || InOpening(e.pc) ==> e.dropped == 0)
    && (e.pc.Destroying? || e.pc.Reporting? ==>
      |p.closed| > 0 && e.dropped == |OfEpisode(p.dropped, |p.closed| - 1)|)
  }

  /** A result reports the true contents of the bag it names, and its drops unless the metadata failed. */
  predicate ResultOk(r: Result, p: Past) {
    match r.bag
    case None => r.written == 0 && r.dropped == None
    case Some(n) =>
      && n < |p.closed|
      && r.written == |p.closed[n].entries|
      && r.dropped == DropsTold(|OfEpisode(p.dropped, n)|, r.metadataOk)
  }

  predicate ResultsOk(p: Past, e: Exec, g: Goals) {
    && (e.pc.Settling? || e.pc.SettleCall? ==> ResultOk(e.pc.result, p))
    && forall i :: 0 <= i < |g.settled| ==> ResultOk(g.settled[i].result, p)
  }

  predicate Counts(s: Recorder) {
    && CountOk(s.sink, s.thread, s.table, s.exec, s.past)
    && DropOk(s.sink, s.exec, s.past)
    && ResultsOk(s.past, s.exec, s.goals)
  }

  lemma InitialCounts(defaultLimit: int)
    ensures Counts(Initial(defaultLimit))
  {
  }

  // ---------- The writer thread ----------

  lemma WriterKeepsCounts(s: Recorder, a: WriterAction)
    requires HoldsWriterMutex(s.thread.pc) ==> s.sink.writer.Some?
    requires s.thread.pc.Counted? ==> s.thread.pc.topic < |s.table.topics|
    requires CountOk(s.sink, s.thread, s.table, s.exec, s.past) && WriterEnabled(s, a)
    requires s.exec.pc.Destroying? || s.exec.pc.Reporting? || Starting(s.exec) ==> s.sink.writer.None?
    ensures var s' := WriterStep(s, a); CountOk(s'.sink, s'.thread, s'.table, s'.exec, s'.past)
  {
    if a.CountTopic? {
      SumCountOne(s.table.topics, s.thread.pc.topic);
    }
  }

  lemma WriterKeepsDrops(s: Recorder, a: WriterAction)
    requires WriterEnabled(s, a) && DropOk(s.sink, s.exec, s.past) && ResultsOk(s.past, s.exec, s.goals)
    ensures var s' := WriterStep(s, a); DropOk(s'.sink, s'.exec, s'.past) && ResultsOk(s'.past, s'.exec, s'.goals)
  {
  }

  // ---------- The executor ----------

  /** Steps that leave counters, bags, topics and results alone. */
  predicate CountFrame(s: Recorder, s': Recorder) {
    && s'.sink.writer == s.sink.writer && s'.sink.messagesWritten == s.sink.messagesWritten
    && s'.thread.pc.Stored? == s.thread.pc.Stored? && s'.thread.pc.Counted? == s.thread.pc.Counted?
    && s'.table == s.table && s'.exec.dropped == s.exec.dropped
    && s'.past.closed == s.past.closed && s'.past.dropped == s.past.dropped && s'.goals.settled == s.goals.settled
    && (Starting(s'.exec) ==> Starting(s.exec))
    && (s'.exec.pending || InOpening(s'.exec.pc) ==> s.exec.pending || InOpening(s.exec.pc))
    && (s'.exec.pc.Opened? ==> s.exec.pc.Opened?)
    && (s'.exec.pc.Destroying? || s'.exec.pc.Reporting? ==> s.exec.pc.Destroying? || s.exec.pc.Reporting?)
    && (InSettle(s'.exec.pc) ==>
      || (InSettle(s.exec.pc) && s'.exec.pc.result == s.exec.pc.result)
      || (s'.exec.pc.result.bag.None? && s'.exec.pc.result.written == 0 && s'.exec.pc.result.dropped == None))
  }

  /** Between the reset of the counters and the flush of the head. */
  predicate Starting(e: Exec) {
    e.pending || e.pc.Opening? || e.pc.Opened?
  }

  lemma FrameKeepsCounts(s: Recorder, s': Recorder)
    requires Counts(s) && CountFrame(s, s')
    ensures Counts(s')
  {
  }

  lemma ClosedResultsKept(p: Past, p': Past, e: Exec, g: Goals)
    requires ResultsOk(p, e, g) && |p.closed| <= |p'.closed|
    requires forall i :: 0 <= i < |p.closed| ==> p'.closed[i].entries == p.closed[i].entries
    requires forall i :: 0 <= i < |p.closed| ==> |OfEpisode(p'.dropped, i)| == |OfEpisode(p.dropped, i)|
    ensures ResultsOk(p', e, g)
  {
  }

  lemma LifeKeepsCounts(s: Recorder, a: LifeAction)
    requires Control(s) && Counts(s) && LifeEnabled(s, a)
    ensures Counts(LifeStep(s, a))
  {
    var s' := LifeStep(s, a);
    match a
    case Configure(_) =>
    case Clear =>
    case _ => LifeFrame(s, a); FrameKeepsCounts(s, s');
  }

  lemma LifeKeepsCounters(s: Recorder, a: LifeAction)
    requires LifeEnabled(s, a) && !a.Configure? && !a.Clear?
    requires s.exec.pc.ErrorClosing? ==> s.sink.writer.None?
    ensures var s' := LifeStep(s, a);
      && s'.sink == s.sink && s'.thread == s.thread && s'.table == s.table
      && s'.past == s.past && s'.goals == s.goals && s'.exec.dropped == s.exec.dropped
  {
  }

  lemma ReturnFrame(e: Exec, callback: Callback)
    ensures var e' := Return(e, callback);
      && !InSettle(e'.pc) && !InOpening(e'.pc) && !e'.pc.Destroying? && !e'.pc.Reporting?
      && e'.pending == e.pending && e'.dropped == e.dropped
  {
  }

  lemma LifeFrame(s: Recorder, a: LifeAction)
    requires EpisodeOk(s.exec) && LifeEnabled(s, a) && !a.Configure? && !a.Clear?
    requires s.exec.pc.ErrorClosing? ==> s.sink.writer.None?
    ensures CountFrame(s, LifeStep(s, a))
  {
    LifeKeepsCounters(s, a);
    match a
    case Activate =>
    case BeginStop(_) =>
    case StopRecording =>
      if !s.exec.recording {
        ReturnFrame(s.exec, s.exec.pc.callback);
      }
    case HaltThread =>
    case Join =>
    case CloseOnError =>
  }

  /** Counters at zero, no bag, and nothing reported that was not reported before. */
  predicate FreshStart(s: Recorder, s': Recorder) {
    && s'.sink.writer.None? && s'.sink.messagesWritten == 0 && s'.exec.dropped == 0
    && (s'.exec.pc.Idle? || s'.exec.pc.Opening?)
    && s'.past == s.past && s'.goals == s.goals
  }

  lemma FreshStartCounts(s: Recorder, s': Recorder)
    requires ResultsOk(s.past, s.exec, s.goals) && FreshStart(s, s')
    ensures Counts(s')
  {
  }

  lemma StartEpisodeCounts(s: Recorder, origin: Origin, limit: int, found: seq<RecordTopic>)
    requires s.sink.writer.None? && s.exec.pc.Idle? && ResultsOk(s.past, s.exec, s.goals)
    ensures Counts(StartEpisode(s, origin, limit, found))
  {
    FreshStartCounts(s, StartEpisode(s, origin, limit, found));
  }

  lemma OpenStorageCounts(s: Recorder, created: nat, ok: bool)
    requires Control(s) && Counts(s) && StartEnabled(s, OpenStorage(created, ok))
    ensures Counts(OpenStorageStep(s, created, ok))
  {
    if ok {
      SumReset(s.table.topics, created);
    }
  }

  lemma {:induction false} NoneOfEpisode(items: seq<QueuedMessage>, episode: nat)
    requires AllBelow(items, episode)
    ensures OfEpisode(items, episode) == []
    decreases |items|
  {
    if items != [] {
      NoneOfEpisode(items[..|items| - 1], episode);
    }
  }

  lemma FlushCountsOk(s: Recorder, start: int, flushed: nat)
    requires Control(s) && Counts(s) && StartEnabled(s, FlushHead(start, flushed))
    requires AllBelow(s.past.dropped, |s.past.closed|)
    ensures Counts(FlushHeadStep(s, start, flushed))
  {
    HeadLengthIs(s.table.topics, start);
    FlushCountsSum(s.table.topics, flushed);
    NoneOfEpisode(s.past.dropped, |s.past.closed|);
  }

  lemma AbortCounts(s: Recorder)
    requires Control(s) && Counts(s) && StartEnabled(s, AbortOpen)
    ensures Counts(AbortOpenStep(s))
  {
    var s' := AbortOpenStep(s);
    ClosedResultsKept(s.past, s'.past, s.exec, s.goals);
  }

  lemma StartFrame(s: Recorder, a: StartAction)
    requires EpisodeOk(s.exec) && StartEnabled(s, a) && (a.CompleteStart? || a.SpawnThread? || a.GoLive?)
    requires !s.queue.running ==> !HoldsWriterMutex(s.thread.pc)
    ensures CountFrame(s, StartStep(s, a))
  {
  }

  lemma StartKeepsCounts(s: Recorder, a: StartAction)
    requires Control(s) && Counts(s) && StartEnabled(s, a)
    requires AllBelow(s.past.dropped, Bound(s.past, s.sink))
    ensures Counts(StartStep(s, a))
  {
    match a
    case AcceptGoal(goal, limit, found) =>
      StartEpisodeCounts(
        s.(exec := s.exec.(goal := Some(goal)), goals := s.goals.(state := s.goals.state[goal := Executing])),
        ByGoal(goal), limit, found);
    case StartService(found) => ServiceCounts(s, found);
    case OpenStorage(created, ok) => OpenStorageCounts(s, created, ok);
    case FlushHead(start, flushed) => FlushCountsOk(s, start, flushed);
    case AbortOpen => AbortCounts(s);
    case _ =>
      StartFrame(s, a);
      FrameKeepsCounts(s, StartStep(s, a));
  }

  lemma ServiceCounts(s: Recorder, found: seq<RecordTopic>)
    requires Control(s) && Counts(s) && s.exec.pc.Idle?
    ensures Counts(StartServiceStep(s, found))
  {
    var e := s.exec;
    var letGo := s.(
      exec := e.(goal := None, goalId := "", detached := e.detached || e.recording || e.pending),
      goals := if e.goal.Some? then s.goals.(released := s.goals.released + {e.goal.value}) else s.goals);
    if !e.accepting || e.recording || e.pending {
      FrameKeepsCounts(s, letGo);
    } else {
      StartEpisodeCounts(letGo, ByService, 0, found);
    }
  }

  lemma IdleDeliverCounts(s: Recorder, index: nat, data: Payload, now: int)
    requires Control(s) && Counts(s) && s.exec.pc.Idle? && !s.exec.recording
    ensures Counts(DeliverStep(s, index, data, now))
  {
  }

  lemma LiveDeliverCounts(s: Recorder, index: nat, data: Payload, now: int)
    requires Counts(s) && s.exec.pc.Idle? && s.exec.recording && !s.exec.pending
    ensures Counts(DeliverStep(s, index, data, now))
  {
    var s', n := DeliverStep(s, index, data, now), |s.past.closed|;
    if s'.past.dropped != s.past.dropped {
      var m := s'.past.dropped[|s.past.dropped|];
      assert s'.past.dropped == s.past.dropped + [m] && m.episode == n;
      forall i ensures OfEpisode(s'.past.dropped, i) == OfEpisode(s.past.dropped, i) + (if i == n then [m] else []) {
        OfEpisodeStep(s.past.dropped, m, i);
      }
    }
    ClosedResultsKept(s.past, s'.past, s.exec, s.goals);
  }

  lemma RunFrame(s: Recorder, a: RunAction)
    requires EpisodeOk(s.exec) && RunEnabled(s, a) && !a.Deliver?
    ensures CountFrame(s, RunStep(s, a))
  {
  }

  lemma RunKeepsCounts(s: Recorder, a: RunAction)
    requires Control(s) && Counts(s) && RunEnabled(s, a)
    ensures Counts(RunStep(s, a))
  {
    match a
    case Deliver(position, length, now) =>
      var sub := s.table.topics[position].sub;
      var data := Payload(s.past.delivered, length, sub.name);
      if s.exec.recording {
        LiveDeliverCounts(s, sub.index, data, now);
      } else {
        IdleDeliverCounts(s, sub.index, data, now);
      }
    case _ =>
      RunFrame(s, a);
      FrameKeepsCounts(s, RunStep(s, a));
  }

  lemma CloseCounts(s: Recorder)
    requires Control(s) && Counts(s) && FinishEnabled(s, CloseBag)
    ensures Counts(FinishStep(s, CloseBag))
  {
    var s' := FinishStep(s, CloseBag);
    ClosedResultsKept(s.past, s'.past, s'.exec, s.goals);
  }

  lemma DestroyCounts(s: Recorder)
    requires Control(s) && Counts(s) && FinishEnabled(s, DestroyTopics)
    ensures Counts(FinishStep(s, DestroyTopics))
  {
  }

  /** Steps that only relabel a bag and may put a true result up for settling. */
  predicate ReportedFrame(s: Recorder, s': Recorder) {
    && s'.sink == s.sink && s.sink.writer.None? && s'.goals == s.goals
    && s'.past.dropped == s.past.dropped && |s'.past.closed| == |s.past.closed|
    && (forall i :: 0 <= i < |s.past.closed| ==> s'.past.closed[i].entries == s.past.closed[i].entries)
    && !Starting(s'.exec) && !InOpening(s'.exec.pc) && !s'.exec.pc.Destroying? && !s'.exec.pc.Reporting?
    && (InSettle(s'.exec.pc) ==> ResultOk(s'.exec.pc.result, s'.past))
  }

  lemma ReportedCounts(s: Recorder, s': Recorder)
    requires ResultsOk(s.past, s.exec, s.goals) && ReportedFrame(s, s')
    ensures Counts(s')
  {
    ClosedResultsKept(s.past, s'.past, s.exec, s.goals);
  }

  lemma ReportCounts(s: Recorder, metadataOk: bool)
    requires Control(s) && Counts(s) && FinishEnabled(s, Report(metadataOk))
    ensures Counts(ReportStep(s, metadataOk))
  {
    ReportedCounts(s, ReportStep(s, metadataOk));
  }

  lemma SettleCounts(s: Recorder)
    requires Control(s) && Counts(s) && FinishEnabled(s, CallSettle)
    ensures Counts(CallSettleStep(s))
  {
  }

  lemma FinishFrame(s: Recorder, a: FinishAction)
    requires EpisodeOk(s.exec) && FinishEnabled(s, a)
    requires a.BeginDrain? || a.WakeDrain? || a.DrainTimeout? || a.TestCanceling?
    ensures CountFrame(s, FinishStep(s, a))
  {
  }

  lemma FinishKeepsCounts(s: Recorder, a: FinishAction)
    requires Control(s) && Counts(s) && FinishEnabled(s, a)
    ensures Counts(FinishStep(s, a))
  {
    match a
    case CloseBag => CloseCounts(s);
    case DestroyTopics => DestroyCounts(s);
    case Report(metadataOk) => ReportCounts(s, metadataOk);
    case CallSettle => SettleCounts(s);
    case _ =>
      FinishFrame(s, a);
      FrameKeepsCounts(s, FinishStep(s, a));
  }
}
