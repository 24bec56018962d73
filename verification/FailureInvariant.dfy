/** What write_failed_ says of the writes into the open bag, and what an ending tick had seen of them. */
module FailureInvariant {
  import opened RecorderTypes
  import opened RecorderState
  import opened WriterSteps
  import opened ExecutorSteps
  import opened ControlInvariant
  import opened BagInvariant
  import opened CountInvariant

  /** Some write into bag number `n` failed. */
  predicate FailedIn(handled: seq<Handled>, n: nat) {
    exists i :: 0 <= i < |handled| && handled[i].fate == WriteFailed(n)
  }

  /** write_failed_ is up exactly when a write into the open bag has failed; it is down before one opens. */
  predicate FlagOk(k: Sink, e: Exec, p: Past) {
    && (k.writer.Some? ==> (k.writeFailed <==> FailedIn(p.handled, |p.closed|)))
    && (Starting(e) ==> !k.writeFailed)
  }

  /** A tick ends an episode with a failure exactly when a write into its bag had failed by the first load. */
  predicate EndingOk(ending: Ending, handled: seq<Handled>, n: nat) {
    match ending.loaded
    case None => !ending.callback.TickTimer? && ending.reason == StopReason(ending.callback)
    case Some(k) =>
      && ending.callback.TickTimer? && !ending.reason.NodeDeactivated?
      && k <= |handled| && (ending.reason.Failure? <==> FailedIn(handled[..k], n))
  }

  predicate OutcomeOk(r: Result, handled: seq<Handled>, bags: nat) {
    match r.end
    case NeverOpened => r.bag.None? && r.metadataOk && r.reason.Failure?
    case StartDropped(callback) => r.bag.None? && r.metadataOk && r.reason == StopReason(callback)
    case Ended(ending) =>
      && r.bag.Some? && r.bag.value < bags && EndingOk(ending, handled, r.bag.value)
      && r.reason == if r.metadataOk then ending.reason else Failure
  }

  predicate OutcomesOk(settled: seq<Settlement>, handled: seq<Handled>, bags: nat) {
    forall i :: 0 <= i < |settled| ==> OutcomeOk(settled[i].result, handled, bags)
  }

  predicate PcOk(pc: ExecPc, handled: seq<Handled>, bags: nat) {
    && (pc.Ticking? ==> pc.loaded <= |handled| && !FailedIn(handled[..pc.loaded], bags))
    && (pc.Finishing? || pc.Draining? || pc.Closing? ==> EndingOk(pc.ending, handled, bags))
    && (pc.Destroying? || pc.Reporting? ==> bags > 0 && EndingOk(pc.ending, handled, bags - 1))
    && (InSettle(pc) ==> OutcomeOk(pc.result, handled, bags))
    && (pc.Stopping? ==> !pc.callback.TickTimer?)
    && (InSettle(pc) && pc.after.AfterCancelledStart? ==> !pc.after.callback.TickTimer?)
  }

  predicate FailuresOk(s: Recorder) {
    && FlagOk(s.sink, s.exec, s.past)
    && PcOk(s.exec.pc, s.past.handled, |s.past.closed|)
    && OutcomesOk(s.goals.settled, s.past.handled, |s.past.closed|)
  }

  lemma InitialFailures(defaultLimit: int)
    ensures FailuresOk(Initial(defaultLimit))
  {
  }

  // ---------- More messages handled, more bags closed ----------

  lemma FailedInMore(handled: seq<Handled>, x: Handled, n: nat)
    ensures FailedIn(handled + [x], n) <==> FailedIn(handled, n) || x.fate == WriteFailed(n)
  {
    var more := handled + [x];
    assert more[|handled|] == x;
    assert forall i :: 0 <= i < |handled| ==> more[i] == handled[i];
  }

  lemma EndingKept(ending: Ending, handled: seq<Handled>, handled': seq<Handled>, n: nat)
    requires EndingOk(ending, handled, n) && handled <= handled'
    ensures EndingOk(ending, handled', n)
  {
    if ending.loaded.Some? {
      assert handled'[..ending.loaded.value] == handled[..ending.loaded.value];
    }
  }

  lemma OutcomeKept(r: Result, handled: seq<Handled>, handled': seq<Handled>, bags: nat, bags': nat)
    requires OutcomeOk(r, handled, bags) && handled <= handled' && bags <= bags'
    ensures OutcomeOk(r, handled', bags')
  {
    if r.end.Ended? {
      EndingKept(r.end.ending, handled, handled', r.bag.value);
    }
  }

  lemma OutcomesKept(settled: seq<Settlement>, handled: seq<Handled>, handled': seq<Handled>, bags: nat, bags': nat)
    requires OutcomesOk(settled, handled, bags) && handled <= handled' && bags <= bags'
    ensures OutcomesOk(settled, handled', bags')
  {
    forall i | 0 <= i < |settled| ensures OutcomeOk(settled[i].result, handled', bags') {
      OutcomeKept(settled[i].result, handled, handled', bags, bags');
    }
  }

  lemma PcKept(pc: ExecPc, handled: seq<Handled>, handled': seq<Handled>, bags: nat)
    requires PcOk(pc, handled, bags) && handled <= handled'
    ensures PcOk(pc, handled', bags)
  {
    if pc.Ticking? {
      assert handled'[..pc.loaded] == handled[..pc.loaded];
    } else if pc.Finishing? || pc.Draining? || pc.Closing? {
      EndingKept(pc.ending, handled, handled', bags);
    } else if pc.Destroying? || pc.Reporting? {
      EndingKept(pc.ending, handled, handled', bags - 1);
    } else if InSettle(pc) {
      OutcomeKept(pc.result, handled, handled', bags, bags);
    }
  }

  // ---------- The writer thread ----------

  lemma DisposeKeepsFlag(s: Recorder, fate: Fate, pc: WriterPc)
    requires s.thread.batch != [] && FlagOk(s.sink, s.exec, s.past) && !fate.WriteFailed?
    ensures FlagOk(s.sink, s.exec, Disposed(s, fate, pc).past)
  {
    FailedInMore(s.past.handled, Handled(s.thread.batch[0], fate), |s.past.closed|);
  }

  /** Nothing the writer does moves the executor or closes a bag; it only ever appends to the history. */
  lemma WriterAppends(s: Recorder, a: WriterAction)
    requires WriterEnabled(s, a)
    ensures var s' := WriterStep(s, a);
      && s.past.handled <= s'.past.handled && s'.past.closed == s.past.closed
      && s'.exec == s.exec && s'.goals == s.goals
  {
  }

  lemma WriterKeepsFlag(s: Recorder, a: WriterAction)
    requires FlagOk(s.sink, s.exec, s.past) && WriterEnabled(s, a)
    requires Starting(s.exec) ==> s.sink.writer.None?
    requires HoldsWriterMutex(s.thread.pc) ==> s.sink.writer.Some?
    ensures var s' := WriterStep(s, a); FlagOk(s'.sink, s'.exec, s'.past)
  {
    match a
    case Lookup =>
      DisposeKeepsFlag(s, BadIndex(|s.past.closed|), Between);
    case Write(ok) =>
      if ok {
        DisposeKeepsFlag(s, Written(|s.past.closed|, s.thread.pc.name), Stored(s.thread.batch[0].topic));
      } else {
        FailedInMore(s.past.handled, Handled(s.thread.batch[0], WriteFailed(|s.past.closed|)), |s.past.closed|);
      }
    case _ =>
  }

  lemma WriterKeepsFailures(s: Recorder, a: WriterAction)
    requires FailuresOk(s) && WriterEnabled(s, a)
    requires Starting(s.exec) ==> s.sink.writer.None?
    requires HoldsWriterMutex(s.thread.pc) ==> s.sink.writer.Some?
    ensures FailuresOk(WriterStep(s, a))
  {
    var s', bags := WriterStep(s, a), |s.past.closed|;
    WriterAppends(s, a);
    WriterKeepsFlag(s, a);
    PcKept(s.exec.pc, s.past.handled, s'.past.handled, bags);
    OutcomesKept(s.goals.settled, s.past.handled, s'.past.handled, bags, bags);
  }

  // ---------- The executor ----------

  /** Steps that handle, close and settle nothing, and leave the bag and write_failed_ alone. */
  predicate FailureFrame(s: Recorder, s': Recorder) {
    && s'.sink.writer.Some? == s.sink.writer.Some? && s'.sink.writeFailed == s.sink.writeFailed
    && s'.past.handled == s.past.handled && s'.past.closed == s.past.closed && s'.goals.settled == s.goals.settled
    && (Starting(s'.exec) ==> Starting(s.exec))
    && PcOk(s'.exec.pc, s.past.handled, |s.past.closed|)
  }

  lemma FrameKeepsFailures(s: Recorder, s': Recorder)
    requires FailuresOk(s) && FailureFrame(s, s')
    ensures FailuresOk(s')
  {
  }

  lemma ReturnFrame(e: Exec, callback: Callback, handled: seq<Handled>, bags: nat)
    ensures var e' := Return(e, callback);
      PcOk(e'.pc, handled, bags) && (Starting(e') ==> e'.pending) && e'.pending == e.pending
  {
  }

  lemma StopFrame(s: Recorder)
    requires EpisodeOk(s.exec) && LifeEnabled(s, StopRecording)
    requires PcOk(s.exec.pc, s.past.handled, |s.past.closed|)
    ensures FailureFrame(s, StopRecordingStep(s))
  {
    if !s.exec.recording {
      ReturnFrame(s.exec, s.exec.pc.callback, s.past.handled, |s.past.closed|);
    }
  }

  lemma LifeFrame(s: Recorder, a: LifeAction)
    requires EpisodeOk(s.exec) && LifeEnabled(s, a) && !a.StopRecording?
    requires s.exec.pc.ErrorClosing? ==> s.sink.writer.None?
    ensures FailureFrame(s, LifeStep(s, a))
  {
  }

  lemma LifeKeepsFailures(s: Recorder, a: LifeAction)
    requires EpisodeOk(s.exec) && FailuresOk(s) && LifeEnabled(s, a)
    requires s.exec.pc.ErrorClosing? ==> s.sink.writer.None?
    ensures FailuresOk(LifeStep(s, a))
  {
    if a.StopRecording? {
      StopFrame(s);
    } else {
      LifeFrame(s, a);
    }
    FrameKeepsFailures(s, LifeStep(s, a));
  }

  lemma TickFrame(s: Recorder, now: int)
    requires EpisodeOk(s.exec) && FlagOk(s.sink, s.exec, s.past) && RunEnabled(s, Tick(now)) && s.sink.writer.Some?
    ensures FailureFrame(s, TickStep(s, now))
  {
    assert s.past.handled[..|s.past.handled|] == s.past.handled;
  }

  lemma TickStopFrame(s: Recorder)
    requires EpisodeOk(s.exec) && RunEnabled(s, TickStop) && PcOk(s.exec.pc, s.past.handled, |s.past.closed|)
    ensures FailureFrame(s, TickStopStep(s))
  {
    if s.sink.stopRequested {
    } else if IsCanceling(s) {
    } else if s.exec.limit - s.exec.pc.elapsed <= 0 {
    } else {
    }
  }

  lemma RunFrame(s: Recorder, a: RunAction)
    requires EpisodeOk(s.exec) && RunEnabled(s, a) && !a.Tick? && !a.TickStop?
    ensures FailureFrame(s, RunStep(s, a))
  {
  }

  lemma RunKeepsFailures(s: Recorder, a: RunAction)
    requires EpisodeOk(s.exec) && FailuresOk(s) && RunEnabled(s, a)
    requires s.exec.recording ==> s.sink.writer.Some?
    ensures FailuresOk(RunStep(s, a))
  {
    match a {
      case Tick(now) => TickFrame(s, now);
      case TickStop => TickStopFrame(s);
      case _ => RunFrame(s, a);
    }
    FrameKeepsFailures(s, RunStep(s, a));
  }

  lemma FreshFailures(s: Recorder, s': Recorder)
    requires OutcomesOk(s.goals.settled, s.past.handled, |s.past.closed|)
    requires FreshStart(s, s') && !s'.sink.writeFailed
    ensures FailuresOk(s')
  {
  }

  lemma StartEpisodeFailures(s: Recorder, origin: Origin, limit: int, found: seq<RecordTopic>)
    requires s.sink.writer.None? && s.exec.pc.Idle?
    requires OutcomesOk(s.goals.settled, s.past.handled, |s.past.closed|)
    ensures FailuresOk(StartEpisode(s, origin, limit, found))
  {
    FreshFailures(s, StartEpisode(s, origin, limit, found));
  }

  lemma ServiceFailures(s: Recorder, found: seq<RecordTopic>)
    requires FailuresOk(s) && s.exec.pc.Idle?
    requires s.sink.writer.Some? ==> s.exec.recording
    ensures FailuresOk(StartServiceStep(s, found))
  {
    var e := s.exec;
    var letGo := s.(
      exec := e.(goal := None, goalId := "", detached := e.detached || e.recording || e.pending),
      goals := if e.goal.Some? then s.goals.(released := s.goals.released + {e.goal.value}) else s.goals);
    if !e.accepting || e.recording || e.pending {
      FrameKeepsFailures(s, letGo);
    } else {
      StartEpisodeFailures(letGo, ByService, 0, found);
    }
  }

  /** No write has failed in a bag that is not open yet. */
  lemma FlushFailures(s: Recorder, start: int, flushed: nat)
    requires FailuresOk(s) && StartEnabled(s, FlushHead(start, flushed)) && s.sink.writer.None?
    requires TagOk(s.past, s.thread, s.queue, s.sink)
    ensures FailuresOk(FlushHeadStep(s, start, flushed))
  {
    var n := |s.past.closed|;
    forall i | 0 <= i < |s.past.handled| ensures s.past.handled[i].fate != WriteFailed(n) {
      assert HandledOk(s.past.handled[i], n, n);
    }
  }

  lemma AbortFailures(s: Recorder)
    requires FailuresOk(s) && StartEnabled(s, AbortOpen) && !s.exec.pending
    ensures FailuresOk(AbortOpenStep(s))
  {
    OutcomesKept(s.goals.settled, s.past.handled, s.past.handled, |s.past.closed|,
                 |AbortOpenStep(s).past.closed|);
  }

  lemma StartFrame(s: Recorder, a: StartAction)
    requires EpisodeOk(s.exec) && StartEnabled(s, a)
    requires a.CompleteStart? || a.OpenStorage? || a.SpawnThread? || a.GoLive?
    requires PcOk(s.exec.pc, s.past.handled, |s.past.closed|)
    ensures FailureFrame(s, StartStep(s, a))
  {
  }

  lemma StartKeepsFailures(s: Recorder, a: StartAction)
    requires Control(s) && TagOk(s.past, s.thread, s.queue, s.sink) && FailuresOk(s) && StartEnabled(s, a)
    ensures FailuresOk(StartStep(s, a))
  {
    match a
    case AcceptGoal(goal, limit, found) =>
      StartEpisodeFailures(
        s.(exec := s.exec.(goal := Some(goal)), goals := s.goals.(state := s.goals.state[goal := Executing])),
        ByGoal(goal), limit, found);
    case StartService(found) => ServiceFailures(s, found);
    case FlushHead(start, flushed) => FlushFailures(s, start, flushed);
    case AbortOpen => AbortFailures(s);
    case _ =>
      StartFrame(s, a);
      FrameKeepsFailures(s, StartStep(s, a));
  }

  lemma CloseFailures(s: Recorder)
    requires FailuresOk(s) && FinishEnabled(s, CloseBag) && !s.exec.pending
    ensures FailuresOk(FinishStep(s, CloseBag))
  {
    OutcomesKept(s.goals.settled, s.past.handled, s.past.handled, |s.past.closed|, |s.past.closed| + 1);
  }

  lemma ReportFailures(s: Recorder, metadataOk: bool)
    requires EpisodeOk(s.exec) && FailuresOk(s) && FinishEnabled(s, Report(metadataOk)) && s.sink.writer.None?
    ensures FailuresOk(ReportStep(s, metadataOk))
  {
    if s.exec.goal.None? {
      ReturnFrame(s.exec.(goalId := ""), s.exec.pc.ending.callback, s.past.handled, |s.past.closed|);
    }
  }

  lemma SettleFailures(s: Recorder)
    requires EpisodeOk(s.exec) && FailuresOk(s) && FinishEnabled(s, CallSettle)
    ensures FailuresOk(CallSettleStep(s))
  {
  }

  lemma FinishFrame(s: Recorder, a: FinishAction)
    requires EpisodeOk(s.exec) && FinishEnabled(s, a) && PcOk(s.exec.pc, s.past.handled, |s.past.closed|)
    requires a.BeginDrain? || a.WakeDrain? || a.DrainTimeout? || a.DestroyTopics? || a.TestCanceling?
    ensures FailureFrame(s, FinishStep(s, a))
  {
  }

  lemma FinishKeepsFailures(s: Recorder, a: FinishAction)
    requires Control(s) && FailuresOk(s) && FinishEnabled(s, a)
    ensures FailuresOk(FinishStep(s, a))
  {
    match a
    case CloseBag => CloseFailures(s);
    case Report(metadataOk) => ReportFailures(s, metadataOk);
    case CallSettle => SettleFailures(s);
    case _ =>
      FinishFrame(s, a);
      FrameKeepsFailures(s, FinishStep(s, a));
  }
}
