/** What a finished drain wait left behind, and what later became of it. */
module DrainInvariant {
  import opened RecorderTypes
  import opened MessageFlow
  import opened RecorderState
  import opened WriterSteps
  import opened ExecutorSteps
  import opened ControlInvariant
  import opened BagInvariant

  /** Handled, but not in the bag of its own episode. */
  predicate Late(x: Handled, episode: nat) {
    x.msg.episode == episode && !InBag(x, episode)
  }

  function LateHandled(handled: seq<Handled>, episode: nat): nat
    decreases |handled|
  {
    if handled == [] then 0
    else
      LateHandled(handled[..|handled| - 1], episode)
      + (if Late(handled[|handled| - 1], episode) then 1 else 0)
  }

  /** How many of an episode's messages missed, or may yet miss, its bag. */
  function Outstanding(p: Past, w: WriterThread, episode: nat): nat {
    LateHandled(p.handled, episode) + |OfEpisode(w.batch, episode)|
  }

  predicate ExitOk(x: DrainExit) {
    && x.inHand <= BATCH_MAX
    && (x.kind.ByFlush? ==> x.inHand == 0)
    && (!x.kind.ByTimeout? ==> x.lost == 0)
  }

  ghost predicate DrainOk(p: Past, w: WriterThread, e: Exec) {
    && (forall i :: i in p.exits ==> ExitOk(p.exits[i]) && Outstanding(p, w, i) <= p.exits[i].inHand)
    && (forall i: nat :: |OfEpisode(p.abandoned, i)| == if i in p.exits then p.exits[i].lost else 0)
    && (e.pc.Closing? ==> |p.closed| in p.exits)
    && (InOpening(e.pc) ==> AllBelow(p.accepted, |p.closed|))
    && (forall k :: 0 <= k < |p.accepted| ==>
      p.accepted[k].episode == |p.closed| || p.accepted[k].episode in p.exits)
  }

  lemma InitialDrain(defaultLimit: int)
    ensures var s := Initial(defaultLimit); DrainOk(s.past, s.thread, s.exec)
  {
  }

  // ---------- Counting ----------

  lemma LateStep(handled: seq<Handled>, x: Handled, episode: nat)
    ensures LateHandled(handled + [x], episode) == LateHandled(handled, episode) + (if Late(x, episode) then 1 else 0)
  {
    assert (handled + [x])[..|handled + [x]| - 1] == handled;
  }

  lemma {:induction false} OfEpisodeConcat(a: seq<QueuedMessage>, b: seq<QueuedMessage>, episode: nat)
    ensures OfEpisode(a + b, episode) == OfEpisode(a, episode) + OfEpisode(b, episode)
    decreases |b|
  {
    if b == [] {
      assert a + b == a;
    } else {
      OfEpisodeConcat(a, b[..|b| - 1], episode);
      assert (a + b)[..|a + b| - 1] == a + b[..|b| - 1];
    }
  }

  lemma {:induction false} DiscardedAreLate(handled: seq<Handled>, batch: seq<QueuedMessage>, episode: nat)
    ensures LateHandled(handled + Discarded(batch), episode)
         == LateHandled(handled, episode) + |OfEpisode(batch, episode)|
    decreases |batch|
  {
    if batch == [] {
      assert handled + Discarded(batch) == handled;
    } else {
      var front, last := batch[..|batch| - 1], batch[|batch| - 1];
      DiscardedAreLate(handled, front, episode);
      assert handled + Discarded(batch) == (handled + Discarded(front)) + [Handled(last, NoBag)];
      LateStep(handled + Discarded(front), Handled(last, NoBag), episode);
    }
  }

  lemma {:induction false} AllOfEpisode(items: seq<QueuedMessage>, n: nat, episode: nat)
    requires forall i :: 0 <= i < |items| ==> items[i].episode == n
    ensures OfEpisode(items, episode) == if episode == n then items else []
    decreases |items|
  {
    if items != [] {
      AllOfEpisode(items[..|items| - 1], n, episode);
      assert items == items[..|items| - 1] + [items[|items| - 1]];
    }
  }

  lemma {:induction false} NoneOfOther(items: seq<QueuedMessage>, episode: nat)
    requires forall k :: 0 <= k < |items| ==> items[k].episode != episode
    ensures OfEpisode(items, episode) == []
    decreases |items|
  {
    if items != [] {
      NoneOfOther(items[..|items| - 1], episode);
    }
  }

  lemma {:induction false} NoneLate(handled: seq<Handled>, n: nat, bound: nat)
    requires forall i :: 0 <= i < |handled| ==> HandledOk(handled[i], n, bound)
    ensures LateHandled(handled, n) == 0
    decreases |handled|
  {
    if handled != [] {
      NoneLate(handled[..|handled| - 1], n, bound);
    }
  }

  lemma {:induction false} SomeLate(handled: seq<Handled>, i: nat, episode: nat)
    requires i < |handled| && Late(handled[i], episode)
    ensures LateHandled(handled, episode) > 0
    decreases |handled|
  {
    if i < |handled| - 1 {
      SomeLate(handled[..|handled| - 1], i, episode);
    }
  }

  // ---------- The writer thread ----------

  lemma DisposeOutstanding(p: Past, w: WriterThread, fate: Fate, episode: nat)
    requires w.batch != []
    ensures Outstanding(p.(handled := p.handled + [Handled(w.batch[0], fate)]), w.(batch := w.batch[1..]), episode)
      <= Outstanding(p, w, episode)
  {
    LateStep(p.handled, Handled(w.batch[0], fate), episode);
    assert w.batch == [w.batch[0]] + w.batch[1..];
    OfEpisodeConcat([w.batch[0]], w.batch[1..], episode);
  }

  /** No step of the writer thread leaves more of a finished episode outstanding. */
  lemma WriterOutstanding(s: Recorder, a: WriterAction, i: nat)
    requires ThreadOk(s.thread) && WriterEnabled(s, a)
    requires forall k :: 0 <= k < |s.queue.items| ==> s.queue.items[k].episode != i
    ensures var s' := WriterStep(s, a); Outstanding(s'.past, s'.thread, i) <= Outstanding(s.past, s.thread, i)
  {
    var n := |s.past.closed|;
    match a
    case Take =>
      var taken := s.queue.items[..BatchSize(s.queue)];
      NoneOfOther(taken, i);
    case Lock => DiscardedAreLate(s.past.handled, s.thread.batch, i);
    case Lookup => DisposeOutstanding(s.past, s.thread, BadIndex(n), i);
    case Write(ok) =>
      DisposeOutstanding(s.past, s.thread, if ok then Written(n, s.thread.pc.name) else WriteFailed(n), i);
    case Count =>
    case CountTopic =>
    case RaiseStop =>
    case Unlock =>
    case Check =>
  }

  lemma WriterKeepsDrain(s: Recorder, a: WriterAction)
    requires ThreadOk(s.thread) && TagOk(s.past, s.thread, s.queue, s.sink) && DrainOk(s.past, s.thread, s.exec)
    requires |s.past.closed| in s.past.exits ==> s.queue.items == []
    requires WriterEnabled(s, a)
    ensures var s' := WriterStep(s, a); DrainOk(s'.past, s'.thread, s'.exec)
  {
    var s' := WriterStep(s, a);
    assert SameButHandled(s.past, s'.past);
    forall i | i in s.past.exits ensures Outstanding(s'.past, s'.thread, i) <= s.past.exits[i].inHand {
      WriterOutstanding(s, a, i);
    }
  }

  predicate SameButHandled(p: Past, p': Past) {
    p' == p.(handled := p'.handled)
  }

  // ---------- The executor ----------

  /** Steps that end no drain wait, close no bag and accept no message. */
  predicate DrainFrame(s: Recorder, s': Recorder) {
    && s'.past.exits == s.past.exits && s'.past.handled == s.past.handled && s'.past.abandoned == s.past.abandoned
    && s'.past.accepted == s.past.accepted && |s'.past.closed| == |s.past.closed|
    && s'.thread.batch == s.thread.batch
    && (s'.exec.pc.Closing? ==> s.exec.pc.Closing?)
    && (InOpening(s'.exec.pc) ==> InOpening(s.exec.pc))
  }

  lemma FrameKeepsDrain(s: Recorder, s': Recorder)
    requires DrainOk(s.past, s.thread, s.exec) && DrainFrame(s, s')
    ensures DrainOk(s'.past, s'.thread, s'.exec)
  {
  }

  lemma LifeFrame(s: Recorder, a: LifeAction)
    requires Control(s) && LifeEnabled(s, a)
    ensures DrainFrame(s, LifeStep(s, a))
  {
  }

  lemma StartFrame(s: Recorder, a: StartAction)
    requires Control(s) && StartEnabled(s, a) && (a.OpenStorage? || a.FlushHead? || a.SpawnThread? || a.GoLive?)
    ensures DrainFrame(s, StartStep(s, a))
  {
  }

  /** A start, with no bag open: whatever was accepted belongs to an earlier episode. */
  predicate StartingFrame(s: Recorder, s': Recorder) {
    && s'.past.exits == s.past.exits && s'.past.handled == s.past.handled && s'.past.abandoned == s.past.abandoned
    && s'.past.accepted == s.past.accepted && |s'.past.closed| == |s.past.closed|
    && s'.thread.batch == s.thread.batch && !s'.exec.pc.Closing?
  }

  lemma StartingKeepsDrain(s: Recorder, s': Recorder)
    requires DrainOk(s.past, s.thread, s.exec) && StartingFrame(s, s')
    requires AllBelow(s.past.accepted, |s.past.closed|) || !InOpening(s'.exec.pc)
    ensures DrainOk(s'.past, s'.thread, s'.exec)
  {
  }

  lemma StartingStepFrame(s: Recorder, a: StartAction)
    requires StartEnabled(s, a) && (a.AcceptGoal? || a.StartService? || a.CompleteStart?)
    ensures StartingFrame(s, StartStep(s, a))
    ensures s.exec.recording && !s.exec.pending ==> !InOpening(StartStep(s, a).exec.pc)
  {
  }

  /** Closing a bag whose messages, if any, all went through a drain wait. */
  lemma CloseKeepsDrain(p: Past, w: WriterThread, e: Exec, e': Exec, bag: Bag)
    requires DrainOk(p, w, e) && (e.pc.Closing? || InOpening(e.pc)) && !e'.pc.Closing? && !InOpening(e'.pc)
    ensures DrainOk(p.(closed := p.closed + [bag]), w, e')
  {
  }

  lemma AbortKeepsDrain(s: Recorder)
    requires DrainOk(s.past, s.thread, s.exec) && StartEnabled(s, AbortOpen)
    ensures var s' := AbortOpenStep(s); DrainOk(s'.past, s'.thread, s'.exec)
  {
    var s' := AbortOpenStep(s);
    if s.sink.writer.Some? {
      CloseKeepsDrain(s.past, s.thread, s.exec, s'.exec, s.sink.writer.value);
    } else {
      FrameKeepsDrain(s, s');
    }
  }

  lemma StartKeepsDrain(s: Recorder, a: StartAction)
    requires Control(s) && TagOk(s.past, s.thread, s.queue, s.sink) && DrainOk(s.past, s.thread, s.exec)
    requires StartEnabled(s, a)
    ensures var s' := StartStep(s, a); DrainOk(s'.past, s'.thread, s'.exec)
  {
    match a
    case AbortOpen => AbortKeepsDrain(s);
    case OpenStorage(_, _) => StartFrame(s, a); FrameKeepsDrain(s, StartStep(s, a));
    case FlushHead(_, _) => StartFrame(s, a); FrameKeepsDrain(s, StartStep(s, a));
    case SpawnThread => StartFrame(s, a); FrameKeepsDrain(s, StartStep(s, a));
    case GoLive(_) => StartFrame(s, a); FrameKeepsDrain(s, StartStep(s, a));
    case _ => StartingStepFrame(s, a); StartingKeepsDrain(s, StartStep(s, a));
  }

  lemma AcceptKeepsDrain(p: Past, w: WriterThread, e: Exec, m: QueuedMessage, p': Past)
    requires DrainOk(p, w, e) && e.pc.Idle? && m.episode == |p.closed|
    requires p' == p.(delivered := p'.delivered, received := p'.received, accepted := p.accepted + [m])
    ensures DrainOk(p', w, e)
  {
  }

  lemma DeliverKeepsDrain(s: Recorder, index: nat, data: Payload, now: int)
    requires DrainOk(s.past, s.thread, s.exec) && s.exec.pc.Idle?
    ensures var s' := DeliverStep(s, index, data, now); DrainOk(s'.past, s'.thread, s'.exec)
  {
    var s' := DeliverStep(s, index, data, now);
    if s.exec.recording && !QueueFull(s.queue, data.length) {
      AcceptKeepsDrain(s.past, s.thread, s.exec, QueuedMessage(data, now, index, |s.past.closed|), s'.past);
    } else {
      FrameKeepsDrain(s, s');
    }
  }

  lemma TickStopFrame(s: Recorder)
    requires s.exec.pc.Ticking?
    ensures DrainFrame(s, TickStopStep(s))
  {
    if s.sink.stopRequested {
    } else if IsCanceling(s) {
    } else if s.exec.limit - s.exec.pc.elapsed <= 0 {
    } else {
    }
  }

  lemma RunFrame(s: Recorder, a: RunAction)
    requires RunEnabled(s, a) && !a.Deliver?
    ensures DrainFrame(s, RunStep(s, a))
  {
    if a.TickStop? {
      TickStopFrame(s);
    }
  }

  lemma RunKeepsDrain(s: Recorder, a: RunAction)
    requires DrainOk(s.past, s.thread, s.exec) && RunEnabled(s, a)
    ensures var s' := RunStep(s, a); DrainOk(s'.past, s'.thread, s'.exec)
  {
    if a.Deliver? {
      var sub := s.table.topics[a.position].sub;
      DeliverKeepsDrain(s, sub.index, Payload(s.past.delivered, a.length, sub.name), a.now);
    } else {
      RunFrame(s, a);
      FrameKeepsDrain(s, RunStep(s, a));
    }
  }

  lemma AbandonCounts(p: Past, lost: seq<QueuedMessage>, n: nat, i: nat)
    requires forall k :: 0 <= k < |lost| ==> lost[k].episode == n
    ensures |OfEpisode(p.abandoned + lost, i)| == |OfEpisode(p.abandoned, i)| + (if i == n then |lost| else 0)
  {
    OfEpisodeConcat(p.abandoned, lost, i);
    AllOfEpisode(lost, n, i);
  }

  /** Nothing of the open episode is late yet, and what is in hand bounds what can become so. */
  lemma InHandBounds(p: Past, w: WriterThread, q: Queue, k: Sink)
    requires TagOk(p, w, q, k)
    ensures Outstanding(p, w, |p.closed|) <= |w.batch|
  {
    NoneLate(p.handled, |p.closed|, Bound(p, k));
    OfEpisodeMembers(w.batch, |p.closed|);
  }

  /** Leaving the wait: one more exit, whose books are these. */
  lemma ExitKeepsDrain(p: Past, w: WriterThread, e: Exec, e': Exec, kind: ExitKind, lost: seq<QueuedMessage>)
    requires DrainOk(p, w, e) && ThreadOk(w) && e'.pc.Closing?
    requires |p.closed| !in p.exits && Outstanding(p, w, |p.closed|) <= |w.batch|
    requires forall i :: 0 <= i < |lost| ==> lost[i].episode == |p.closed|
    requires kind.ByFlush? ==> w.batch == []
    requires !kind.ByTimeout? ==> lost == []
    ensures DrainOk(p.(abandoned := p.abandoned + lost,
                       exits := p.exits[|p.closed| := DrainExit(kind, |w.batch|, |lost|)]), w, e')
  {
    forall i: nat ensures |OfEpisode(p.abandoned + lost, i)|
        == |OfEpisode(p.abandoned, i)| + (if i == |p.closed| then |lost| else 0)
    {
      AbandonCounts(p, lost, |p.closed|, i);
    }
  }

  lemma LeaveDrainKeepsDrain(s: Recorder, ending: Ending, kind: ExitKind)
    requires TagOk(s.past, s.thread, s.queue, s.sink) && DrainOk(s.past, s.thread, s.exec) && ThreadOk(s.thread)
    requires |s.past.closed| !in s.past.exits && (kind.ByFlush? ==> s.thread.batch == [])
    ensures var s' := LeaveDrain(s, ending, kind); DrainOk(s'.past, s'.thread, s'.exec)
  {
    InHandBounds(s.past, s.thread, s.queue, s.sink);
    ExitKeepsDrain(s.past, s.thread, s.exec, LeaveDrain(s, ending, kind).exec, kind,
                   if kind.ByTimeout? then s.queue.items else []);
  }

  lemma ReturnLeaves(e: Exec, callback: Callback)
    ensures var pc := Return(e, callback).pc; !pc.Closing? && !InOpening(pc)
  {
  }

  lemma ReportFrame(s: Recorder, metadataOk: bool)
    requires FinishEnabled(s, Report(metadataOk))
    ensures DrainFrame(s, ReportStep(s, metadataOk))
  {
    ReturnLeaves(s.exec.(goalId := ""), s.exec.pc.ending.callback);
    var p, p' := s.past, ReportStep(s, metadataOk).past;
    assert |p'.closed| == |p.closed|;
  }

  lemma FinishFrame(s: Recorder, a: FinishAction)
    requires FinishEnabled(s, a) && (a.DestroyTopics? || a.TestCanceling?)
    ensures DrainFrame(s, FinishStep(s, a))
  {
  }

  lemma FinishKeepsDrain(s: Recorder, a: FinishAction)
    requires Control(s) && TagOk(s.past, s.thread, s.queue, s.sink) && DrainOk(s.past, s.thread, s.exec)
    requires |s.past.closed| in s.past.exits ==> s.exec.pc.Closing?
    requires FinishEnabled(s, a)
    ensures var s' := FinishStep(s, a); DrainOk(s'.past, s'.thread, s'.exec)
  {
    match a
    case BeginDrain =>
      var asked := s.(queue := s.queue.(flushRequested := true, flushDone := false));
      FrameKeepsDrain(s, asked.(exec := s.exec.(pc := Draining(s.exec.pc.ending))));
      LeaveDrainKeepsDrain(asked, s.exec.pc.ending, ByEmpty);
    case WakeDrain =>
      LeaveDrainKeepsDrain(s, s.exec.pc.ending, if s.queue.flushDone then ByFlush else ByEmpty);
    case DrainTimeout => LeaveDrainKeepsDrain(s, s.exec.pc.ending, ByTimeout);
    case CloseBag =>
      CloseKeepsDrain(s.past, s.thread, s.exec, FinishStep(s, a).exec, s.sink.writer.value);
    case CallSettle => FrameKeepsDrain(s, CallSettleStep(s));
    case Report(metadataOk) =>
      ReportFrame(s, metadataOk);
      FrameKeepsDrain(s, ReportStep(s, metadataOk));
    case _ =>
      FinishFrame(s, a);
      FrameKeepsDrain(s, FinishStep(s, a));
  }
}
