/** Where every received message is, in every reachable state. */
module FlowInvariant {
  import opened RecorderTypes
  import opened MessageFlow
  import opened RecorderState
  import opened WriterSteps
  import opened ExecutorSteps
  import opened ControlInvariant

  // ---------- The line: handled, in hand, queued ----------

  /** Everything accepted and not abandoned, in the order the writer thread takes it. */
  function Line(p: Past, w: WriterThread, q: Queue): seq<QueuedMessage> {
    Msgs(p.handled) + w.batch + q.items
  }

  predicate OrderOk(p: Past, w: WriterThread, q: Queue) {
    && Increasing(Line(p, w, q)) && Below(Line(p, w, q), p.delivered)
    && Increasing(p.accepted) && Below(p.accepted, p.delivered)
    && Increasing(p.received) && Below(p.received, p.delivered)
  }

  /** Nothing vanishes and nothing is duplicated. */
  predicate ConserveOk(p: Past, w: WriterThread, q: Queue) {
    && multiset(p.accepted) == multiset(Line(p, w, q)) + multiset(p.abandoned)
    && multiset(p.received) == multiset(p.accepted) + multiset(p.dropped)
  }

  predicate LineOk(p: Past, w: WriterThread, q: Queue) {
    OrderOk(p, w, q) && ConserveOk(p, w, q)
  }

  /** The histories a step that receives nothing leaves alone. */
  predicate SameArrivals(p: Past, p': Past) {
    p'.delivered == p.delivered && p'.received == p.received && p'.accepted == p.accepted && p'.dropped == p.dropped
  }

  lemma DiscardedMsgs(batch: seq<QueuedMessage>)
    ensures Msgs(Discarded(batch)) == batch
  {
  }

  lemma DisposeKeepsLine(s: Recorder, fate: Fate, pc: WriterPc)
    requires s.thread.batch != []
    ensures var s' := Disposed(s, fate, pc); Line(s'.past, s'.thread, s'.queue) == Line(s.past, s.thread, s.queue)
  {
    var batch, x := s.thread.batch, Handled(s.thread.batch[0], fate);
    assert batch == [batch[0]] + batch[1..];
    MsgsConcat(s.past.handled, [x]);
    assert Msgs([x]) == [batch[0]];
  }

  lemma TakeKeepsLine(s: Recorder)
    requires s.thread.batch == []
    ensures var s' := TakeStep(s); Line(s'.past, s'.thread, s'.queue) == Line(s.past, s.thread, s.queue)
  {
    var items, n := s.queue.items, BatchSize(s.queue);
    assert items == items[..n] + items[n..];
  }

  lemma LockKeepsLine(s: Recorder)
    ensures var s' := LockStep(s); Line(s'.past, s'.thread, s'.queue) == Line(s.past, s.thread, s.queue)
  {
    DiscardedMsgs(s.thread.batch);
    MsgsConcat(s.past.handled, Discarded(s.thread.batch));
  }

  lemma WriterKeepsLine(s: Recorder, a: WriterAction)
    requires ThreadOk(s.thread) && WriterEnabled(s, a)
    ensures var s' := WriterStep(s, a);
      && Line(s'.past, s'.thread, s'.queue) == Line(s.past, s.thread, s.queue)
      && SameArrivals(s.past, s'.past) && s'.past.abandoned == s.past.abandoned
  {
    var n := |s.past.closed|;
    match a
    case Take => TakeKeepsLine(s);
    case Lock => LockKeepsLine(s);
    case Lookup => DisposeKeepsLine(s, BadIndex(n), Between);
    case Write(ok) =>
      DisposeKeepsLine(s, if ok then Written(n, s.thread.pc.name) else WriteFailed(n),
                       if ok then Stored(s.thread.batch[0].topic) else Failing);
    case Count =>
    case CountTopic =>
    case RaiseStop =>
    case Unlock =>
    case Check =>
  }

  lemma WriterKeepsLineOk(s: Recorder, a: WriterAction)
    requires ThreadOk(s.thread) && LineOk(s.past, s.thread, s.queue) && WriterEnabled(s, a)
    ensures var s' := WriterStep(s, a); LineOk(s'.past, s'.thread, s'.queue)
  {
    WriterKeepsLine(s, a);
  }

  /** A step that only moves a tail of the line to the abandoned messages keeps order and conservation. */
  lemma AbandonKeepsLineOk(p: Past, w: WriterThread, q: Queue, p': Past, w': WriterThread, q': Queue,
                           lost: seq<QueuedMessage>)
    requires LineOk(p, w, q)
    requires Line(p, w, q) == Line(p', w', q') + lost && p'.abandoned == p.abandoned + lost
    requires SameArrivals(p, p')
    ensures LineOk(p', w', q')
  {
    var line, line' := Line(p, w, q), Line(p', w', q');
    assert forall i :: 0 <= i < |line'| ==> line'[i] == line[i];
    assert multiset(line) == multiset(line') + multiset(lost);
  }

  /** Steps that move no message. */
  predicate LineFrame(s: Recorder, s': Recorder) {
    && SameArrivals(s.past, s'.past) && s'.past.abandoned == s.past.abandoned && s'.past.handled == s.past.handled
    && s'.thread.batch == s.thread.batch && s'.queue.items == s.queue.items
  }

  lemma LifeFrame(s: Recorder, a: LifeAction)
    requires Control(s) && LifeEnabled(s, a)
    ensures LineFrame(s, LifeStep(s, a))
  {
  }

  lemma LifeKeepsLineOk(s: Recorder, a: LifeAction)
    requires Control(s) && LineOk(s.past, s.thread, s.queue) && LifeEnabled(s, a)
    ensures var s' := LifeStep(s, a); LineOk(s'.past, s'.thread, s'.queue)
  {
    LifeFrame(s, a);
  }

  lemma StartFrame(s: Recorder, a: StartAction)
    requires Control(s) && StartEnabled(s, a)
    ensures LineFrame(s, StartStep(s, a))
  {
  }

  lemma StartKeepsLineOk(s: Recorder, a: StartAction)
    requires Control(s) && LineOk(s.past, s.thread, s.queue) && StartEnabled(s, a)
    ensures var s' := StartStep(s, a); LineOk(s'.past, s'.thread, s'.queue)
  {
    StartFrame(s, a);
  }

  lemma LeaveDrainKeepsLineOk(s: Recorder, ending: Ending, kind: ExitKind)
    requires LineOk(s.past, s.thread, s.queue)
    ensures var s' := LeaveDrain(s, ending, kind); LineOk(s'.past, s'.thread, s'.queue)
  {
    var s' := LeaveDrain(s, ending, kind);
    var lost := if kind.ByTimeout? then s.queue.items else [];
    assert Line(s.past, s.thread, s.queue) == Line(s'.past, s'.thread, s'.queue) + lost;
    AbandonKeepsLineOk(s.past, s.thread, s.queue, s'.past, s'.thread, s'.queue, lost);
  }

  lemma FinishKeepsLineOk(s: Recorder, a: FinishAction)
    requires LineOk(s.past, s.thread, s.queue) && FinishEnabled(s, a)
    ensures var s' := FinishStep(s, a); LineOk(s'.past, s'.thread, s'.queue)
  {
    match a
    case BeginDrain =>
      LeaveDrainKeepsLineOk(s.(queue := s.queue.(flushRequested := true, flushDone := false)),
                            s.exec.pc.ending, ByEmpty);
    case WakeDrain =>
      LeaveDrainKeepsLineOk(s, s.exec.pc.ending, if s.queue.flushDone then ByFlush else ByEmpty);
    case DrainTimeout => LeaveDrainKeepsLineOk(s, s.exec.pc.ending, ByTimeout);
    case CloseBag =>
    case DestroyTopics =>
    case Report(_) =>
    case TestCanceling =>
    case CallSettle =>
  }

  lemma AppendIncreasing(items: seq<QueuedMessage>, m: QueuedMessage, bound: nat)
    requires Increasing(items) && Below(items, bound) && m.data.id == bound
    ensures Increasing(items + [m]) && Below(items + [m], bound + 1)
  {
  }

  lemma DeliverKeepsLineOk(s: Recorder, index: nat, data: Payload, now: int)
    requires LineOk(s.past, s.thread, s.queue) && data.id == s.past.delivered
    ensures var s' := DeliverStep(s, index, data, now); LineOk(s'.past, s'.thread, s'.queue)
  {
    if s.exec.recording {
      var s' := DeliverStep(s, index, data, now);
      var m := QueuedMessage(data, now, index, |s.past.closed|);
      var line := Line(s.past, s.thread, s.queue);
      AppendIncreasing(line, m, s.past.delivered);
      AppendIncreasing(s.past.accepted, m, s.past.delivered);
      AppendIncreasing(s.past.received, m, s.past.delivered);
      if !QueueFull(s.queue, data.length) {
        assert Line(s'.past, s'.thread, s'.queue) == line + [m];
      }
    }
  }

  lemma RunKeepsLineOk(s: Recorder, a: RunAction)
    requires LineOk(s.past, s.thread, s.queue) && RunEnabled(s, a)
    ensures var s' := RunStep(s, a); LineOk(s'.past, s'.thread, s'.queue)
  {
    if a.Deliver? {
      var sub := s.table.topics[a.position].sub;
      DeliverKeepsLineOk(s, sub.index, Payload(s.past.delivered, a.length, sub.name), a.now);
    }
  }
}
