/** Every step keeps what the bag invariants say. */
module BagPreserved {
  import opened RecorderTypes
  import opened TopicTable
  import opened LatchedBuffers
  import opened MessageFlow
  import opened RecorderState
  import opened WriterSteps
  import opened ExecutorSteps
  import opened ControlInvariant
  import opened BagInvariant

  // ---------- The writer thread ----------

  /** Moving the head of the batch to the handled messages, with a fate that fits the open bag. */
  lemma DisposeKeepsTags(p: Past, w: WriterThread, q: Queue, k: Sink, fate: Fate)
    requires TagOk(p, w, q, k) && w.batch != [] && k.writer.Some?
    requires !fate.NoBag? && fate.bag == |p.closed|
    requires fate.BadIndex? ==> w.batch[0].episode != |p.closed|
    ensures TagOk(p.(handled := p.handled + [Handled(w.batch[0], fate)]), w.(batch := w.batch[1..]), q, k)
  {
  }

  lemma WriterKeepsTags(s: Recorder, a: WriterAction)
    requires ThreadOk(s.thread) && (HoldsWriterMutex(s.thread.pc) ==> s.sink.writer.Some?)
    requires s.queue.items != [] ==> s.sink.writer.Some?
    requires TagOk(s.past, s.thread, s.queue, s.sink)
    requires s.thread.pc.Between? && s.thread.batch != [] ==>
      Deliverable(s.thread.batch[0], |s.past.closed|, s.table.topics)
    requires WriterEnabled(s, a)
    ensures var s' := WriterStep(s, a); TagOk(s'.past, s'.thread, s'.queue, s'.sink)
  {
    var n := |s.past.closed|;
    match a
    case Take =>
    case Lock =>
    case Lookup => DisposeKeepsTags(s.past, s.thread, s.queue, s.sink,
                                    if s.thread.batch[0].episode != n then BadIndex(n) else WriteFailed(n));
    case Write(ok) => DisposeKeepsTags(s.past, s.thread, s.queue, s.sink,
                                       if ok then Written(n, s.thread.pc.name) else WriteFailed(n));
    case Count =>
    case CountTopic =>
    case RaiseStop =>
    case Unlock =>
    case Check =>
  }

  lemma DisposeKeepsNames(p: Past, w: WriterThread, q: Queue, k: Sink, t: Table, e: Exec, fate: Fate, pc: WriterPc)
    requires NameOk(p, w, q, k, t, e) && w.batch != []
    requires !pc.Looked? && (pc.Stored? || pc.Counted? ==> pc.topic < |t.topics|)
    ensures NameOk(p.(handled := p.handled + [Handled(w.batch[0], fate)]),
                   w.(pc := pc, batch := w.batch[1..]), q, k, t, e)
  {
  }

  lemma TakeKeepsNames(s: Recorder)
    requires NameOk(s.past, s.thread, s.queue, s.sink, s.table, s.exec)
    ensures var s' := TakeStep(s); NameOk(s'.past, s'.thread, s'.queue, s'.sink, s'.table, s'.exec)
  {
  }

  lemma WriteKeepsNames(s: Recorder, ok: bool)
    requires NameOk(s.past, s.thread, s.queue, s.sink, s.table, s.exec) && WriterEnabled(s, Write(ok))
    ensures var s' := WriterStep(s, Write(ok)); NameOk(s'.past, s'.thread, s'.queue, s'.sink, s'.table, s'.exec)
  {
    var n := |s.past.closed|;
    DisposeKeepsNames(s.past, s.thread, s.queue, s.sink, s.table, s.exec,
                      if ok then Written(n, s.thread.pc.name) else WriteFailed(n),
                      if ok then Stored(s.thread.batch[0].topic) else Failing);
  }

  lemma LookupKeepsNames(s: Recorder)
    requires NameOk(s.past, s.thread, s.queue, s.sink, s.table, s.exec) && WriterEnabled(s, Lookup)
    ensures var s' := LookupStep(s); NameOk(s'.past, s'.thread, s'.queue, s'.sink, s'.table, s'.exec)
  {
    DisposeKeepsNames(s.past, s.thread, s.queue, s.sink, s.table, s.exec, BadIndex(|s.past.closed|), Between);
  }

  lemma LockKeepsNames(s: Recorder)
    requires NameOk(s.past, s.thread, s.queue, s.sink, s.table, s.exec)
    ensures var s' := LockStep(s); NameOk(s'.past, s'.thread, s'.queue, s'.sink, s'.table, s'.exec)
  {
  }

  lemma CountKeepsNames(s: Recorder)
    requires TableOk(s.table) && NameOk(s.past, s.thread, s.queue, s.sink, s.table, s.exec) && s.thread.pc.Counted?
    ensures var s' := CountTopicStep(s);
      TableOk(s'.table) && NameOk(s'.past, s'.thread, s'.queue, s'.sink, s'.table, s'.exec)
  {
    CountOneKeepsTable(s.table, s.thread.pc.topic);
  }

  lemma WriterKeepsNames(s: Recorder, a: WriterAction)
    requires ThreadOk(s.thread) && TableOk(s.table)
    requires NameOk(s.past, s.thread, s.queue, s.sink, s.table, s.exec)
    requires WriterEnabled(s, a)
    ensures var s' := WriterStep(s, a);
      TableOk(s'.table) && NameOk(s'.past, s'.thread, s'.queue, s'.sink, s'.table, s'.exec)
  {
    match a
    case CountTopic => CountKeepsNames(s);
    case Take => TakeKeepsNames(s);
    case Lock => LockKeepsNames(s);
    case Lookup => LookupKeepsNames(s);
    case Write(ok) => WriteKeepsNames(s, ok);
    case Count =>
    case RaiseStop =>
    case Unlock =>
    case Check =>
  }

  /** A new fate extends the live part of its own bag and of no other. */
  lemma HandledExtendsBag(b: Bag, handled: seq<Handled>, x: Handled, number: nat)
    requires BagMatches(b, handled, number)
    ensures !WrittenTo(x, number) ==> BagMatches(b, handled + [x], number)
    ensures WrittenTo(x, number) ==>
      BagMatches(b.(entries := b.entries + [Entry(x.fate.name, x.msg.stamp, x.msg.data)]), handled + [x], number)
  {
    LiveStep(handled, x, number);
  }

  lemma HandledExtendsAll(closed: seq<Bag>, handled: seq<Handled>, x: Handled)
    requires AllMatch(closed, handled) && (x.fate.Written? ==> x.fate.bag >= |closed|)
    ensures AllMatch(closed, handled + [x])
  {
    forall i | 0 <= i < |closed| ensures BagMatches(closed[i], handled + [x], i) {
      HandledExtendsBag(closed[i], handled, x, i);
    }
  }

  lemma DiscardKeepsAll(closed: seq<Bag>, handled: seq<Handled>, batch: seq<QueuedMessage>)
    requires AllMatch(closed, handled)
    ensures AllMatch(closed, handled + Discarded(batch))
  {
    forall i | 0 <= i < |closed| ensures BagMatches(closed[i], handled + Discarded(batch), i) {
      LiveNone(handled, Discarded(batch), i);
    }
  }

  /** One more handled message, and its entry when it was written. */
  function AfterFate(k: Sink, x: Handled): Sink
    requires k.writer.Some?
  {
    if !x.fate.Written? then k
    else
      var bag := k.writer.value;
      k.(writer := Some(bag.(entries := bag.entries + [Entry(x.fate.name, x.msg.stamp, x.msg.data)])))
  }

  lemma HandledKeepsBags(p: Past, k: Sink, e: Exec, x: Handled)
    requires BagOk(p, k, e) && k.writer.Some? && (x.fate.Written? ==> x.fate.bag == |p.closed|)
    ensures BagOk(p.(handled := p.handled + [x]), AfterFate(k, x), e)
  {
    HandledExtendsBag(k.writer.value, p.handled, x, |p.closed|);
    HandledExtendsAll(p.closed, p.handled, x);
  }

  lemma WriterKeepsBags(s: Recorder, a: WriterAction)
    requires HoldsWriterMutex(s.thread.pc) ==> s.sink.writer.Some?
    requires BagOk(s.past, s.sink, s.exec) && WriterEnabled(s, a)
    ensures var s' := WriterStep(s, a); BagOk(s'.past, s'.sink, s'.exec)
  {
    var s', n := WriterStep(s, a), |s.past.closed|;
    match a
    case Lock => DiscardKeepsAll(s.past.closed, s.past.handled, s.thread.batch);
    case Lookup => HandledKeepsBags(s.past, s.sink, s.exec, Handled(s.thread.batch[0], BadIndex(n)));
    case Write(ok) =>
      HandledKeepsBags(s.past, s.sink, s.exec,
                       Handled(s.thread.batch[0], if ok then Written(n, s.thread.pc.name) else WriteFailed(n)));
    case Take =>
    case Count =>
    case CountTopic =>
    case RaiseStop =>
    case Unlock =>
    case Check =>
  }

  lemma HandledKeepsNames(p: Past, k: Sink, x: Handled)
    requires HandledNamedOk(p, k) && k.writer.Some?
    requires x.fate.Written? ==> x.fate.bag == |p.closed| && NamedOk(x, k.writer.value.registered)
    ensures HandledNamedOk(p.(handled := p.handled + [x]), AfterFate(k, x))
  {
  }

  lemma DiscardKeepsNames(p: Past, k: Sink, batch: seq<QueuedMessage>)
    requires HandledNamedOk(p, k)
    ensures HandledNamedOk(p.(handled := p.handled + Discarded(batch)), k)
  {
  }

  lemma WrittenIsNamed(s: Recorder)
    requires s.thread.pc.Looked? && s.sink.writer.Some?
    requires NameOk(s.past, s.thread, s.queue, s.sink, s.table, s.exec)
    ensures NamedOk(Handled(s.thread.batch[0], Written(|s.past.closed|, s.thread.pc.name)),
                    s.sink.writer.value.registered)
  {
    assert Names(s.table.topics)[s.thread.batch[0].topic] == s.thread.pc.name;
  }

  lemma WriterKeepsHandledNames(s: Recorder, a: WriterAction)
    requires HoldsWriterMutex(s.thread.pc) ==> s.sink.writer.Some?
    requires NameOk(s.past, s.thread, s.queue, s.sink, s.table, s.exec)
    requires HandledNamedOk(s.past, s.sink) && WriterEnabled(s, a)
    ensures var s' := WriterStep(s, a); HandledNamedOk(s'.past, s'.sink)
  {
    var n := |s.past.closed|;
    match a
    case Lock => DiscardKeepsNames(s.past, s.sink, s.thread.batch);
    case Lookup => HandledKeepsNames(s.past, s.sink, Handled(s.thread.batch[0], BadIndex(n)));
    case Write(ok) =>
      WrittenIsNamed(s);
      HandledKeepsNames(s.past, s.sink,
                        Handled(s.thread.batch[0], if ok then Written(n, s.thread.pc.name) else WriteFailed(n)));
    case Take =>
    case Count =>
    case CountTopic =>
    case RaiseStop =>
    case Unlock =>
    case Check =>
  }

  lemma WriterKeepsAllBags(s: Recorder, a: WriterAction)
    requires Control(s) && Bags(s) && WriterEnabled(s, a)
    ensures Bags(WriterStep(s, a))
  {
    WriterKeepsTags(s, a);
    WriterKeepsNames(s, a);
    WriterKeepsBags(s, a);
    WriterKeepsHandledNames(s, a);
  }

  // ---------- The executor ----------

  /** Steps that move neither messages nor bags nor topics. */
  predicate BagFrame(s: Recorder, s': Recorder) {
    && s'.thread == s.thread && s'.table == s.table
    && s'.queue.items == s.queue.items && s'.sink.writer == s.sink.writer
    && SameFates(s.past, s'.past)
    && (s'.exec.pc.Opened? ==> s'.exec.pc == s.exec.pc)
    && (BagNeeded(s'.exec) ==> BagNeeded(s.exec))
    && (s'.exec.pc.Destroying? || s'.exec.pc.Reporting? ==> |s.past.closed| > 0)
    && (s.exec.pc.Closing? ==> s'.exec.pc.Closing?)
  }

  predicate SameFates(p: Past, p': Past) {
    && p'.accepted == p.accepted && p'.dropped == p.dropped && p'.abandoned == p.abandoned
    && p'.handled == p.handled && p'.closed == p.closed && p'.exits == p.exits
  }

  lemma FrameKeepsBags(s: Recorder, s': Recorder)
    requires Bags(s) && BagFrame(s, s')
    ensures Bags(s')
  {
  }

  /** With no bag open no message belongs to the open episode, so the table may change freely. */
  lemma NoBagAnyTable(p: Past, w: WriterThread, q: Queue, k: Sink, t: Table, e: Exec)
    requires TagOk(p, w, q, k) && k.writer.None? && q.items == []
    requires ThreadOk(w) && !HoldsWriterMutex(w.pc)
    requires e.pc.Opened? ==> e.pc.registered == Names(t.topics)
    ensures NameOk(p, w, q, k, t, e)
  {
  }

  /** Steps that, with no bag open and nothing queued, change the table. */
  predicate TableFrame(s: Recorder, s': Recorder) {
    && s.sink.writer.None? && s'.sink.writer.None? && s.queue.items == [] && s'.queue.items == []
    && s'.thread == s.thread && ThreadOk(s.thread) && !HoldsWriterMutex(s.thread.pc)
    && SameFates(s.past, s'.past) && TableOk(s'.table)
    && (s'.exec.pc.Opened? ==> s'.exec.pc.registered == Names(s'.table.topics))
    && (s'.exec.pc.Destroying? || s'.exec.pc.Reporting? ==> |s.past.closed| > 0)
    && !s.exec.pc.Closing?
  }

  lemma TableFrameKeepsBags(s: Recorder, s': Recorder)
    requires Bags(s) && TableFrame(s, s')
    ensures Bags(s')
  {
    NoBagAnyTable(s'.past, s'.thread, s'.queue, s'.sink, s'.table, s'.exec);
  }

  lemma LifeFrame(s: Recorder, a: LifeAction)
    requires EpisodeOk(s.exec) && LifeEnabled(s, a) && !a.Configure? && !a.Clear?
    requires s.exec.pc.ErrorClosing? ==> s.sink.writer.None?
    ensures BagFrame(s, LifeStep(s, a))
  {
  }

  lemma LifeKeepsBags(s: Recorder, a: LifeAction)
    requires Control(s) && Bags(s) && LifeEnabled(s, a)
    ensures Bags(LifeStep(s, a))
  {
    match a
    case Configure(specs) =>
      ConfigureTableOk(specs);
      TableFrameKeepsBags(s, LifeStep(s, a));
    case Clear => TableFrameKeepsBags(s, ClearStep(s));
    case _ =>
      LifeFrame(s, a);
      FrameKeepsBags(s, LifeStep(s, a));
  }

  lemma StartEpisodeKeepsBags(s: Recorder, origin: Origin, limit: int, found: seq<RecordTopic>)
    requires ThreadOk(s.thread) && Bags(s)
    requires s.sink.writer.None? && s.queue.items == [] && !HoldsWriterMutex(s.thread.pc) && s.exec.pc.Idle?
    ensures Bags(StartEpisode(s, origin, limit, found))
  {
    StartTableOk(s.table, found);
    TableFrameKeepsBags(s, StartEpisode(s, origin, limit, found));
  }

  lemma OpenStorageKeepsBags(s: Recorder, created: nat, ok: bool)
    requires Control(s) && Bags(s) && s.exec.pc.Opening?
    ensures Bags(OpenStorageStep(s, created, ok))
  {
    ResetKeepsTable(s.table, created);
    TableFrameKeepsBags(s, OpenStorageStep(s, created, ok));
  }

  lemma LiveOfNoBag(handled: seq<Handled>, number: nat)
    requires forall i :: 0 <= i < |handled| ==> !WrittenTo(handled[i], number)
    ensures LiveEntries(handled, number) == []
  {
    LiveNone([], handled, number);
    assert [] + handled == handled;
  }

  /** Publishing a writer only raises the bound: nothing yet belongs to the new bag. */
  lemma PublishKeepsTags(p: Past, w: WriterThread, q: Queue, k: Sink, k': Sink)
    requires TagOk(p, w, q, k) && HandledNamedOk(p, k) && k.writer.None? && k'.writer.Some?
    ensures TagOk(p, w, q, k') && HandledNamedOk(p, k')
  {
  }

  /** Steps that only publish a writer, its head flushed from the table. */
  predicate PublishFrame(s: Recorder, s': Recorder) {
    && s'.past == s.past && s'.thread == s.thread && s'.queue == s.queue
    && s.sink.writer.None? && s.queue.items == [] && !HoldsWriterMutex(s.thread.pc)
    && s'.sink.writer.Some? && !s'.exec.pc.Opened?
    && TableOk(s'.table) && NewBag(s'.sink.writer.value, s'.exec)
    && s'.sink.writer.value.registered == Names(s'.table.topics)
    && !s.exec.pc.Closing? && !InFinish(s'.exec.pc)
  }

  predicate NewBag(bag: Bag, e: Exec) {
    && BornOk(bag) && bag.headLength <= |HeadEntries(bag.origin, bag.start)|
    && bag.entries == HeadEntries(bag.origin, bag.start)[..bag.headLength]
    && (BagNeeded(e) ==> Complete(bag))
  }

  lemma FlushedIsNew(s: Recorder, start: int, flushed: nat)
    requires StartEnabled(s, FlushHead(start, flushed))
    requires AllLatched(s.table.topics) && s.exec.pc.registered == Names(s.table.topics)
    requires !s.exec.recording
    ensures NewBag(FlushHeadStep(s, start, flushed).sink.writer.value, FlushHeadStep(s, start, flushed).exec)
  {
  }

  lemma FlushKeepsRest(s: Recorder, start: int, flushed: nat)
    requires StartEnabled(s, FlushHead(start, flushed))
    ensures var s' := FlushHeadStep(s, start, flushed);
      && s'.past == s.past && s'.thread == s.thread && s'.queue == s.queue
      && s'.table == s.table.(topics := FlushCounts(s.table.topics, flushed))
      && s'.sink.writer.Some? && s'.sink.writer.value.registered == s.exec.pc.registered
      && (s'.exec.pc.Flushed? || s'.exec.pc.OpenFailed?)
  {
  }

  /** A flush seen from outside: what it leaves alone, and the bag it publishes. */
  lemma PublishFrameFrom(s: Recorder, s': Recorder, flushed: nat)
    requires TableOk(s.table) && s'.table == s.table.(topics := FlushCounts(s.table.topics, flushed))
    requires s'.past == s.past && s'.thread == s.thread && s'.queue == s.queue
    requires s.sink.writer.None? && s.queue.items == [] && !HoldsWriterMutex(s.thread.pc)
    requires s'.sink.writer.Some? && s'.sink.writer.value.registered == Names(s.table.topics)
    requires NewBag(s'.sink.writer.value, s'.exec) && s.exec.pc.Opened?
    requires s'.exec.pc.Flushed? || s'.exec.pc.OpenFailed?
    ensures PublishFrame(s, s')
  {
    FlushKeepsTable(s.table, flushed);
  }

  lemma FlushFrame(s: Recorder, start: int, flushed: nat)
    requires s.exec.pc.Opened? && s.exec.pc.registered == Names(s.table.topics)
    requires StartEnabled(s, FlushHead(start, flushed)) && Control(s) && TableOk(s.table)
    ensures PublishFrame(s, FlushHeadStep(s, start, flushed))
  {
    FlushKeepsRest(s, start, flushed);
    FlushedIsNew(s, start, flushed);
    PublishFrameFrom(s, FlushHeadStep(s, start, flushed), flushed);
  }

  lemma PublishKeepsContents(p: Past, k: Sink, k': Sink, e: Exec, e': Exec)
    requires BagOk(p, k, e) && k.writer.None? && !e.pc.Closing? && !InFinish(e'.pc)
    requires k'.writer.Some? && NewBag(k'.writer.value, e')
    requires forall i :: 0 <= i < |p.handled| ==> !WrittenTo(p.handled[i], |p.closed|)
    ensures BagOk(p, k', e')
  {
    LiveOfNoBag(p.handled, |p.closed|);
  }

  lemma PublishKeepsBags(s: Recorder, s': Recorder)
    requires Bags(s) && PublishFrame(s, s')
    ensures Bags(s')
  {
    NothingWrittenYet(s.past, s.thread, s.queue, s.sink);
    PublishKeepsContents(s.past, s.sink, s'.sink, s.exec, s'.exec);
    PublishKeepsTags(s.past, s.thread, s.queue, s.sink, s'.sink);
    FlushKeepsNames(s, s');
  }

  lemma NothingWrittenYet(p: Past, w: WriterThread, q: Queue, k: Sink)
    requires TagOk(p, w, q, k) && k.writer.None?
    ensures forall i :: 0 <= i < |p.handled| ==> !WrittenTo(p.handled[i], |p.closed|)
  {
  }

  lemma FlushKeepsNames(s: Recorder, s': Recorder)
    requires TagOk(s.past, s.thread, s.queue, s.sink) && s.sink.writer.None? && s.queue.items == []
    requires !HoldsWriterMutex(s.thread.pc) && s'.past == s.past && s'.thread == s.thread && s'.queue == s.queue
    requires s'.sink.writer.Some? && s'.sink.writer.value.registered == Names(s'.table.topics)
    requires !s'.exec.pc.Opened?
    ensures NameOk(s'.past, s'.thread, s'.queue, s'.sink, s'.table, s'.exec)
  {
  }

  lemma CloseKeepsTags(p: Past, w: WriterThread, q: Queue, k: Sink)
    requires TagOk(p, w, q, k) && HandledNamedOk(p, k) && k.writer.Some? && q.items == []
    ensures var p', k' := p.(closed := p.closed + [k.writer.value]), k.(writer := None);
      TagOk(p', w, q, k') && HandledNamedOk(p', k')
  {
  }

  lemma CloseKeepsContents(p: Past, k: Sink, e: Exec, e': Exec)
    requires BagOk(p, k, e) && k.writer.Some?
    requires |p.closed| in p.exits ==> Complete(k.writer.value)
    requires !BagNeeded(e')
    ensures BagOk(p.(closed := p.closed + [k.writer.value]), k.(writer := None), e')
  {
    var closed := p.closed + [k.writer.value];
    forall i | 0 <= i < |closed| ensures BagMatches(closed[i], p.handled, i) && BornOk(closed[i]) {
      assert i < |p.closed| ==> closed[i] == p.closed[i];
    }
  }

  lemma AbortKeepsBags(s: Recorder)
    requires Control(s) && Bags(s) && StartEnabled(s, AbortOpen)
    ensures Bags(AbortOpenStep(s))
  {
    var s' := AbortOpenStep(s);
    if s.sink.writer.Some? {
      CloseKeepsTags(s.past, s.thread, s.queue, s.sink);
      CloseKeepsContents(s.past, s.sink, s.exec, s'.exec);
    }
    NoBagAnyTable(s'.past, s'.thread, s'.queue, s'.sink, s'.table, s'.exec);
  }

  lemma CloseBagKeepsBags(s: Recorder)
    requires Control(s) && Bags(s) && FinishEnabled(s, CloseBag)
    ensures Bags(FinishStep(s, CloseBag))
  {
    var s' := FinishStep(s, CloseBag);
    CloseKeepsTags(s.past, s.thread, s.queue, s.sink);
    CloseKeepsContents(s.past, s.sink, s.exec, s'.exec);
    NoBagAnyTable(s'.past, s'.thread, s'.queue, s'.sink, s'.table, s'.exec);
  }

  lemma StartServiceKeepsBags(s: Recorder, found: seq<RecordTopic>)
    requires Control(s) && Bags(s) && s.exec.pc.Idle?
    ensures Bags(StartServiceStep(s, found))
  {
    var e := s.exec;
    if e.accepting && !e.recording && !e.pending {
      var letGo := s.(
        exec := e.(goal := None, goalId := "", detached := e.detached || e.recording || e.pending),
        goals := if e.goal.Some? then s.goals.(released := s.goals.released + {e.goal.value}) else s.goals);
      StartEpisodeKeepsBags(letGo, ByService, 0, found);
    }
  }

  lemma SpawnKeepsBags(s: Recorder)
    requires Control(s) && Bags(s) && s.exec.pc.Flushed?
    ensures Bags(SpawnThreadStep(s))
  {
    var s' := SpawnThreadStep(s);
    assert s'.past.abandoned == s.past.abandoned;
  }

  lemma StartKeepsBags(s: Recorder, a: StartAction)
    requires Control(s) && Bags(s) && StartEnabled(s, a)
    ensures Bags(StartStep(s, a))
  {
    match a
    case AcceptGoal(goal, limit, found) =>
      StartEpisodeKeepsBags(
        s.(exec := s.exec.(goal := Some(goal)), goals := s.goals.(state := s.goals.state[goal := Executing])),
        ByGoal(goal), limit, found);
    case StartService(found) => StartServiceKeepsBags(s, found);
    case OpenStorage(created, ok) => OpenStorageKeepsBags(s, created, ok);
    case FlushHead(start, flushed) =>
      FlushFrame(s, start, flushed);
      PublishKeepsBags(s, FlushHeadStep(s, start, flushed));
    case AbortOpen => AbortKeepsBags(s);
    case SpawnThread => SpawnKeepsBags(s);
    case CompleteStart => FrameKeepsBags(s, StartStep(s, a));
    case GoLive(_) => FrameKeepsBags(s, StartStep(s, a));
  }

  lemma IdleDeliverKeepsBags(s: Recorder, index: nat, data: Payload, now: int)
    requires Control(s) && Bags(s) && s.exec.pc.Idle? && !s.exec.recording
    ensures Bags(DeliverStep(s, index, data, now))
  {
    IdleKeepsTable(s.table, index, BufferedMessage(data, now));
    TableFrameKeepsBags(s, DeliverStep(s, index, data, now));
  }

  lemma LiveDeliverKeepsTags(s: Recorder, index: nat, data: Payload, now: int)
    requires TagOk(s.past, s.thread, s.queue, s.sink) && s.sink.writer.Some? && s.exec.recording
    requires NameOk(s.past, s.thread, s.queue, s.sink, s.table, s.exec)
    requires index < |s.table.topics| && s.table.topics[index].spec.topic == data.source
    ensures var s' := DeliverStep(s, index, data, now);
      && TagOk(s'.past, s'.thread, s'.queue, s'.sink)
      && NameOk(s'.past, s'.thread, s'.queue, s'.sink, s'.table, s'.exec)
  {
  }

  lemma LiveDeliverKeepsBags(s: Recorder, index: nat, data: Payload, now: int)
    requires Control(s) && Bags(s) && s.exec.pc.Idle? && s.exec.recording
    requires index < |s.table.topics| && s.table.topics[index].spec.topic == data.source
    ensures Bags(DeliverStep(s, index, data, now))
  {
    var s' := DeliverStep(s, index, data, now);
    LiveDeliverKeepsTags(s, index, data, now);
  }

  lemma RunFrame(s: Recorder, a: RunAction)
    requires EpisodeOk(s.exec) && RunEnabled(s, a) && !a.Deliver?
    ensures BagFrame(s, RunStep(s, a))
  {
  }

  lemma RunKeepsBags(s: Recorder, a: RunAction)
    requires Control(s) && Bags(s) && RunEnabled(s, a)
    ensures Bags(RunStep(s, a))
  {
    var s' := RunStep(s, a);
    match a
    case Deliver(position, length, now) =>
      var sub := s.table.topics[position].sub;
      var data := Payload(s.past.delivered, length, sub.name);
      if s.exec.recording {
        LiveDeliverKeepsBags(s, sub.index, data, now);
      } else {
        IdleDeliverKeepsBags(s, sub.index, data, now);
      }
    case _ =>
      RunFrame(s, a);
      FrameKeepsBags(s, s');
  }

  lemma LeaveDrainKeepsBags(s: Recorder, ending: Ending, kind: ExitKind)
    requires Bags(s) && s.sink.writer.Some? && Complete(s.sink.writer.value)
    requires s.exec.pc.Finishing? || s.exec.pc.Draining?
    ensures Bags(LeaveDrain(s, ending, kind))
  {
    var s' := LeaveDrain(s, ending, kind);
    assert AllBelow(s'.past.abandoned, Bound(s'.past, s'.sink));
  }

  predicate Relabelled(bag: Bag, bag': Bag) {
    bag' == bag.(metadata := bag'.metadata, detached := bag'.detached)
  }

  lemma RelabelKeepsBag(bag: Bag, bag': Bag, handled: seq<Handled>, number: nat)
    requires BagMatches(bag, handled, number) && BornOk(bag) && Relabelled(bag, bag')
    ensures BagMatches(bag', handled, number) && BornOk(bag') && (Complete(bag) ==> Complete(bag'))
  {
  }

  /** Metadata changes neither the contents nor the registered topics of the last bag. */
  lemma RelabelKeepsContents(p: Past, k: Sink, bag: Bag, e: Exec, e': Exec)
    requires BagOk(p, k, e) && k.writer.None? && p.closed != [] && !e.pc.Closing?
    requires !BagNeeded(e') && Relabelled(p.closed[|p.closed| - 1], bag)
    ensures BagOk(p.(closed := p.closed[|p.closed| - 1 := bag]), k, e')
  {
    var closed, n := p.closed[|p.closed| - 1 := bag], |p.closed| - 1;
    RelabelKeepsBag(p.closed[n], bag, p.handled, n);
    forall i | 0 <= i < |closed|
      ensures BagMatches(closed[i], p.handled, i) && BornOk(closed[i])
      ensures Complete(p.closed[i]) ==> Complete(closed[i])
    {
      assert i < n ==> closed[i] == p.closed[i];
    }
  }

  lemma RelabelKeepsNames(p: Past, k: Sink, bag: Bag)
    requires HandledNamedOk(p, k) && k.writer.None? && p.closed != []
    requires Relabelled(p.closed[|p.closed| - 1], bag)
    ensures HandledNamedOk(p.(closed := p.closed[|p.closed| - 1 := bag]), k)
  {
  }

  /** Steps that only relabel the last closed bag. */
  predicate RelabelFrame(s: Recorder, s': Recorder) {
    && s.past.closed != [] && s.sink.writer.None? && !s.exec.pc.Closing?
    && s'.thread == s.thread && s'.table == s.table
    && s'.queue.items == s.queue.items == [] && s'.sink == s.sink
    && |s'.past.closed| == |s.past.closed|
    && Relabelled(s.past.closed[|s.past.closed| - 1], s'.past.closed[|s.past.closed| - 1])
    && s'.past == s.past.(closed := s.past.closed[|s.past.closed| - 1 := s'.past.closed[|s.past.closed| - 1]])
    && ThreadOk(s.thread) && !HoldsWriterMutex(s.thread.pc)
    && !s'.exec.pc.Opened? && !BagNeeded(s'.exec)
  }

  lemma ReportFrame(s: Recorder, metadataOk: bool)
    requires Control(s) && FinishEnabled(s, Report(metadataOk))
    ensures RelabelFrame(s, ReportStep(s, metadataOk))
  {
  }

  lemma RelabelKeepsBags(s: Recorder, s': Recorder)
    requires Bags(s) && RelabelFrame(s, s')
    ensures Bags(s')
  {
    var bag := s'.past.closed[|s.past.closed| - 1];
    RelabelKeepsContents(s.past, s.sink, bag, s.exec, s'.exec);
    RelabelKeepsNames(s.past, s.sink, bag);
    RelabelKeepsTags(s.past, s.thread, s.queue, s.sink, s'.past.closed);
    assert s'.queue.items == s.queue.items;
    NoBagAnyTable(s'.past, s'.thread, s'.queue, s'.sink, s'.table, s'.exec);
    BagsOf(s');
  }

  lemma BagsOf(s: Recorder)
    requires TableOk(s.table) && TagOk(s.past, s.thread, s.queue, s.sink)
    requires NameOk(s.past, s.thread, s.queue, s.sink, s.table, s.exec)
    requires BagOk(s.past, s.sink, s.exec) && HandledNamedOk(s.past, s.sink)
    ensures Bags(s)
  {
  }

  lemma RelabelKeepsTags(p: Past, w: WriterThread, q: Queue, k: Sink, closed: seq<Bag>)
    requires TagOk(p, w, q, k) && |closed| == |p.closed|
    ensures TagOk(p.(closed := closed), w, q, k)
  {
  }

  lemma DrainKeepsBags(s: Recorder, a: FinishAction)
    requires Control(s) && Bags(s) && FinishEnabled(s, a) && (a.BeginDrain? || a.WakeDrain? || a.DrainTimeout?)
    ensures Bags(FinishStep(s, a))
  {
    match a
    case BeginDrain =>
      FrameKeepsBags(s, s.(queue := s.queue.(flushRequested := true, flushDone := false),
                           exec := s.exec.(pc := Draining(s.exec.pc.ending))));
      LeaveDrainKeepsBags(s.(queue := s.queue.(flushRequested := true, flushDone := false)), s.exec.pc.ending, ByEmpty);
    case WakeDrain =>
      LeaveDrainKeepsBags(s, s.exec.pc.ending, if s.queue.flushDone then ByFlush else ByEmpty);
    case DrainTimeout => LeaveDrainKeepsBags(s, s.exec.pc.ending, ByTimeout);
  }

  lemma SettlingKeepsBags(s: Recorder, a: FinishAction)
    requires EpisodeOk(s.exec) && Bags(s) && FinishEnabled(s, a) && (a.TestCanceling? || a.CallSettle?)
    ensures Bags(FinishStep(s, a))
  {
    SettlingFrame(s, a);
    FrameKeepsBags(s, FinishStep(s, a));
  }

  lemma SettlingFrame(s: Recorder, a: FinishAction)
    requires EpisodeOk(s.exec) && FinishEnabled(s, a) && (a.TestCanceling? || a.CallSettle?)
    ensures BagFrame(s, FinishStep(s, a))
  {
  }

  lemma ReportKeepsBags(s: Recorder, metadataOk: bool)
    requires Control(s) && Bags(s) && FinishEnabled(s, Report(metadataOk))
    ensures Bags(ReportStep(s, metadataOk))
  {
    ReportFrame(s, metadataOk);
    RelabelKeepsBags(s, ReportStep(s, metadataOk));
  }

  lemma FinishKeepsBags(s: Recorder, a: FinishAction)
    requires Control(s) && Bags(s) && FinishEnabled(s, a)
    ensures Bags(FinishStep(s, a))
  {
    match a
    case CloseBag => CloseBagKeepsBags(s);
    case DestroyTopics => DestroyKeepsBags(s);
    case Report(metadataOk) => ReportKeepsBags(s, metadataOk);
    case TestCanceling => SettlingKeepsBags(s, a);
    case CallSettle => SettlingKeepsBags(s, a);
    case BeginDrain => DrainKeepsBags(s, a);
    case WakeDrain => DrainKeepsBags(s, a);
    case DrainTimeout => DrainKeepsBags(s, a);
  }

  lemma DestroyKeepsBags(s: Recorder)
    requires Control(s) && Bags(s) && FinishEnabled(s, DestroyTopics)
    ensures Bags(FinishStep(s, DestroyTopics))
  {
    DestroyKeepsTable(s.table);
    TableFrameKeepsBags(s, FinishStep(s, DestroyTopics));
  }
}
