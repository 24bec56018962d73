/** What a whole batch calls for, when the writer thread works through it without interruption. */
module WriterBatch {
  import opened RecorderTypes
  import opened TopicTable
  import opened MessageFlow
  import opened RecorderState
  import opened WriterSteps

  /** What becomes of one message while bag number `n` is open and `names` are the topics. */
  function FateOf(m: QueuedMessage, names: seq<string>, n: nat, ok: bool): Fate {
    if m.topic >= |names| then BadIndex(n) else if ok then Written(n, names[m.topic]) else WriteFailed(n)
  }

  /** One more entry in the bag, and counted. */
  function AfterEntry(k: Sink, entry: Entry): (k': Sink)
    requires k.writer.Some?
    ensures k'.writer.Some?
  {
    var bag := k.writer.value;
    k.(writer := Some(bag.(entries := bag.entries + [entry])), messagesWritten := k.messagesWritten + 1)
  }

  /** The bag and the shared flags after one message. */
  function SinkAfter(k: Sink, m: QueuedMessage, names: seq<string>, ok: bool): (k': Sink)
    requires k.writer.Some?
    ensures k'.writer.Some?
  {
    if m.topic >= |names| then k
    else if !ok then k.(writeFailed := true, stopRequested := true)
    else AfterEntry(k, Entry(names[m.topic], m.stamp, m.data))
  }

  function BatchSink(k: Sink, batch: seq<QueuedMessage>, names: seq<string>, ok: seq<bool>): (k': Sink)
    requires k.writer.Some? && |ok| == |batch|
    ensures k'.writer.Some?
    decreases |batch|
  {
    if batch == [] then k
    else
      var i := |batch| - 1;
      SinkAfter(BatchSink(k, batch[..i], names, ok[..i]), batch[i], names, ok[i])
  }

  function BatchFates(batch: seq<QueuedMessage>, names: seq<string>, n: nat, ok: seq<bool>): seq<Handled>
    requires |ok| == |batch|
    decreases |batch|
  {
    if batch == [] then []
    else
      var k := |batch| - 1;
      BatchFates(batch[..k], names, n, ok[..k]) + [Handled(batch[k], FateOf(batch[k], names, n, ok[k]))]
  }

  function TopicsAfter(topics: seq<TopicState>, m: QueuedMessage, ok: bool): seq<TopicState> {
    if ok then CountOne(topics, m.topic) else topics
  }

  function BatchTopics(topics: seq<TopicState>, batch: seq<QueuedMessage>, ok: seq<bool>): seq<TopicState>
    requires |ok| == |batch|
    decreases |batch|
  {
    if batch == [] then topics
    else TopicsAfter(BatchTopics(topics, batch[..|batch| - 1], ok[..|batch| - 1]), batch[|batch| - 1], ok[|batch| - 1])
  }

  predicate AnyFailed(fates: seq<Handled>) {
    exists i :: 0 <= i < |fates| && fates[i].fate.WriteFailed?
  }

  // ---------- The whole state, message by message ----------

  /** One turn of the batch loop. */
  function OneMessage(s: Recorder, ok: bool): Recorder
    requires s.thread.batch != [] && s.sink.writer.Some?
  {
    var m, names := s.thread.batch[0], Names(s.table.topics);
    Disposed(s, FateOf(m, names, |s.past.closed|, ok), Between).(
      sink := SinkAfter(s.sink, m, names, ok),
      table := s.table.(topics := TopicsAfter(s.table.topics, m, ok)))
  }

  /** The first `n` turns. */
  function Messages(s: Recorder, ok: seq<bool>, n: nat): (r: Recorder)
    requires s.sink.writer.Some? && n <= |ok| == |s.thread.batch|
    ensures r.thread.batch == s.thread.batch[n..] && r.sink.writer.Some?
  {
    if n == 0 then s else OneMessage(Messages(s, ok, n - 1), ok[n - 1])
  }

  lemma CountedShape(topics: seq<TopicState>, m: QueuedMessage, ok: bool)
    ensures SameShape(topics, TopicsAfter(topics, m, ok)) && Names(TopicsAfter(topics, m, ok)) == Names(topics)
  {
  }

  /** After `n` turns: each component is what the first `n` messages of the batch call for. */
  lemma {:induction false} MessagesAre(s: Recorder, ok: seq<bool>, n: nat)
    requires s.thread.pc == Between && s.sink.writer.Some? && n <= |ok| == |s.thread.batch|
    ensures var all, names, bag := s.thread.batch, Names(s.table.topics), |s.past.closed|;
      && Messages(s, ok, n) == s.(
           thread := s.thread.(batch := all[n..]),
           sink := BatchSink(s.sink, all[..n], names, ok[..n]),
           table := s.table.(topics := BatchTopics(s.table.topics, all[..n], ok[..n])),
           past := s.past.(handled := s.past.handled + BatchFates(all[..n], names, bag, ok[..n])))
      && Names(BatchTopics(s.table.topics, all[..n], ok[..n])) == names
  {
    var all, names, bag := s.thread.batch, Names(s.table.topics), |s.past.closed|;
    if n == 0 {
      assert s.past.handled + [] == s.past.handled;
    } else {
      MessagesAre(s, ok, n - 1);
      assert all[..n][..n - 1] == all[..n - 1] && ok[..n][..n - 1] == ok[..n - 1];
      CountedShape(BatchTopics(s.table.topics, all[..n - 1], ok[..n - 1]), all[n - 1], ok[n - 1]);
      assert s.past.handled + BatchFates(all[..n - 1], names, bag, ok[..n - 1])
             + [Handled(all[n - 1], FateOf(all[n - 1], names, bag, ok[n - 1]))]
          == s.past.handled + BatchFates(all[..n], names, bag, ok[..n]);
    }
  }

  /** The whole batch, the lock included. */
  function AfterBatchOf(s: Recorder, ok: seq<bool>): Recorder
    requires |ok| == |s.thread.batch|
  {
    var batch, names, n := s.thread.batch, Names(s.table.topics), |s.past.closed|;
    if s.sink.writer.None? then
      s.(thread := AfterBatch(s.thread), past := s.past.(handled := s.past.handled + Discarded(batch)))
    else
      s.(thread := AfterBatch(s.thread),
         sink := BatchSink(s.sink, batch, names, ok),
         table := s.table.(topics := BatchTopics(s.table.topics, batch, ok)),
         past := s.past.(handled := s.past.handled + BatchFates(batch, names, n, ok)))
  }

  /** Locking, dealing with each message and unlocking leave what the whole batch calls for. */
  lemma HandledIs(s: Recorder, ok: seq<bool>)
    requires WriterEnabled(s, Lock) && s.sink.writer.Some? && |ok| == |s.thread.batch|
    ensures var written := Messages(WriterStep(s, Lock), ok, |ok|);
      WriterEnabled(written, Unlock) && WriterStep(written, Unlock) == AfterBatchOf(s, ok)
  {
    MessagesAre(WriterStep(s, Lock), ok, |ok|);
    assert s.thread.batch[..|ok|] == s.thread.batch && ok[..|ok|] == ok;
  }

  /** One pass of the loop, from the wait to the answer. */
  function PassOf(s: Recorder, ok: seq<bool>): Recorder
    requires |ok| == BatchSize(s.queue)
  {
    var taken := TakeStep(s);
    var handled := if taken.thread.pc.Holding? then AfterBatchOf(taken, ok) else taken;
    if handled.thread.pc.Checking? then CheckStep(handled) else handled
  }

  /**
    An uninterrupted pass over a flush request takes what fits in one batch; the request is answered exactly
    when that was the whole queue, and then every queued message has had its fate.
   */
  lemma PassAnswers(s: Recorder, ok: seq<bool>)
    requires s.thread.pc.Top? && s.thread.batch == [] && s.queue.flushRequested && !s.queue.flushDone
    requires |ok| == BatchSize(s.queue) && (s.queue.running || s.queue.items != [])
    ensures var s', n := PassOf(s, ok), BatchSize(s.queue);
      && s'.thread.pc.Top? && s'.thread.batch == [] && s'.queue.items == s.queue.items[n..]
      && (s'.queue.flushDone <==> |s.queue.items| <= 256)
      && Msgs(s'.past.handled) == Msgs(s.past.handled) + s.queue.items[..n]
  {
    var taken, n := TakeStep(s), BatchSize(s.queue);
    var batch := s.queue.items[..n];
    if s.sink.writer.Some? {
      BatchLeaves(s.sink, batch, Names(s.table.topics), |s.past.closed|, ok);
      MsgsConcat(s.past.handled, BatchFates(batch, Names(s.table.topics), |s.past.closed|, ok));
    } else {
      MsgsConcat(s.past.handled, Discarded(batch));
      assert Msgs(Discarded(batch)) == batch;
    }
  }

  // ---------- What a batch leaves behind ----------

  predicate Grown(k: Sink, k': Sink, entries: seq<Entry>, failed: bool) {
    && k.writer.Some? && k'.writer.Some?
    && k'.writer.value == k.writer.value.(entries := k.writer.value.entries + entries)
    && k'.messagesWritten == k.messagesWritten + |entries|
    && k'.writeFailed == (k.writeFailed || failed)
    && k'.stopRequested == (k.stopRequested || failed)
  }

  lemma GrowsByOne(k: Sink, k': Sink, fates: seq<Handled>, m: QueuedMessage, names: seq<string>, n: nat, ok: bool)
    requires Grown(k, k', LiveEntries(fates, n), AnyFailed(fates))
    ensures var more := fates + [Handled(m, FateOf(m, names, n, ok))];
      Grown(k, SinkAfter(k', m, names, ok), LiveEntries(more, n), AnyFailed(more))
  {
    var last := Handled(m, FateOf(m, names, n, ok));
    LiveStep(fates, last, n);
    FailedStep(fates, last);
  }

  lemma FailedStep(fates: seq<Handled>, last: Handled)
    ensures AnyFailed(fates + [last]) <==> AnyFailed(fates) || last.fate.WriteFailed?
  {
    var more := fates + [last];
    assert more[|fates|] == last;
    assert forall i :: 0 <= i < |fates| ==> more[i] == fates[i];
  }

  lemma {:induction false} OneFateEach(batch: seq<QueuedMessage>, names: seq<string>, n: nat, ok: seq<bool>)
    requires |ok| == |batch|
    ensures Msgs(BatchFates(batch, names, n, ok)) == batch
    decreases |batch|
  {
    if batch != [] {
      var i := |batch| - 1;
      var front := BatchFates(batch[..i], names, n, ok[..i]);
      var last := Handled(batch[i], FateOf(batch[i], names, n, ok[i]));
      OneFateEach(batch[..i], names, n, ok[..i]);
      MsgsConcat(front, [last]);
      assert Msgs([last]) == [batch[i]];
      assert batch == batch[..i] + [batch[i]];
    }
  }

  lemma {:induction false} BagGrows(k: Sink, batch: seq<QueuedMessage>, names: seq<string>, n: nat, ok: seq<bool>)
    requires k.writer.Some? && |ok| == |batch|
    ensures var fates := BatchFates(batch, names, n, ok);
      Grown(k, BatchSink(k, batch, names, ok), LiveEntries(fates, n), AnyFailed(fates))
    decreases |batch|
  {
    if batch == [] {
      assert k.writer.value.entries + [] == k.writer.value.entries;
    } else {
      var i := |batch| - 1;
      BagGrows(k, batch[..i], names, n, ok[..i]);
      GrowsByOne(k, BatchSink(k, batch[..i], names, ok[..i]), BatchFates(batch[..i], names, n, ok[..i]),
                 batch[i], names, n, ok[i]);
    }
  }

  /**
    Every message of the batch gets one fate, in order; the bag grows by the entries of the written ones,
    messages_written_ by their number, and both flags go up exactly when some write failed.
   */
  lemma {:induction false} BatchLeaves(k: Sink, batch: seq<QueuedMessage>, names: seq<string>, n: nat, ok: seq<bool>)
    requires k.writer.Some? && |ok| == |batch|
    ensures var fates := BatchFates(batch, names, n, ok);
      && Msgs(fates) == batch
      && Grown(k, BatchSink(k, batch, names, ok), LiveEntries(fates, n), AnyFailed(fates))
  {
    OneFateEach(batch, names, n, ok);
    BagGrows(k, batch, names, n, ok);
  }

  /** The per-topic counters grow by exactly the entries written. */
  lemma {:induction false} BatchCounts(topics: seq<TopicState>, batch: seq<QueuedMessage>, n: nat, ok: seq<bool>)
    requires |ok| == |batch|
    ensures SameShape(topics, BatchTopics(topics, batch, ok))
    ensures SumWritten(BatchTopics(topics, batch, ok))
         == SumWritten(topics) + |LiveEntries(BatchFates(batch, Names(topics), n, ok), n)|
    decreases |batch|
  {
    if batch != [] {
      var i := |batch| - 1;
      var front := BatchTopics(topics, batch[..i], ok[..i]);
      BatchCounts(topics, batch[..i], n, ok[..i]);
      LiveStep(BatchFates(batch[..i], Names(topics), n, ok[..i]),
               Handled(batch[i], FateOf(batch[i], Names(topics), n, ok[i])), n);
      if batch[i].topic < |front| {
        SumCountOne(front, batch[i].topic);
      }
    }
  }
}
