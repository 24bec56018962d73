/** The counter of every topic is the number of messages of that topic in the open bag. */
module TopicCounts {
  import opened RecorderTypes
  import opened TopicTable
  import opened LatchedBuffers
  import opened RecorderState
  import opened WriterSteps
  import opened ExecutorSteps
  import opened ControlInvariant
  import opened BagInvariant

  /** How many entries are under this topic's name. */
  function CountName(entries: seq<Entry>, name: string): nat
    decreases |entries|
  {
    if entries == [] then 0
    else CountName(entries[..|entries| - 1], name) + (if entries[|entries| - 1].topic == name then 1 else 0)
  }

  /** The topic whose last message has been stored and is not in its counter yet. */
  function Uncounted(pc: WriterPc): Option<nat> {
    if pc.Stored? || pc.Counted? then Some(pc.topic) else None
  }

  predicate CountsExact(topics: seq<TopicState>, entries: seq<Entry>, uncounted: Option<nat>) {
    forall i :: 0 <= i < |topics| ==>
      topics[i].written + (if uncounted == Some(i) then 1 else 0) == CountName(entries, topics[i].spec.topic)
  }

  predicate TopicCountsOk(s: Recorder) {
    && (s.sink.writer.Some? ==>
      CountsExact(s.table.topics, s.sink.writer.value.entries, Uncounted(s.thread.pc)))
    && (s.exec.pc.Opened? ==> forall i :: 0 <= i < |s.table.topics| ==> s.table.topics[i].written == 0)
  }

  lemma InitialTopicCounts(defaultLimit: int)
    ensures TopicCountsOk(Initial(defaultLimit))
  {
  }

  // ---------- Counting ----------

  lemma CountNext(entries: seq<Entry>, x: Entry, name: string)
    ensures CountName(entries + [x], name) == CountName(entries, name) + if x.topic == name then 1 else 0
  {
    assert (entries + [x])[..|entries|] == entries;
  }

  lemma AppendLast(a: seq<Entry>, front: seq<Entry>, last: Entry, b: seq<Entry>)
    requires b == front + [last]
    ensures a + b == (a + front) + [last]
  {
  }

  lemma {:induction false} CountConcat(a: seq<Entry>, b: seq<Entry>, name: string)
    ensures CountName(a + b, name) == CountName(a, name) + CountName(b, name)
    decreases |b|
  {
    if b == [] {
      assert a + b == a;
    } else {
      var front, last := b[..|b| - 1], b[|b| - 1];
      CountConcat(a, front, name);
      CountNext(a + front, last, name);
      AppendLast(a, front, last, b);
    }
  }

  lemma {:induction false} CountUniform(entries: seq<Entry>, topic: string, name: string)
    requires forall k :: 0 <= k < |entries| ==> entries[k].topic == topic
    ensures CountName(entries, name) == if topic == name then |entries| else 0
    decreases |entries|
  {
    if entries != [] {
      CountUniform(entries[..|entries| - 1], topic, name);
    }
  }

  predicate NamesDistinct(topics: seq<TopicState>) {
    forall i, j :: 0 <= i < j < |topics| ==> topics[i].spec.topic != topics[j].spec.topic
  }

  lemma IndexedDistinct(t: Table)
    requires Indexed(t)
    ensures NamesDistinct(t.topics)
  {
    forall i, j | 0 <= i < j < |t.topics| ensures t.topics[i].spec.topic != t.topics[j].spec.topic {
      assert t.index[t.topics[i].spec.topic] == i && t.index[t.topics[j].spec.topic] == j;
    }
  }

  // ---------- The head ----------

  function Upto(n: nat, m: nat): nat {
    if n <= m then n else m
  }

  /** The first `n` entries: those of all topics but the last, then the share of the last topic. */
  lemma HeadSplit(topics: seq<TopicState>, start: int, n: nat)
    requires topics != [] && n <= |HeadEntries(topics, start)|
    ensures var front, last := topics[..|topics| - 1], topics[|topics| - 1];
      var m := HeadLength(front);
      && |HeadEntries(front, start)| == m && Share(n, m, |last.buffer|) <= |last.buffer|
      && HeadEntries(topics, start)[..n]
         == HeadEntries(front, start)[..Upto(n, m)]
            + Stamped(last.spec.topic, last.buffer, start)[..Share(n, m, |last.buffer|)]
  {
    HeadLengthIs(topics[..|topics| - 1], start);
  }

  lemma HeadSplitCounts(topics: seq<TopicState>, start: int, n: nat, name: string)
    requires topics != [] && n <= |HeadEntries(topics, start)|
    ensures var front, last := topics[..|topics| - 1], topics[|topics| - 1];
      var m := HeadLength(front);
      && |HeadEntries(front, start)| == m
      && CountName(HeadEntries(topics, start)[..n], name)
         == CountName(HeadEntries(front, start)[..Upto(n, m)], name)
            + (if last.spec.topic == name then Share(n, m, |last.buffer|) else 0)
  {
    var front, last := topics[..|topics| - 1], topics[|topics| - 1];
    HeadSplit(topics, start, n);
    var before := HeadEntries(front, start)[..Upto(n, HeadLength(front))];
    var rest := Stamped(last.spec.topic, last.buffer, start)[..Share(n, HeadLength(front), |last.buffer|)];
    CountConcat(before, rest, name);
    CountUniform(rest, last.spec.topic, name);
  }

  lemma {:induction false} NoneNamed(topics: seq<TopicState>, start: int, n: nat, name: string)
    requires n <= |HeadEntries(topics, start)|
    requires forall i :: 0 <= i < |topics| ==> topics[i].spec.topic != name
    ensures CountName(HeadEntries(topics, start)[..n], name) == 0
    decreases |topics|
  {
    if topics != [] {
      HeadSplitCounts(topics, start, n, name);
      NoneNamed(topics[..|topics| - 1], start, Upto(n, HeadLength(topics[..|topics| - 1])), name);
    }
  }

  lemma ShareSaturates(topics: seq<TopicState>, n: nat, i: nat)
    requires i < |topics|
    ensures Share(Upto(n, HeadLength(topics)), HeadLength(topics[..i]), |topics[i].buffer|)
         == Share(n, HeadLength(topics[..i]), |topics[i].buffer|)
  {
    HeadLengthNext(topics, i);
    HeadLengthGrows(topics, i + 1, |topics|);
    assert topics[..|topics|] == topics;
  }

  /** After `n` entries of the head, every topic's counter has grown by its own share of them. */
  lemma {:induction false} HeadCounts(topics: seq<TopicState>, start: int, n: nat, i: nat)
    requires NamesDistinct(topics) && n <= |HeadEntries(topics, start)| && i < |topics|
    ensures Share(n, HeadLength(topics[..i]), |topics[i].buffer|)
         == CountName(HeadEntries(topics, start)[..n], topics[i].spec.topic)
    decreases |topics|
  {
    var front, name := topics[..|topics| - 1], topics[i].spec.topic;
    HeadSplitCounts(topics, start, n, name);
    if i < |front| {
      HeadCounts(front, start, Upto(n, HeadLength(front)), i);
      assert topics[..i] == front[..i];
      ShareSaturates(front, n, i);
    } else {
      NoneNamed(front, start, Upto(n, HeadLength(front)), name);
    }
  }

  lemma HeadCountsExact(topics: seq<TopicState>, start: int, n: nat)
    requires NamesDistinct(topics) && n <= |HeadEntries(topics, start)|
    requires forall i :: 0 <= i < |topics| ==> topics[i].written == 0
    ensures CountsExact(FlushCounts(topics, n), HeadEntries(topics, start)[..n], None)
  {
    FlushSaturates(topics, n);
    forall i | 0 <= i < |topics|
      ensures FlushCounts(topics, n)[i].spec == topics[i].spec
      ensures FlushCounts(topics, n)[i].written == CountName(HeadEntries(topics, start)[..n], topics[i].spec.topic)
    {
      FlushCountAt(topics, n, i);
      HeadCounts(topics, start, n, i);
    }
  }

  // ---------- The writer thread ----------

  lemma StoreCounts(topics: seq<TopicState>, entries: seq<Entry>, x: Entry, i: nat)
    requires NamesDistinct(topics) && i < |topics| && x.topic == topics[i].spec.topic
    requires CountsExact(topics, entries, None)
    ensures CountsExact(topics, entries + [x], Some(i))
  {
    forall k | 0 <= k < |topics|
      ensures topics[k].written + (if k == i then 1 else 0) == CountName(entries + [x], topics[k].spec.topic)
    {
      CountNext(entries, x, topics[k].spec.topic);
      assert k != i ==> topics[k].spec.topic != topics[i].spec.topic;
    }
  }

  lemma CountCounts(topics: seq<TopicState>, entries: seq<Entry>, i: nat)
    requires i < |topics| && CountsExact(topics, entries, Some(i))
    ensures CountsExact(CountOne(topics, i), entries, None)
  {
  }

  lemma OthersCountNothing(s: Recorder, a: WriterAction)
    requires WriterEnabled(s, a) && a != Write(true) && !a.CountTopic?
    ensures var s' := WriterStep(s, a);
      && s'.table == s.table && s'.exec == s.exec && Uncounted(s'.thread.pc) == Uncounted(s.thread.pc)
      && s'.sink.writer == s.sink.writer
  {
  }

  lemma WriterKeepsTopicCounts(s: Recorder, a: WriterAction)
    requires TopicCountsOk(s) && WriterEnabled(s, a) && Indexed(s.table)
    requires NameOk(s.past, s.thread, s.queue, s.sink, s.table, s.exec)
    requires s.exec.pc.Opened? ==> s.sink.writer.None?
    requires HoldsWriterMutex(s.thread.pc) ==> s.sink.writer.Some?
    ensures TopicCountsOk(WriterStep(s, a))
  {
    if a == Write(true) {
      IndexedDistinct(s.table);
      var m := s.thread.batch[0];
      StoreCounts(s.table.topics, s.sink.writer.value.entries, Entry(s.thread.pc.name, m.stamp, m.data), m.topic);
    } else if a.CountTopic? {
      CountCounts(s.table.topics, s.sink.writer.value.entries, s.thread.pc.topic);
    } else {
      OthersCountNothing(s, a);
    }
  }

  // ---------- The executor ----------

  /** Steps that leave an open bag, the counters and the writer's place alone, or that leave no bag open. */
  predicate TopicCountFrame(s: Recorder, s': Recorder) {
    && (s'.sink.writer.Some? ==>
      s'.sink.writer == s.sink.writer && s'.table == s.table && Uncounted(s'.thread.pc) == Uncounted(s.thread.pc))
    && (s'.exec.pc.Opened? ==> s.exec.pc == s'.exec.pc && s'.table == s.table)
  }

  lemma FrameKeepsTopicCounts(s: Recorder, s': Recorder)
    requires TopicCountsOk(s) && TopicCountFrame(s, s')
    ensures TopicCountsOk(s')
  {
  }

  lemma LifeFrame(s: Recorder, a: LifeAction)
    requires Control(s) && LifeEnabled(s, a)
    ensures TopicCountFrame(s, LifeStep(s, a))
  {
  }

  lemma RunFrame(s: Recorder, a: RunAction)
    requires Control(s) && RunEnabled(s, a)
    ensures TopicCountFrame(s, RunStep(s, a))
  {
  }

  lemma FinishFrame(s: Recorder, a: FinishAction)
    requires Control(s) && FinishEnabled(s, a)
    ensures TopicCountFrame(s, FinishStep(s, a))
  {
  }

  lemma StartFrame(s: Recorder, a: StartAction)
    requires Control(s) && StartEnabled(s, a) && !a.OpenStorage? && !a.FlushHead?
    ensures TopicCountFrame(s, StartStep(s, a))
  {
  }

  lemma FlushTopicCounts(s: Recorder, start: int, flushed: nat)
    requires Control(s) && TopicCountsOk(s) && Indexed(s.table) && StartEnabled(s, FlushHead(start, flushed))
    ensures TopicCountsOk(FlushHeadStep(s, start, flushed))
  {
    IndexedDistinct(s.table);
    HeadCountsExact(s.table.topics, start, flushed);
  }

  lemma StartKeepsTopicCounts(s: Recorder, a: StartAction)
    requires Control(s) && TopicCountsOk(s) && Indexed(s.table) && StartEnabled(s, a)
    ensures TopicCountsOk(StartStep(s, a))
  {
    match a
    case OpenStorage(_, _) =>
    case FlushHead(start, flushed) => FlushTopicCounts(s, start, flushed);
    case _ =>
      StartFrame(s, a);
      FrameKeepsTopicCounts(s, StartStep(s, a));
  }
}
