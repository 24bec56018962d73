/**
  Latched messages: kept per topic while idle, at most `depth` of them, and written at the head of
  the next bag.
 */
module LatchedBuffers {
  import opened RecorderTypes
  import opened TopicTable

  // ---------- The idle branch of on_message ----------

  /** A depth as the loop bound sees it: an int cast to a 64-bit unsigned. */
  function Capacity(depth: int): nat {
    depth % 0x1_0000_0000_0000_0000
  }

  predicate Retains(spec: RecordTopic, msg: BufferedMessage) {
    spec.qos.transientLocal && spec.strategy != NoBuffer && msg.data.length <= MAX_BUFFER_BYTES
  }

  function LastN<T>(s: seq<T>, n: nat): seq<T> {
    if |s| <= n then s else s[|s| - n..]
  }

  function Buffered(topic: TopicState, msg: BufferedMessage): TopicState {
    topic.(
      seen := topic.seen + [msg],
      buffer := if Retains(topic.spec, msg)
                then LastN(topic.buffer + [msg], Capacity(topic.spec.qos.depth))
                else topic.buffer)
  }

  function IdleMessage(topics: seq<TopicState>, index: nat, msg: BufferedMessage): seq<TopicState> {
    if index >= |topics| then topics else topics[index := Buffered(topics[index], msg)]
  }

  // ---------- What a buffer must hold ----------

  function Eligible(spec: RecordTopic, seen: seq<BufferedMessage>): seq<BufferedMessage>
    decreases |seen|
  {
    if seen == [] then []
    else
      Eligible(spec, seen[..|seen| - 1])
      + (if Retains(spec, seen[|seen| - 1]) then [seen[|seen| - 1]] else [])
  }

  /** The buffer is the last `depth` eligible messages of everything the topic saw while idle. */
  predicate Latched(topic: TopicState) {
    topic.buffer == LastN(Eligible(topic.spec, topic.seen), Capacity(topic.spec.qos.depth))
  }

  predicate AllLatched(topics: seq<TopicState>) {
    forall i :: 0 <= i < |topics| ==> Latched(topics[i])
  }

  lemma LastNSlides<T>(s: seq<T>, x: T, n: nat)
    ensures LastN(LastN(s, n) + [x], n) == LastN(s + [x], n)
  {
  }

  /** The bounded ring refines "the last depth eligible messages", one arrival at a time. */
  lemma BufferedLatched(topic: TopicState, msg: BufferedMessage)
    requires Latched(topic)
    ensures Latched(Buffered(topic, msg))
  {
    var seen := topic.seen + [msg];
    assert seen[..|seen| - 1] == topic.seen;
    LastNSlides(Eligible(topic.spec, topic.seen), msg, Capacity(topic.spec.qos.depth));
  }

  lemma CapacityIsDepth(depth: int)
    requires 0 <= depth < 0x8000_0000
    ensures Capacity(depth) == depth
  {
  }

  /** An eligible arrival on a contract topic is always kept, as the newest of at most `depth` messages. */
  lemma EligibleIsKept(topic: TopicState, msg: BufferedMessage)
    requires ContractTopic(topic.spec)
    requires Retains(topic.spec, msg)
    ensures 1 <= |Buffered(topic, msg).buffer| <= topic.spec.qos.depth
    ensures Buffered(topic, msg).buffer[|Buffered(topic, msg).buffer| - 1] == msg
  {
    CapacityIsDepth(topic.spec.qos.depth);
  }

  /** What is retained, in so many words: latched, buffered by strategy, and at most 4 MiB. */
  lemma RetainsIff(spec: RecordTopic, msg: BufferedMessage)
    ensures Retains(spec, msg) <==>
      spec.qos.transientLocal && (spec.strategy.Accumulate? || spec.strategy.ResubscribeOnStart?)
      && msg.data.length <= 4194304
  {
  }

  /** Eligible filters, message by message. */
  lemma EligibleNext(spec: RecordTopic, seen: seq<BufferedMessage>, msg: BufferedMessage)
    ensures Eligible(spec, []) == []
    ensures Eligible(spec, seen + [msg]) == Eligible(spec, seen) +
      if spec.qos.transientLocal && !spec.strategy.NoBuffer? && msg.data.length <= 4194304 then [msg] else []
  {
    assert (seen + [msg])[..|seen|] == seen;
  }

  lemma LastNIs<T>(s: seq<T>, n: nat)
    ensures |LastN(s, n)| == if n < |s| then n else |s|
    ensures forall j :: 0 <= j < |LastN(s, n)| ==> LastN(s, n)[j] == s[|s| - |LastN(s, n)| + j]
  {
  }

  lemma {:induction false} NoneEligible(spec: RecordTopic, seen: seq<BufferedMessage>)
    requires spec.strategy == NoBuffer
    ensures Eligible(spec, seen) == []
    decreases |seen|
  {
    if seen != [] {
      NoneEligible(spec, seen[..|seen| - 1]);
    }
  }

  /** As many as there are, but at most `n`, counted from the end and in the same order. */
  predicate HoldsLast(buffer: seq<BufferedMessage>, e: seq<BufferedMessage>, n: int) {
    var k := if |e| < n then |e| else n;
    |buffer| == k && forall j :: 0 <= j < k ==> buffer[j] == e[|e| - k + j]
  }

  lemma BufferIsLast(buffer: seq<BufferedMessage>, e: seq<BufferedMessage>, n: nat)
    requires buffer == LastN(e, n)
    ensures HoldsLast(buffer, e, n)
  {
    LastNIs(e, n);
  }

  lemma LatchedByDepth(topic: TopicState)
    requires Latched(topic) && ContractTopic(topic.spec)
    ensures topic.buffer == LastN(Eligible(topic.spec, topic.seen), topic.spec.qos.depth)
  {
    CapacityIsDepth(topic.spec.qos.depth);
  }

  // ---------- Deferring ----------

  lemma {:induction false} ResubscribeCountIs(topics: seq<TopicState>)
    ensures ResubscribeCount(topics) > 0 <==>
      exists i :: 0 <= i < |topics| && topics[i].spec.strategy == ResubscribeOnStart
    decreases |topics|
  {
    if topics != [] {
      var front, last := topics[..|topics| - 1], topics[|topics| - 1];
      ResubscribeCountIs(front);
      if i :| 0 <= i < |front| && front[i].spec.strategy == ResubscribeOnStart {
        assert topics[i] == front[i];
      }
    }
  }

  lemma IdleMessageLatched(topics: seq<TopicState>, index: nat, msg: BufferedMessage)
    requires AllLatched(topics)
    ensures AllLatched(IdleMessage(topics, index, msg))
    ensures SameShape(topics, IdleMessage(topics, index, msg))
  {
    if index < |topics| {
      BufferedLatched(topics[index], msg);
    }
  }

  // ---------- prepare_resubscribes ----------

  function ResubscribeOne(topic: TopicState, position: nat): TopicState {
    if topic.spec.strategy != ResubscribeOnStart then topic
    else topic.(buffer := [], seen := [], sub := Subscription(position, topic.spec.topic))
  }

  function Resubscribe(topics: seq<TopicState>): seq<TopicState> {
    seq(|topics|, i requires 0 <= i < |topics| => ResubscribeOne(topics[i], i))
  }

  function ResubscribeCount(topics: seq<TopicState>): nat
    decreases |topics|
  {
    if topics == [] then 0
    else
      ResubscribeCount(topics[..|topics| - 1])
      + (if topics[|topics| - 1].spec.strategy == ResubscribeOnStart then 1 else 0)
  }

  lemma ResubscribeLatched(t: Table)
    requires ValidTable(t) && AllLatched(t.topics)
    ensures AllLatched(Resubscribe(t.topics))
    ensures SameShape(t.topics, Resubscribe(t.topics))
    ensures forall i :: 0 <= i < |t.topics| && t.topics[i].spec.strategy == ResubscribeOnStart ==>
      Resubscribe(t.topics)[i].buffer == []
    ensures forall i :: 0 <= i < |t.topics| && t.topics[i].spec.strategy != ResubscribeOnStart ==>
      Resubscribe(t.topics)[i] == t.topics[i]
  {
  }

  // ---------- The head of a bag ----------

  function Stamped(name: string, buffer: seq<BufferedMessage>, start: int): seq<Entry> {
    seq(|buffer|, i requires 0 <= i < |buffer| => Entry(name, start, buffer[i].data))
  }

  /** Every buffer in topic order, all at the bag-start time. */
  function HeadEntries(topics: seq<TopicState>, start: int): seq<Entry>
    decreases |topics|
  {
    if topics == [] then []
    else
      var last := topics[|topics| - 1];
      HeadEntries(topics[..|topics| - 1], start) + Stamped(last.spec.topic, last.buffer, start)
  }

  function HeadLength(topics: seq<TopicState>): nat
    decreases |topics|
  {
    if topics == [] then 0 else HeadLength(topics[..|topics| - 1]) + |topics[|topics| - 1].buffer|
  }

  /** How many of a topic's buffered messages are among the first `n` written, `before` preceding them. */
  function Share(n: nat, before: nat, size: nat): nat {
    if n <= before then 0 else if n - before < size then n - before else size
  }

  /** The per-topic counters after `n` messages of the head have been written. */
  function FlushCounts(topics: seq<TopicState>, n: nat): seq<TopicState>
    decreases |topics|
  {
    if topics == [] then []
    else
      var front, last := topics[..|topics| - 1], topics[|topics| - 1];
      FlushCounts(front, n)
      + [last.(written := last.written + Share(n, HeadLength(front), |last.buffer|))]
  }

  predicate SameBuffers(a: seq<TopicState>, b: seq<TopicState>) {
    |a| == |b| && forall i :: 0 <= i < |a| ==> a[i].spec == b[i].spec && a[i].buffer == b[i].buffer
  }

  lemma {:induction false} HeadLengthIs(topics: seq<TopicState>, start: int)
    ensures |HeadEntries(topics, start)| == HeadLength(topics)
    decreases |topics|
  {
    if topics != [] {
      HeadLengthIs(topics[..|topics| - 1], start);
    }
  }

  lemma {:induction false} FlushCountsSum(topics: seq<TopicState>, n: nat)
    requires n <= HeadLength(topics)
    ensures |FlushCounts(topics, n)| == |topics|
    ensures SumWritten(FlushCounts(topics, n)) == SumWritten(topics) + n
    decreases |topics|
  {
    if topics != [] {
      var front, last := topics[..|topics| - 1], topics[|topics| - 1];
      var flushed := FlushCounts(topics, n);
      FlushSaturates(front, n);
      FlushCountsSum(front, if n <= HeadLength(front) then n else HeadLength(front));
      assert flushed[..|flushed| - 1] == FlushCounts(front, n);
    }
  }

  lemma {:induction false} FlushSaturates(topics: seq<TopicState>, n: nat)
    ensures |FlushCounts(topics, n)| == |topics|
    ensures n >= HeadLength(topics) ==> FlushCounts(topics, n) == FlushCounts(topics, HeadLength(topics))
    decreases |topics|
  {
    if topics != [] {
      var front, last := topics[..|topics| - 1], topics[|topics| - 1];
      FlushSaturates(front, n);
      FlushSaturates(front, HeadLength(topics));
    }
  }

  lemma {:induction false} FlushKeepsTopics(topics: seq<TopicState>, n: nat)
    ensures SameShape(topics, FlushCounts(topics, n))
    ensures AllLatched(topics) ==> AllLatched(FlushCounts(topics, n))
    decreases |topics|
  {
    if topics != [] {
      FlushKeepsTopics(topics[..|topics| - 1], n);
    }
  }

  /** Nothing in the head is out of place: entry by entry it is some topic's buffered message, restamped. */
  lemma {:induction false} HeadEntryFromBuffer(topics: seq<TopicState>, start: int, k: nat)
    requires k < |HeadEntries(topics, start)|
    ensures exists i, j ::
              && 0 <= i < |topics| && 0 <= j < |topics[i].buffer|
              && HeadEntries(topics, start)[k] == Entry(topics[i].spec.topic, start, topics[i].buffer[j].data)
    decreases |topics|
  {
    var front, last := topics[..|topics| - 1], topics[|topics| - 1];
    var m := |HeadEntries(front, start)|;
    if k < m {
      HeadEntryFromBuffer(front, start, k);
      var i, j :| 0 <= i < |front| && 0 <= j < |front[i].buffer| &&
        HeadEntries(front, start)[k] == Entry(front[i].spec.topic, start, front[i].buffer[j].data);
      assert topics[i] == front[i];
    } else {
      assert HeadEntries(topics, start)[k] == Entry(last.spec.topic, start, last.buffer[k - m].data);
    }
  }

  // ---------- The flush loop, one message at a time ----------

  lemma {:induction false} HeadAt(topics: seq<TopicState>, start: int, i: nat, j: nat)
    requires i < |topics| && j < |topics[i].buffer|
    ensures var n := HeadLength(topics[..i]) + j;
      && n < HeadLength(topics) == |HeadEntries(topics, start)|
      && HeadEntries(topics, start)[n] == Entry(topics[i].spec.topic, start, topics[i].buffer[j].data)
    decreases |topics|
  {
    var front := topics[..|topics| - 1];
    HeadLengthIs(topics, start);
    HeadLengthIs(front, start);
    if i < |front| {
      HeadAt(front, start, i, j);
      assert topics[..i] == front[..i];
    }
  }

  lemma TakeNext<T>(s: seq<T>, n: nat)
    requires n < |s|
    ensures s[..n + 1] == s[..n] + [s[n]]
  {
  }

  lemma HeadLengthNext(topics: seq<TopicState>, i: nat)
    requires i < |topics|
    ensures HeadLength(topics[..i + 1]) == HeadLength(topics[..i]) + |topics[i].buffer|
  {
    assert topics[..i + 1][..i] == topics[..i];
  }

  lemma {:induction false} HeadLengthGrows(topics: seq<TopicState>, i: nat, k: nat)
    requires i <= k <= |topics|
    ensures HeadLength(topics[..i]) <= HeadLength(topics[..k])
    decreases k
  {
    if i < k {
      HeadLengthNext(topics, k - 1);
      HeadLengthGrows(topics, i, k - 1);
    }
  }

  lemma {:induction false} FlushCountAt(topics: seq<TopicState>, n: nat, k: nat)
    requires k < |topics|
    ensures |FlushCounts(topics, n)| == |topics|
    ensures FlushCounts(topics, n)[k] == topics[k].(
              written := topics[k].written + Share(n, HeadLength(topics[..k]), |topics[k].buffer|))
    decreases |topics|
  {
    var front := topics[..|topics| - 1];
    FlushSaturates(front, n);
    if k < |front| {
      FlushCountAt(front, n, k);
      assert topics[..k] == front[..k];
    }
  }

  lemma ShareNext(topics: seq<TopicState>, i: nat, j: nat, k: nat)
    requires i < |topics| && j < |topics[i].buffer| && k < |topics|
    ensures var n := HeadLength(topics[..i]) + j;
      Share(n + 1, HeadLength(topics[..k]), |topics[k].buffer|)
      == Share(n, HeadLength(topics[..k]), |topics[k].buffer|) + (if k == i then 1 else 0)
  {
    HeadLengthNext(topics, k);
    HeadLengthNext(topics, i);
    if k < i {
      HeadLengthGrows(topics, k + 1, i);
    } else if i < k {
      HeadLengthGrows(topics, i + 1, k);
    }
  }

  lemma FlushCountNextAt(topics: seq<TopicState>, i: nat, j: nat, k: nat)
    requires i < |topics| && j < |topics[i].buffer| && k < |topics|
    ensures var n := HeadLength(topics[..i]) + j;
      && |FlushCounts(topics, n)| == |FlushCounts(topics, n + 1)| == |topics|
      && FlushCounts(topics, n + 1)[k] == CountOne(FlushCounts(topics, n), i)[k]
  {
    var n := HeadLength(topics[..i]) + j;
    FlushCountAt(topics, n, k);
    FlushCountAt(topics, n + 1, k);
    ShareNext(topics, i, j, k);
  }

  /** Writing message `j` of topic `i` adds one to that topic's counter and to no other. */
  lemma FlushCountsNext(topics: seq<TopicState>, i: nat, j: nat, before: seq<TopicState>, after: seq<TopicState>)
    requires i < |topics| && j < |topics[i].buffer|
    requires before == FlushCounts(topics, HeadLength(topics[..i]) + j)
    requires after == FlushCounts(topics, HeadLength(topics[..i]) + j + 1)
    ensures after == CountOne(before, i)
  {
    FlushCountNextAt(topics, i, j, i);
    forall k | 0 <= k < |topics| ensures after[k] == CountOne(before, i)[k] {
      FlushCountNextAt(topics, i, j, k);
    }
  }

  /** One turn of the inner loop: the entry it writes, and the counter it raises. */
  lemma FlushNext(topics: seq<TopicState>, start: int, i: nat, j: nat)
    requires i < |topics| && j < |topics[i].buffer|
    ensures var n, head := HeadLength(topics[..i]) + j, HeadEntries(topics, start);
      && n < |head|
      && head[..n + 1] == head[..n] + [Entry(topics[i].spec.topic, start, topics[i].buffer[j].data)]
      && FlushCounts(topics, n + 1) == CountOne(FlushCounts(topics, n), i)
  {
    var n := HeadLength(topics[..i]) + j;
    HeadAt(topics, start, i, j);
    TakeNext(HeadEntries(topics, start), n);
    FlushCountsNext(topics, i, j, FlushCounts(topics, n), FlushCounts(topics, n + 1));
  }

  lemma {:induction false} FlushNone(topics: seq<TopicState>)
    ensures FlushCounts(topics, 0) == topics
    decreases |topics|
  {
    if topics != [] {
      FlushNone(topics[..|topics| - 1]);
    }
  }
}
