/** What is in a bag, traced back over the run: every live entry to its arrival, every head entry to a buffer. */
module BagContents {
  import opened RecorderTypes
  import opened TopicTable
  import opened LatchedBuffers
  import opened MessageFlow
  import opened RecorderState
  import opened WriterSteps
  import opened ExecutorSteps
  import opened FlowInvariant
  import opened BagInvariant
  import opened Runs
  import opened MessageTheorems

  // ---------- One arrival ----------

  /** The message that arrives at a position: its own clock reading, length and topic, in the open episode. */
  function Arriving(s: Recorder, position: nat, length: nat, now: int): QueuedMessage
    requires position < |s.table.topics|
  {
    QueuedMessage(Payload(s.past.delivered, length, s.table.topics[position].spec.topic), now, position,
                  |s.past.closed|)
  }

  lemma ArrivalStep(s: Recorder, position: nat, length: nat, now: int)
    requires ValidTable(s.table) && RunEnabled(s, Deliver(position, length, now)) && s.exec.recording
    ensures var p, p', m := s.past, RunStep(s, Deliver(position, length, now)).past, Arriving(s, position, length, now);
      && p'.received == p.received + [m]
      && ((p'.accepted == p.accepted + [m] && p'.dropped == p.dropped)
          || (p'.accepted == p.accepted && p'.dropped == p.dropped + [m]))
  {
  }

  /** What arrives while recording is received, accepted or dropped, under its own topic and at its own time. */
  lemma ArrivalIs(s: Recorder, position: nat, length: nat, now: int)
    requires Reachable(s) && RunEnabled(s, Deliver(position, length, now)) && s.exec.recording
    ensures var s' := RunStep(s, Deliver(position, length, now));
      && |s'.past.received| == |s.past.received| + 1 && s.past.received <= s'.past.received
      && var m := s'.past.received[|s.past.received|];
         && m.stamp == now && m.data.length == length && m.data.source == s.table.topics[position].spec.topic
         && m.topic == position && m.episode == |s.past.closed| && m !in s.past.received
         && (s'.past.accepted == s.past.accepted + [m] || s'.past.dropped == s.past.dropped + [m])
  {
    ReachableBags(s);
    ReachableLine(s);
    ArrivalStep(s, position, length, now);
  }

  /** What arrives while idle is seen by its own topic alone, with its own time, and is in no bag's stream. */
  lemma IdleArrivalIs(s: Recorder, position: nat, length: nat, now: int)
    requires Reachable(s) && RunEnabled(s, Deliver(position, length, now)) && !s.exec.recording
    ensures var s' := RunStep(s, Deliver(position, length, now));
      && s'.past.received == s.past.received && |s'.table.topics| == |s.table.topics|
      && (forall i :: 0 <= i < |s.table.topics| && i != position ==> s'.table.topics[i] == s.table.topics[i])
      && var topic, topic' := s.table.topics[position], s'.table.topics[position];
         && topic'.spec == topic.spec
         && |topic'.seen| == |topic.seen| + 1 && topic.seen <= topic'.seen
         && topic'.seen[|topic.seen|].stamp == now
         && topic'.seen[|topic.seen|].data.length == length
         && topic'.seen[|topic.seen|].data.source == topic.spec.topic
  {
    ReachableBags(s);
  }

  /**
    In every reachable state a buffer holds the last `depth` of the eligible messages its topic has seen,
    all of them while they are fewer, oldest first; a discovered topic's is empty.
   */
  lemma BufferIs(s: Recorder, i: nat)
    requires Reachable(s) && i < |s.table.topics|
    ensures var topic := s.table.topics[i];
      var e := Eligible(topic.spec, topic.seen);
      if topic.discovered then e == [] == topic.buffer else HoldsLast(topic.buffer, e, topic.spec.qos.depth)
  {
    TopicAt(s, i);
    var topic := s.table.topics[i];
    if topic.discovered {
      NoneEligible(topic.spec, topic.seen);
    } else {
      BufferIsLast(topic.buffer, Eligible(topic.spec, topic.seen), topic.spec.qos.depth);
    }
  }

  lemma TopicAt(s: Recorder, i: nat)
    requires Reachable(s) && i < |s.table.topics|
    ensures var topic := s.table.topics[i];
      if topic.discovered then topic.spec.strategy == NoBuffer && topic.buffer == []
      else topic.spec.qos.depth >= 1 && topic.buffer == LastN(Eligible(topic.spec, topic.seen), topic.spec.qos.depth)
  {
    ReachableBags(s);
    LatchedAt(s.table, i);
  }

  lemma LatchedAt(t: Table, i: nat)
    requires TableOk(t) && i < |t.topics|
    ensures var topic := t.topics[i];
      if topic.discovered then topic.spec.strategy == NoBuffer && topic.buffer == []
      else topic.spec.qos.depth >= 1 && topic.buffer == LastN(Eligible(topic.spec, topic.seen), topic.spec.qos.depth)
  {
    var topic := t.topics[i];
    assert Latched(topic);
    if topic.discovered {
      NoneEligible(topic.spec, topic.seen);
    } else {
      LatchedByDepth(topic);
    }
  }

  // ---------- Over a whole run ----------

  predicate IsArrival(s: Recorder, a: Action) {
    a.Run? && a.run.Deliver? && RunEnabled(s, a.run) && s.exec.recording
  }

  /** The message that step `k` of the run delivered. */
  ghost predicate Brought(states: seq<Recorder>, schedule: seq<Action>, k: nat, m: QueuedMessage) {
    && k < |schedule| < |states| && IsArrival(states[k], schedule[k])
    && m == Arriving(states[k], schedule[k].run.position, schedule[k].run.length, schedule[k].run.now)
  }

  lemma WriterReceives(s: Recorder, a: WriterAction)
    requires WriterEnabled(s, a)
    ensures WriterStep(s, a).past.received == s.past.received
  {
  }

  lemma ExecutorReceives(s: Recorder, a: Action)
    requires Enabled(s, a) && !a.Writer? && !IsArrival(s, a)
    ensures Step(s, a).past.received == s.past.received
  {
    match a
    case Life(_) =>
    case Start(_) =>
    case Run(_) =>
    case Finish(_) =>
    case CancelLands(_) =>
  }

  lemma ReceivedNow(s: Recorder, a: Action, m: QueuedMessage)
    requires ValidTable(s.table) && Enabled(s, a) && m in Step(s, a).past.received && m !in s.past.received
    ensures IsArrival(s, a) && m == Arriving(s, a.run.position, a.run.length, a.run.now)
  {
    if a.Writer? {
      WriterReceives(s, a.writer);
    } else if !IsArrival(s, a) {
      ExecutorReceives(s, a);
    } else {
      ArrivalStep(s, a.run.position, a.run.length, a.run.now);
    }
  }

  lemma TableAt(states: seq<Recorder>, schedule: seq<Action>, n: nat)
    requires IsHistory(states, schedule) && n <= |schedule|
    ensures ValidTable(states[n].table)
  {
    HistoryKeepsInv(states, schedule, n);
  }

  lemma {:induction false} ReceivedCameFrom(states: seq<Recorder>, schedule: seq<Action>, n: nat, m: QueuedMessage)
    returns (k: nat)
    requires IsHistory(states, schedule) && n <= |schedule| && m in states[n].past.received
    ensures k < n && Brought(states, schedule, k, m)
  {
    if n == 0 {
      assert false;
    } else {
      k := n - 1;
      assert Follows(states[k], schedule[k], states[n]);
      if m in states[k].past.received {
        k := ReceivedCameFrom(states, schedule, n - 1, m);
      } else {
        TableAt(states, schedule, k);
        ReceivedNow(states[k], schedule[k], m);
      }
    }
  }

  lemma HistoryReaches(states: seq<Recorder>, schedule: seq<Action>)
    requires IsHistory(states, schedule)
    ensures Reachable(states[|schedule|])
  {
  }

  lemma AcceptedReceived(s: Recorder, m: QueuedMessage)
    requires ConserveOk(s.past, s.thread, s.queue) && m in s.past.accepted
    ensures m in s.past.received
  {
    assert m in multiset(s.past.received);
  }

  /**
    Every live entry of every bag was brought by one delivery of the run, while recording: it has the clock
    reading of that delivery, and its payload.
   */
  lemma LiveEntryArrived(states: seq<Recorder>, schedule: seq<Action>, n: nat, i: nat) returns (k: nat)
    requires IsHistory(states, schedule)
    requires n < Bound(states[|schedule|].past, states[|schedule|].sink)
    requires BagAt(states[|schedule|], n).headLength <= i < |BagAt(states[|schedule|], n).entries|
    ensures k < |schedule| && IsArrival(states[k], schedule[k])
    ensures var entry, run := BagAt(states[|schedule|], n).entries[i], schedule[k].run;
      && entry.time == run.now
      && entry.data.length == run.length
      && entry.data.source == states[k].table.topics[run.position].spec.topic
      && entry.data.id == states[k].past.delivered
      && |states[k].past.closed| <= n
  {
    var s := states[|schedule|];
    HistoryReaches(states, schedule);
    LivePartInOrder(s, n);
    var live := LiveMessages(s.past.handled, n);
    var m := live[i - BagAt(s, n).headLength];
    assert m in live;
    var h := LiveComesFrom(s.past.handled, n, m);
    ReachableLine(s);
    HandledAccepted(s, h);
    AcceptedReceived(s, m);
    k := ReceivedCameFrom(states, schedule, |schedule|, m);
    ReachableBags(s);
    assert HandledOk(s.past.handled[h], |s.past.closed|, Bound(s.past, s.sink));
  }

  // ---------- The head ----------

  /** Opening storage registers every topic by position, or throws; it zeroes the counters of those registered. */
  lemma StorageOpened(s: Recorder, created: nat, ok: bool)
    requires StartEnabled(s, OpenStorage(created, ok))
    ensures var s', topics := StartStep(s, OpenStorage(created, ok)), s.table.topics;
      && s'.sink == s.sink && s'.past == s.past && |s'.table.topics| == |topics|
      && (forall i :: 0 <= i < |topics| ==>
        s'.table.topics[i] == topics[i].(written := if i < created then 0 else topics[i].written))
      && (ok <==> s'.exec.pc.Opened?) && (!ok <==> s'.exec.pc.OpenFailed?)
      && (ok ==> |s'.exec.pc.registered| == |topics| && forall i :: 0 <= i < |topics| ==>
        s'.exec.pc.registered[i] == topics[i].spec.topic && s'.table.topics[i].written == 0)
  {
  }

  /** The buffers one after another, each message under its topic's name, all at the same clock reading. */
  predicate LaidOut(entries: seq<Entry>, topics: seq<TopicState>, start: int) {
    forall i, j :: 0 <= i < |topics| && 0 <= j < |topics[i].buffer| && HeadLength(topics[..i]) + j < |entries| ==>
      entries[HeadLength(topics[..i]) + j] == Entry(topics[i].spec.topic, start, topics[i].buffer[j].data)
  }

  lemma HeadLaidOut(topics: seq<TopicState>, start: int, flushed: nat)
    requires flushed <= |HeadEntries(topics, start)|
    ensures LaidOut(HeadEntries(topics, start)[..flushed], topics, start)
    ensures |HeadEntries(topics, start)| == HeadLength(topics)
  {
    HeadLengthIs(topics, start);
    forall i, j | 0 <= i < |topics| && 0 <= j < |topics[i].buffer| && HeadLength(topics[..i]) + j < flushed
      ensures HeadEntries(topics, start)[..flushed][HeadLength(topics[..i]) + j]
           == Entry(topics[i].spec.topic, start, topics[i].buffer[j].data)
    {
      HeadAt(topics, start, i, j);
    }
  }

  /**
    Opening a bag registers the topics by position and writes, in topic order and oldest first, every
    buffered message at the one clock reading of the open, up to the one that throws.
   */
  lemma OpenedBag(s: Recorder, start: int, flushed: nat)
    requires Reachable(s) && StartEnabled(s, FlushHead(start, flushed))
    ensures var s', topics := StartStep(s, FlushHead(start, flushed)), s.table.topics;
      && s'.sink.writer.Some? && IsOpened(s'.sink.writer.value, topics, start, flushed)
      && s'.sink.writer.value.starter == s.exec.starter
      && (s'.exec.pc.Flushed? <==> flushed == HeadLength(topics))
  {
    ReachableBags(s);
    HeadLaidOut(s.table.topics, start, flushed);
  }

  predicate IsOpened(bag: Bag, topics: seq<TopicState>, start: int, flushed: nat) {
    && |bag.registered| == |topics| && (forall i :: 0 <= i < |topics| ==> bag.registered[i] == topics[i].spec.topic)
    && |bag.entries| == flushed <= HeadLength(topics) && LaidOut(bag.entries, topics, start)
    && bag.origin == topics && bag.start == start && bag.headLength == flushed && bag.metadata.None?
  }

  /** Where topic `i` begins in the head: after the buffers of all topics before it. */
  lemma HeadPosition(topics: seq<TopicState>, i: nat)
    requires i < |topics|
    ensures HeadLength([]) == 0
    ensures HeadLength(topics[..i + 1]) == HeadLength(topics[..i]) + |topics[i].buffer|
  {
    HeadLengthNext(topics, i);
  }
}
