/**
  The node itself: the fields its callbacks and its writer thread update in place, and the loops they run,
  one method per critical section. The constructor's state is reachable, and a step method takes a reachable
  state by exactly its step of the machine to another reachable one. So every result about reachable states
  is a result about an object driven through these methods, in any order their guards admit.
 */
module EpisodeRecorder {
  import opened RecorderTypes
  import opened GoalId
  import opened TopicTable
  import opened LatchedBuffers
  import opened MessageFlow
  import opened RecorderState
  import opened WriterBatch
  import opened WriterSteps
  import opened ExecutorSteps
  import opened InlineStart
  import opened Runs

  class EpisodeRecorderNode {
    // ---------- Queue and flush flags ----------
    var queue: seq<QueuedMessage>
    var queueBytes: nat
    var flushRequested: bool
    var flushDone: bool
    var writerThreadRunning: bool

    // ---------- The writer thread: where it is, and its locals ----------
    var writerAt: WriterPc
    var batch: seq<QueuedMessage>
    var flushing: bool

    // ---------- The open bag and the counters both threads touch ----------
    var writer: Option<Bag>
    var messagesWritten: nat
    var writeFailed: bool
    var stopRequested: bool

    // ---------- Topics ----------
    var topics: seq<TopicState>
    var topicIndex: map<string, nat>

    // ---------- The executor's own variables, the action server's goals, and the history ----------
    var episode: Exec
    var goals: Goals
    var past: Past

    function State(): Recorder
      reads this
    {
      Recorder(
        Queue(queue, queueBytes, flushRequested, flushDone, writerThreadRunning),
        WriterThread(writerAt, batch, flushing),
        Sink(writer, messagesWritten, writeFailed, stopRequested),
        Table(topics, topicIndex),
        episode,
        goals,
        past)
    }

    constructor (defaultLimit: int)
      ensures State() == Initial(defaultLimit) && Reachable(State())
    {
      queue, queueBytes, flushRequested, flushDone, writerThreadRunning := [], 0, false, false, false;
      writerAt, batch, flushing := Off, [], false;
      writer, messagesWritten, writeFailed, stopRequested := None, 0, false, false;
      topics, topicIndex := [], map[];
      episode := Exec(Idle, Unconfigured, false, false, false, false, false, None, "", 0, 0, 0, defaultLimit,
                      None, false, 0, 0);
      goals := Goals(map[], [], {});
      past := Past(0, [], [], [], [], [], [], map[], []);
      new;
      ReachableInitial(defaultLimit);
    }

    // ---------- writer_thread_main ----------

    /** Move messages one by one from the front of the queue into the batch, keeping the byte count. */
    method PopMessages(take: nat)
      requires take <= |queue| && queueBytes == Bytes(queue) && batch == []
      modifies `queue, `batch, `queueBytes
      ensures batch == old(queue)[..take] && queue == old(queue)[take..]
      ensures queueBytes == old(queueBytes) - Bytes(batch)
    {
      ghost var all := queue;
      var i := 0;
      while i < take
        invariant 0 <= i <= take && queue == all[i..] && batch == all[..i]
        invariant queueBytes == Bytes(queue) == Bytes(all) - Bytes(batch)
      {
        BytesOfFirst(queue);
        BytesConcat(batch, [queue[0]]);
        queueBytes := queueBytes - queue[0].data.length;
        batch := batch + [queue[0]];
        queue := queue[1..];
        i := i + 1;
      }
    }

    method PopFront(take: nat)
      requires take <= |queue| && queueBytes == Bytes(queue) && batch == []
      modifies this
      ensures State() == old(State()).(
                queue := old(State()).queue.(items := old(queue)[take..],
                                             bytes := old(queueBytes) - Bytes(old(queue)[..take])),
                thread := old(State()).thread.(batch := old(queue)[..take]))
    {
      PopMessages(take);
    }

    method MoveWriter(at: WriterPc, flush: bool)
      modifies this
      ensures State() == old(State()).(thread := old(State()).thread.(pc := at, flushing := flush))
    {
      writerAt, flushing := at, flush;
    }

    /** Take up to 256 messages, and see whether a flush is due. */
    method FillBatch()
      requires queueBytes == Bytes(queue) && batch == []
      modifies this
      ensures var q, n := old(State()).queue, BatchSize(old(State()).queue);
        var flush := q.flushRequested && q.items[n..] == [];
        State() == old(State()).(
          queue := q.(items := q.items[n..], bytes := q.bytes - Bytes(q.items[..n])),
          thread := WriterThread(if n > 0 then Holding else if flush then Checking else Top, q.items[..n], flush))
    {
      PopFront(if |queue| < BATCH_MAX then |queue| else BATCH_MAX);
      var flush := flushRequested && queue == [];
      MoveWriter(if batch != [] then Holding else if flush then Checking else Top, flush);
    }

    /** Wake, then take up to 256 messages off the front of the queue under one lock; or leave the loop. */
    method TakeBatch()
      requires Reachable(State()) && WriterEnabled(State(), Take)
      modifies this
      ensures Reachable(State())
      ensures State() == WriterStep(old(State()), Take)
    {
      ReachableThread(State());
      if !writerThreadRunning && queue == [] {
        MoveWriter(Off, false);
      } else {
        FillBatch();
      }
      ReachableWriter(old(State()), Take);
    }

    /** Take writer_mutex_; with no bag open the whole batch is dropped. */
    method LockWriter()
      requires Reachable(State()) && WriterEnabled(State(), Lock)
      modifies this
      ensures Reachable(State())
      ensures State() == WriterStep(old(State()), Lock)
    {
      if writer.Some? {
        writerAt := Between;
      } else {
        past := past.(handled := past.handled + Discarded(batch));
        batch := [];
        writerAt := if flushing then Checking else Top;
      }
      ReachableWriter(old(State()), Lock);
    }

    /** The message at the head of the batch is dealt with. */
    method Dispose(fate: Fate, at: WriterPc)
      requires batch != []
      modifies this
      ensures State() == Disposed(old(State()), fate, at)
    {
      past := past.(handled := past.handled + [Handled(batch[0], fate)]);
      batch := batch[1..];
      writerAt := at;
    }

    method LookUpTopic()
      requires Reachable(State()) && WriterEnabled(State(), Lookup)
      modifies this
      ensures Reachable(State())
      ensures State() == WriterStep(old(State()), Lookup)
    {
      var i := batch[0].topic;
      if i >= |topics| {
        Dispose(BadIndex(|past.closed|), Between);
      } else {
        writerAt := Looked(topics[i].spec.topic);
      }
      ReachableWriter(old(State()), Lookup);
    }

    /** writer_->write, which may throw. */
    method WriteMessage(ok: bool)
      requires Reachable(State()) && WriterEnabled(State(), Write(ok))
      modifies this
      ensures Reachable(State())
      ensures State() == WriterStep(old(State()), Write(ok))
    {
      var message, name := batch[0], writerAt.name;
      if ok {
        Dispose(Written(|past.closed|, name), Stored(message.topic));
        var entry := Entry(name, message.stamp, message.data);
        writer := Some(writer.value.(entries := writer.value.entries + [entry]));
      } else {
        Dispose(WriteFailed(|past.closed|), Failing);
        writeFailed := true;
      }
      ReachableWriter(old(State()), Write(ok));
    }

    method CountMessage()
      requires Reachable(State()) && WriterEnabled(State(), Count)
      modifies this
      ensures Reachable(State())
      ensures State() == WriterStep(old(State()), Count)
    {
      messagesWritten := messagesWritten + 1;
      writerAt := Counted(writerAt.topic);
      ReachableWriter(old(State()), Count);
    }

    method CountForTopic()
      requires Reachable(State()) && WriterEnabled(State(), CountTopic)
      modifies this
      ensures Reachable(State())
      ensures State() == WriterStep(old(State()), CountTopic)
    {
      var i := writerAt.topic;
      if i < |topics| {
        topics := topics[i := topics[i].(written := topics[i].written + 1)];
      }
      writerAt := Between;
      ReachableWriter(old(State()), CountTopic);
    }

    method RaiseStopRequest()
      requires Reachable(State()) && WriterEnabled(State(), RaiseStop)
      modifies this
      ensures Reachable(State())
      ensures State() == WriterStep(old(State()), RaiseStop)
    {
      stopRequested := true;
      writerAt := Between;
      ReachableWriter(old(State()), RaiseStop);
    }

    /** Write the message whose topic has been found, then count it, or report the failure. */
    method WriteFound(ok: bool)
      requires Reachable(State()) && WriterEnabled(State(), Write(ok))
      modifies this
      ensures Reachable(State())
      ensures var m, name, n := old(batch)[0], old(writerAt).name, |old(past).closed|;
        State() == Disposed(old(State()), if ok then Written(n, name) else WriteFailed(n), Between).(
          sink := if ok then AfterEntry(old(State()).sink, Entry(name, m.stamp, m.data))
                  else old(State()).sink.(writeFailed := true, stopRequested := true),
          table := old(State()).table.(topics := TopicsAfter(old(topics), m, ok)))
    {
      WriteMessage(ok);
      if ok {
        CountMessage();
        CountForTopic();
      } else {
        RaiseStopRequest();
      }
    }

    /** One message of the batch: skip it if its position is beyond the table, else write it. */
    method WriteOne(ok: bool)
      requires Reachable(State()) && writerAt.Between? && batch != [] && writer.Some?
      modifies this
      ensures Reachable(State()) && State() == OneMessage(old(State()), ok)
    {
      LookUpTopic();
      if writerAt.Looked? {
        WriteFound(ok);
      }
    }

    /**
      The batch loop, in a pass the executor does not interrupt; `ok` says which writes succeed. The pass is
      a run of the machine, and leaves what the whole batch calls for, message by message.
     */
    method WriteBatch(ok: seq<bool>)
      requires Reachable(State()) && writerAt.Between? && |ok| == |batch|
      modifies this
      ensures Reachable(State())
      ensures old(writer).Some? && State() == Messages(old(State()), ok, |ok|)
    {
      ReachableThread(State());
      ghost var s := State();
      var i := 0;
      while i < |ok|
        invariant 0 <= i <= |ok| && s.sink.writer.Some? && writerAt.Between?
        invariant Reachable(State()) && State() == Messages(s, ok, i)
      {
        WriteOne(ok[i]);
        i := i + 1;
      }
    }

    method UnlockWriter()
      requires Reachable(State()) && WriterEnabled(State(), Unlock)
      modifies this
      ensures Reachable(State())
      ensures State() == WriterStep(old(State()), Unlock)
    {
      writerAt := if flushing then Checking else Top;
      ReachableWriter(old(State()), Unlock);
    }

    method SetFlush(requested: bool, done: bool)
      modifies this
      ensures State() == old(State()).(
                queue := old(State()).queue.(flushRequested := requested, flushDone := done))
    {
      flushRequested, flushDone := requested, done;
    }

    /** Answer the flush request, if the queue is still empty. */
    method AnswerFlush()
      requires Reachable(State()) && WriterEnabled(State(), Check)
      modifies this
      ensures Reachable(State())
      ensures State() == WriterStep(old(State()), Check)
    {
      ReachableThread(State());
      if queue == [] {
        SetFlush(false, true);
      }
      MoveWriter(Top, false);
      ReachableWriter(old(State()), Check);
    }

    /** The batch in hand, under writer_mutex_: written message by message, or dropped with no bag open. */
    method HandleBatch(ok: seq<bool>)
      requires Reachable(State()) && writerAt.Holding? && |ok| == |batch|
      modifies this
      ensures Reachable(State()) && State() == AfterBatchOf(old(State()), ok)
    {
      ghost var s := State();
      LockWriter();
      if writer.Some? {
        WriteBatch(ok);
        HandledIs(s, ok);
        UnlockWriter();
      }
    }

    /** One pass of the writer's loop that nothing interrupts. */
    method WriterPass(ok: seq<bool>)
      requires Reachable(State()) && WriterEnabled(State(), Take) && |ok| == BatchSize(State().queue)
      modifies this
      ensures Reachable(State()) && State() == PassOf(old(State()), ok)
    {
      TakeBatch();
      if writerAt.Holding? {
        HandleBatch(ok);
      }
      if writerAt.Checking? {
        AnswerFlush();
      }
    }

    // ---------- on_message ----------

    /** Keep a latched message: push it, then pop from the front down to the depth. */
    method Retain(index: nat, message: BufferedMessage)
      requires index < |topics|
      modifies `topics
      ensures topics == IdleMessage(old(topics), index, message)
      ensures State() == old(State()).(table := old(State()).table.(topics := topics))
    {
      var topic := topics[index].(seen := topics[index].seen + [message]);
      topics := topics[index := topic];
      if !topic.spec.qos.transientLocal || topic.spec.strategy == NoBuffer {
        return;
      }
      if message.data.length > MAX_BUFFER_BYTES {
        return;
      }
      ghost var all := topic.buffer + [message];
      ghost var popped := 0;
      topics := topics[index := topic.(buffer := topic.buffer + [message])];
      while |topics[index].buffer| > Capacity(topic.spec.qos.depth)
        invariant index < |topics| && popped <= |all|
        invariant popped > 0 ==> |all| - popped >= Capacity(topic.spec.qos.depth)
        invariant topics == old(topics)[index := topic.(buffer := all[popped..])]
        decreases |all| - popped
      {
        topics := topics[index := topics[index].(buffer := topics[index].buffer[1..])];
        popped := popped + 1;
      }
      assert popped == 0 ==> all[popped..] == all;
    }

    /** Refuse to grow past either bound. */
    method Enqueue(message: QueuedMessage)
      modifies this
      ensures var s := old(State());
        var past' := s.past.(received := s.past.received + [message]);
        State() == if QueueFull(s.queue, message.data.length) then
                     s.(exec := s.exec.(dropped := s.exec.dropped + 1),
                        past := past'.(dropped := s.past.dropped + [message]))
                   else
                     s.(queue := s.queue.(items := s.queue.items + [message],
                                          bytes := s.queue.bytes + message.data.length),
                        past := past'.(accepted := s.past.accepted + [message]))
    {
      past := past.(received := past.received + [message]);
      if |queue| >= QUEUE_MAX_MESSAGES || queueBytes + message.data.length > QUEUE_MAX_BYTES {
        episode := episode.(dropped := episode.dropped + 1);
        past := past.(dropped := past.dropped + [message]);
      } else {
        queue := queue + [message];
        queueBytes := queueBytes + message.data.length;
        past := past.(accepted := past.accepted + [message]);
      }
    }

    method OnMessage(position: nat, length: nat, now: int)
      requires Reachable(State()) && RunEnabled(State(), Deliver(position, length, now))
      modifies this
      ensures Reachable(State())
      ensures State() == RunStep(old(State()), Deliver(position, length, now))
    {
      var sub := topics[position].sub;
      var data := Payload(past.delivered, length, sub.name);
      past := past.(delivered := past.delivered + 1);
      if episode.recording {
        Enqueue(QueuedMessage(data, now, sub.index, |past.closed|));
      } else if sub.index < |topics| {
        Retain(sub.index, BufferedMessage(data, now));
      }
      ReachableRun(old(State()), Deliver(position, length, now));
    }

    // ---------- Topics ----------

    method AddTopicState(spec: RecordTopic, discovered: bool)
      modifies `topics, `topicIndex
      ensures Table(topics, topicIndex) == AddTopic(old(Table(topics, topicIndex)), spec, discovered)
    {
      if spec.topic in topicIndex {
        return;
      }
      var index := |topics|;
      topicIndex := topicIndex[spec.topic := index];
      topics := topics + [TopicState(spec, Subscription(index, spec.topic), [], 0, discovered, [])];
    }

    method BuildTopicList(specs: seq<RecordTopic>)
      modifies `topics, `topicIndex
      ensures Table(topics, topicIndex) == AddAll(EMPTY, specs, false)
    {
      topics, topicIndex := [], map[];
      var i := 0;
      while i < |specs|
        invariant 0 <= i <= |specs|
        invariant Table(topics, topicIndex) == AddAll(EMPTY, specs[..i], false)
      {
        assert specs[..i + 1][..i] == specs[..i];
        AddTopicState(specs[i], false);
        i := i + 1;
      }
      assert specs[..i] == specs;
    }

    /** Two passes over the graph: collect the names not in the table, then add them unbuffered. */
    method DiscoverTopics(graph: seq<RecordTopic>)
      modifies `topics, `topicIndex
      ensures Table(topics, topicIndex) == Discover(old(Table(topics, topicIndex)), graph)
    {
      ghost var before := Table(topics, topicIndex);
      var found: seq<RecordTopic> := [];
      var i := 0;
      while i < |graph|
        invariant 0 <= i <= |graph|
        invariant Table(topics, topicIndex) == before && found == NotYet(before, graph[..i])
      {
        assert graph[..i + 1][..i] == graph[..i];
        if graph[i].topic !in topicIndex {
          found := found + [graph[i]];
        }
        i := i + 1;
      }
      assert graph[..i] == graph;
      FilterChangesNothing(before, graph);
      if found == [] {
        return;
      }
      i := 0;
      while i < |found|
        invariant 0 <= i <= |found|
        invariant Table(topics, topicIndex) == AddAll(before, UnbufferedAll(found)[..i], true)
      {
        assert UnbufferedAll(found)[..i + 1][..i] == UnbufferedAll(found)[..i];
        AddTopicState(found[i].(strategy := NoBuffer), true);
        i := i + 1;
      }
      assert UnbufferedAll(found)[..i] == UnbufferedAll(found);
    }

    /** Erase from the back, so that the positions still to be visited stay right. */
    method EraseDiscovered()
      modifies `topics, `topicIndex
      ensures topics == Keep(old(topics))
    {
      ghost var before := topics;
      var i := |topics|;
      while i > 0
        invariant 0 <= i <= |before| && topics == before[..i] + Keep(before[i..])
      {
        i := i - 1;
        EraseNext(before, topics, i);
        EraseAt(i);
      }
      assert before[0..] == before && before[..0] == [];
    }

    method EraseAt(i: nat)
      requires i < |topics|
      modifies `topics, `topicIndex
      ensures topics == old(topics)[..i]
                        + (if old(topics)[i].discovered then [] else [old(topics)[i]]) + old(topics)[i + 1..]
    {
      if topics[i].discovered {
        topicIndex := topicIndex - {topics[i].spec.topic};
        topics := topics[..i] + topics[i + 1..];
      }
    }

    method RebuildIndex()
      modifies `topicIndex
      ensures topicIndex == Reindex(topics)
    {
      topicIndex := map[];
      var i := 0;
      while i < |topics|
        invariant 0 <= i <= |topics| && topicIndex == Reindex(topics[..i])
      {
        assert topics[..i + 1][..i] == topics[..i];
        topicIndex := topicIndex[topics[i].spec.topic := i];
        i := i + 1;
      }
      assert topics[..i] == topics;
    }

    method DestroyDiscoveredSubscriptions()
      modifies `topics, `topicIndex
      ensures Table(topics, topicIndex) == DestroyDiscovered(old(Table(topics, topicIndex)))
    {
      EraseDiscovered();
      RebuildIndex();
    }

    /** Empty the latched buffers of the topics that ask for it, and subscribe to them anew. */
    method RecreateSubscriptions() returns (resubscribed: nat)
      modifies `topics
      ensures topics == Resubscribe(old(topics)) && resubscribed == ResubscribeCount(old(topics))
    {
      ghost var before := topics;
      resubscribed := 0;
      var i := 0;
      while i < |topics|
        invariant 0 <= i <= |topics| == |before|
        invariant forall k :: 0 <= k < i ==> topics[k] == ResubscribeOne(before[k], k)
        invariant forall k :: i <= k < |before| ==> topics[k] == before[k]
        invariant resubscribed == ResubscribeCount(before[..i])
      {
        assert before[..i + 1][..i] == before[..i];
        if topics[i].spec.strategy == ResubscribeOnStart {
          RecreateSubscription(i);
          resubscribed := resubscribed + 1;
        }
        i := i + 1;
      }
      assert before[..i] == before;
    }

    method RecreateSubscription(i: nat)
      requires i < |topics| && topics[i].spec.strategy == ResubscribeOnStart
      modifies `topics
      ensures topics == old(topics)[i := ResubscribeOne(old(topics)[i], i)]
    {
      topics := topics[i := topics[i].(buffer := [], seen := [])];
      topics := topics[i := topics[i].(sub := Subscription(i, topics[i].spec.topic))];
    }

    method PrepareResubscribes(graph: seq<RecordTopic>) returns (resubscribed: nat)
      modifies `topics, `topicIndex
      ensures var table := Discover(old(State()).table, graph);
        && State() == old(State()).(table := table.(topics := Resubscribe(table.topics)))
        && resubscribed == ResubscribeCount(table.topics)
    {
      DiscoverTopics(graph);
      resubscribed := RecreateSubscriptions();
    }

    // ---------- Starting ----------

    method ResetEpisode(origin: Origin, limit: int)
      modifies this
      ensures State() == old(State()).(
                sink := old(State()).sink.(messagesWritten := 0, writeFailed := false, stopRequested := false),
                exec := old(episode).(
                  dropped := 0,
                  limit := if limit > 0 then limit else old(episode).defaultLimit,
                  starter := if origin.ByGoal? then Some(origin.goal) else None,
                  detached := false))
    {
      stopRequested, writeFailed, messagesWritten := false, false, 0;
      episode := episode.(
        dropped := 0,
        limit := if limit > 0 then limit else episode.defaultLimit,
        starter := if origin.ByGoal? then Some(origin.goal) else None,
        detached := false);
    }

    /**
      Refused when not active or already recording; otherwise the episode opens now, or once settled. Opening
      now is BeginEpisode, which may still fail.
     */
    method StartRecording(origin: Origin, limit: int, graph: seq<RecordTopic>) returns (begun: bool)
      modifies this
      ensures begun <==> old(episode.accepting && !episode.recording && !episode.pending)
      ensures State() == if begun then StartEpisode(old(State()), origin, limit, graph) else old(State())
    {
      if !episode.accepting {
        return false;
      }
      if episode.recording || episode.pending {
        return false;
      }
      ResetEpisode(origin, limit);
      var resubscribed := PrepareResubscribes(graph);
      if resubscribed == 0 {
        episode := episode.(pc := Opening(origin));
      } else {
        var goalId := if origin.ByGoal? then FormatGoalId(origin.goal) else episode.goalId;
        episode := episode.(pending := true, settleTimer := true, goalId := goalId);
      }
      return true;
    }

    /** handle_goal accepting, then handle_accepted: no start is refused in between. */
    method HandleAccepted(goal: Uuid, limit: int, graph: seq<RecordTopic>) returns (begun: bool)
      requires Reachable(State()) && StartEnabled(State(), AcceptGoal(goal, limit, graph))
      modifies this
      ensures Reachable(State()) && begun
      ensures State() == StartStep(old(State()), AcceptGoal(goal, limit, graph))
    {
      goals := goals.(state := goals.state[goal := Executing]);
      episode := episode.(goal := Some(goal));
      begun := StartRecording(ByGoal(goal), limit, graph);
      ReachableStart(old(State()), AcceptGoal(goal, limit, graph));
    }

    /** Drop the live goal's handle and id; an episode that is on loses its goal. */
    method LetGoalGo()
      modifies this
      ensures State() == old(State()).(
                exec := old(episode).(
                  goal := None,
                  goalId := "",
                  detached := old(episode.detached || episode.recording || episode.pending)),
                goals := if old(episode).goal.None? then old(goals)
                         else old(goals).(released := old(goals).released + {old(episode).goal.value}))
    {
      if episode.goal.Some? {
        goals := goals.(released := goals.released + {episode.goal.value});
      }
      episode := episode.(
        goal := None,
        goalId := "",
        detached := episode.detached || episode.recording || episode.pending);
    }

    /** The handle and the id go first, whether or not the start is then refused. */
    method BeginService(graph: seq<RecordTopic>) returns (begun: bool)
      requires Reachable(State()) && StartEnabled(State(), StartService(graph))
      modifies this
      ensures Reachable(State())
      ensures State() == StartStep(old(State()), StartService(graph))
      ensures begun <==> old(episode.accepting && !episode.recording && !episode.pending)
    {
      LetGoalGo();
      begun := StartRecording(ByService, 0, graph);
      ReachableStart(old(State()), StartService(graph));
    }

    /**
      The whole callback, the writer thread not intervening: the request is accepted exactly when it was not
      refused and its episode is recording or waiting to settle, so not when opening the bag threw.
     */
    method OnStartService(graph: seq<RecordTopic>, fault: Fault, start: int, now: int) returns (accepted: bool)
      requires Reachable(State()) && StartEnabled(State(), StartService(graph))
      modifies this
      ensures Reachable(State()) && State() == ServiceStart(old(State()), graph, fault, start, now)
      ensures accepted <==> old(episode.accepting && !episode.recording && !episode.pending)
                            && (episode.recording || episode.pending)
    {
      accepted := BeginService(graph);
      if episode.pc.Opening? {
        ghost var opening := State();
        ReachableFree(opening);
        BeginEpisode(fault, start, now);
        BeginEpisodeOutcome(opening, fault, start, now);
        accepted := episode.recording;
      }
    }

    method CompletePendingStart()
      requires Reachable(State()) && StartEnabled(State(), CompleteStart)
      modifies `episode
      ensures Reachable(State())
      ensures State() == StartStep(old(State()), CompleteStart)
    {
      episode := episode.(settleTimer := false);
      if episode.pending {
        episode := episode.(pending := false, pc := Opening(ByTimer));
      }
      ReachableStart(old(State()), CompleteStart);
    }

    /** Register the first `created` topics, in table order, and zero their counters. */
    method CreateTopics(created: nat) returns (registered: seq<string>)
      requires created <= |topics|
      modifies `topics
      ensures State() == old(State()).(
                table := old(State()).table.(topics := ResetWritten(old(topics), created)))
      ensures registered == Names(old(topics))[..created]
    {
      ghost var before := topics;
      registered := [];
      var i := 0;
      while i < created
        invariant 0 <= i <= created && |topics| == |before|
        invariant |registered| == i && forall k :: 0 <= k < i ==> registered[k] == before[k].spec.topic
        invariant forall k :: 0 <= k < i ==> topics[k] == before[k].(written := 0)
        invariant forall k :: i <= k < |before| ==> topics[k] == before[k]
      {
        registered := registered + [topics[i].spec.topic];
        topics := topics[i := topics[i].(written := 0)];
        i := i + 1;
      }
      assert topics == ResetWritten(before, created);
    }

    /** Open the storage and register every topic; one registration may throw. */
    method RegisterTopics(created: nat, ok: bool)
      requires Reachable(State()) && StartEnabled(State(), OpenStorage(created, ok))
      modifies this
      ensures Reachable(State())
      ensures State() == StartStep(old(State()), OpenStorage(created, ok))
    {
      var origin := episode.pc.origin;
      var registered := CreateTopics(created);
      assert ok ==> registered == Names(old(topics));
      episode := episode.(pc := if ok then Opened(origin, registered) else OpenFailed(origin));
      ReachableStart(old(State()), OpenStorage(created, ok));
    }

    method Publish(bag: Bag)
      modifies this
      ensures State() == old(State()).(sink := old(State()).sink.(writer := Some(bag)))
    {
      writer := Some(bag);
    }

    /** Publish the writer and write every buffer at the bag-start time; one write may throw. */
    method FlushBuffers(start: int, flushed: nat)
      requires Reachable(State()) && StartEnabled(State(), FlushHead(start, flushed))
      modifies this
      ensures Reachable(State())
      ensures State() == StartStep(old(State()), FlushHead(start, flushed))
    {
      var origin := episode.pc.origin;
      var bag := Bag(episode.pc.registered, [], None, topics, start, flushed, episode.starter, false);
      Publish(bag);
      var threw := WriteHead(start, flushed, bag);
      episode := episode.(pc := if threw then OpenFailed(origin) else Flushed(origin));
      ReachableStart(old(State()), FlushHead(start, flushed));
    }

    method WriteHead(start: int, flushed: nat, ghost bag: Bag) returns (threw: bool)
      requires writer == Some(bag) && bag.entries == [] && flushed <= |HeadEntries(topics, start)|
      modifies this
      ensures State() == old(State()).(
                sink := old(State()).sink.(
                  writer := Some(bag.(entries := HeadEntries(old(topics), start)[..flushed])),
                  messagesWritten := old(messagesWritten) + flushed),
                table := old(State()).table.(topics := FlushCounts(old(topics), flushed)))
      ensures threw <==> flushed < |HeadEntries(old(topics), start)|
    {
      threw := FlushTopics(start, flushed, bag);
    }

    /** Where a flush of `before` stands after `n` messages. */
    ghost predicate HeadSoFar(before: seq<TopicState>, start: int, bag: Bag, counted: nat, n: nat)
      reads this
    {
      && SameBuffers(before, topics) && n <= |HeadEntries(before, start)|
      && topics == FlushCounts(before, n) && messagesWritten == counted + n
      && writer == Some(bag.(entries := HeadEntries(before, start)[..n]))
    }

    /** The outer loop: topic by topic, until a write throws. */
    method FlushTopics(start: int, flushed: nat, ghost bag: Bag) returns (threw: bool)
      requires writer == Some(bag) && bag.entries == [] && flushed <= |HeadEntries(topics, start)|
      modifies `writer, `messagesWritten, `topics
      ensures HeadSoFar(old(topics), start, bag, old(messagesWritten), flushed)
      ensures threw <==> flushed < |HeadEntries(old(topics), start)|
    {
      ghost var before, counted := topics, messagesWritten;
      FlushNone(before);
      HeadLengthIs(before, start);
      var n: nat, i: nat := 0, 0;
      threw := false;
      while i < |topics| && !threw
        invariant 0 <= i <= |topics| && n <= flushed
        invariant HeadSoFar(before, start, bag, counted, n)
        invariant if threw then n == flushed < |HeadEntries(before, start)| else n == HeadLength(before[..i])
      {
        n, threw := FlushTopic(i, n, flushed, start, before, bag, counted);
        HeadLengthNext(before, i);
        i := i + 1;
      }
      assert before[..|before|] == before;
    }

    /** The inner loop: one topic's buffer, until the write that throws. */
    method FlushTopic(i: nat, done: nat, flushed: nat, start: int,
                      ghost before: seq<TopicState>, ghost bag: Bag, ghost counted: nat)
      returns (n: nat, threw: bool)
      requires i < |topics| == |before| && done == HeadLength(before[..i]) <= flushed
      requires flushed <= |HeadEntries(before, start)| && HeadSoFar(before, start, bag, counted, done)
      modifies `writer, `messagesWritten, `topics
      ensures n <= flushed && HeadSoFar(before, start, bag, counted, n)
      ensures if threw then n == flushed < |HeadEntries(before, start)|
              else n == HeadLength(before[..i]) + |before[i].buffer|
    {
      n, threw := done, false;
      var j := 0;
      while j < |topics[i].buffer| && !threw
        invariant i < |topics| && j <= |before[i].buffer| && n == done + j && n <= flushed
        invariant HeadSoFar(before, start, bag, counted, n)
        invariant threw ==> n == flushed < |HeadEntries(before, start)|
        decreases |before[i].buffer| - j, !threw
      {
        FlushNext(before, start, i, j);
        if n == flushed {
          threw := true;
        } else {
          WriteBuffered(i, j, start);
          n, j := n + 1, j + 1;
        }
      }
    }

    /** One buffered message, at the bag-start time. */
    method WriteBuffered(i: nat, j: nat, start: int)
      requires i < |topics| && j < |topics[i].buffer| && writer.Some?
      modifies `writer, `messagesWritten, `topics
      ensures var bag := old(writer.value);
        writer == Some(bag.(entries := bag.entries
                                       + [Entry(old(topics)[i].spec.topic, start, old(topics)[i].buffer[j].data)]))
      ensures messagesWritten == old(messagesWritten) + 1 && topics == CountOne(old(topics), i)
    {
      var entry := Entry(topics[i].spec.topic, start, topics[i].buffer[j].data);
      writer := Some(writer.value.(entries := writer.value.entries + [entry]));
      messagesWritten := messagesWritten + 1;
      topics := topics[i := topics[i].(written := topics[i].written + 1)];
    }

    method ClearQueue()
      modifies this
      ensures State() == old(State()).(
                queue := EMPTY_QUEUE.(running := old(writerThreadRunning)),
                past := old(past).(abandoned := old(past).abandoned + old(queue)))
    {
      past := past.(abandoned := past.abandoned + queue);
      queue, queueBytes, flushRequested, flushDone := [], 0, false, false;
    }

    /** A new thread, at the top of its loop, with an empty queue. */
    method LaunchThread()
      modifies this
      ensures State() == old(State()).(
                queue := EMPTY_QUEUE.(running := true),
                thread := WriterThread(Top, [], false),
                past := old(past).(abandoned := old(past).abandoned + old(queue)))
    {
      ClearQueue();
      writerThreadRunning, writerAt, batch, flushing := true, Top, [], false;
    }

    /** Start the drain thread, unless one is still running. */
    method SpawnWriterThread()
      requires Reachable(State()) && StartEnabled(State(), SpawnThread)
      modifies this
      ensures Reachable(State())
      ensures State() == StartStep(old(State()), SpawnThread)
    {
      if !writerThreadRunning {
        LaunchThread();
      }
      episode := episode.(pc := Spawned(episode.pc.origin));
      ReachableStart(old(State()), SpawnThread);
    }

    method GoLiveNow(now: int)
      requires Reachable(State()) && StartEnabled(State(), GoLive(now))
      modifies `episode
      ensures Reachable(State())
      ensures State() == StartStep(old(State()), GoLive(now))
    {
      var origin := episode.pc.origin;
      episode := episode.(started := now, recording := true, tickTimer := true, ticks := 0, lastClock := now);
      if origin.ByGoal? {
        episode := episode.(goalId := FormatGoalId(origin.goal));
      }
      episode := episode.(pc := Idle);
      ReachableStart(old(State()), GoLive(now));
    }

    method CloseWriter()
      modifies `writer, `past
      ensures State() == WithoutWriter(old(State()))
    {
      if writer.Some? {
        past := past.(closed := past.closed + [writer.value]);
        writer := None;
      }
    }

    /** begin_episode and the catch around it, the writer thread not intervening. */
    method BeginEpisode(fault: Fault, start: int, now: int)
      requires Reachable(State()) && episode.pc.Opening?
      modifies this
      ensures Reachable(State())
      ensures State() == InlineStart.BeginEpisode(old(State()), fault, start, now)
    {
      ReachableFree(State());
      RegisterTopics(Created(fault, |topics|), !fault.AtTopic?);
      if !fault.AtTopic? {
        FlushBuffers(start, Flushes(fault, |HeadEntries(topics, start)|));
      }
      ConcludeStart(now);
    }

    method ConcludeStart(now: int)
      requires Reachable(State()) && (episode.pc.Flushed? || (episode.pc.OpenFailed? && Free(State())))
      modifies this
      ensures Reachable(State()) && State() == Conclude(old(State()), now)
    {
      if episode.pc.OpenFailed? {
        AbortFailedOpen();
      } else {
        SpawnAndGoLive(now);
      }
    }

    method SpawnAndGoLive(now: int)
      requires Reachable(State()) && StartEnabled(State(), SpawnThread)
      modifies this
      ensures Reachable(State()) && State() == GoLiveStep(SpawnThreadStep(old(State())), now)
    {
      SpawnWriterThread();
      GoLiveNow(now);
    }

    method AbortFailedOpen()
      requires Reachable(State()) && StartEnabled(State(), AbortOpen)
      modifies `writer, `past, `episode
      ensures Reachable(State())
      ensures State() == StartStep(old(State()), AbortOpen)
    {
      CloseWriter();
      if episode.pc.origin.ByService? || episode.goal.None? {
        episode := episode.(pc := Idle);
      } else {
        episode := episode.(pc := Settling(FAILED_START, AfterFailedStart));
      }
      ReachableStart(old(State()), AbortOpen);
    }

    // ---------- on_recording_tick ----------

    method BeginFinishing(reason: Reason, callback: Callback, loaded: Option<nat>)
      modifies `episode
      ensures episode == BeginFinish(old(episode), Ending(reason, callback, loaded))
    {
      episode := episode.(recording := false, tickTimer := false);
      episode := episode.(pc := Finishing(Ending(reason, callback, loaded)));
    }

    method OnRecordingTick(now: int)
      requires Reachable(State()) && RunEnabled(State(), Tick(now))
      modifies `episode
      ensures Reachable(State())
      ensures State() == RunStep(old(State()), Tick(now))
    {
      if episode.recording {
        episode := episode.(ticks := episode.ticks + 1, lastClock := now);
        if writeFailed {
          BeginFinishing(Failure, TickTimer, Some(|past.handled|));
        } else {
          episode := episode.(pc := Ticking(now - episode.started, |past.handled|));
        }
      }
      ReachableRun(old(State()), Tick(now));
    }

    method FinishTick()
      requires Reachable(State()) && RunEnabled(State(), TickStop)
      modifies `episode, `past
      ensures Reachable(State())
      ensures State() == RunStep(old(State()), TickStop)
    {
      var elapsed, loaded := episode.pc.elapsed, Some(episode.pc.loaded);
      var canceling := IsCanceling(State());
      if stopRequested {
        BeginFinishing(if canceling then Cancelled else Stopped, TickTimer, loaded);
      } else if canceling {
        BeginFinishing(Cancelled, TickTimer, loaded);
      } else if episode.limit - elapsed <= 0 {
        BeginFinishing(Timeout, TickTimer, loaded);
      } else {
        episode := episode.(pc := Idle);
        if episode.goal.Some? {
          var feedback := Feedback(episode.goal.value, elapsed, episode.limit, messagesWritten);
          past := past.(feedback := past.feedback + [feedback]);
        }
      }
      ReachableRun(old(State()), TickStop);
    }

    // ---------- Cancelling ----------

    /** The action server moves an executing goal to CANCELING; it may do so at any moment. */
    method GoalCanceling(goal: Uuid)
      requires Reachable(State())
      modifies `goals
      ensures Reachable(State()) && State() == CancelGoal(old(State()), goal)
    {
      if goal in goals.state && goals.state[goal] == Executing {
        goals := goals.(state := goals.state[goal := Canceling]);
      }
      ReachableNext(old(State()), CancelLands(goal), State());
    }

    method HandleCancelRequest(goal: Uuid)
      requires Reachable(State()) && RunEnabled(State(), HandleCancel(goal))
      modifies `goals, `stopRequested
      ensures Reachable(State())
      ensures State() == RunStep(old(State()), HandleCancel(goal))
    {
      stopRequested := true;
      if goals.state[goal] == Executing {
        goals := goals.(state := goals.state[goal := Canceling]);
      }
      ReachableRun(old(State()), HandleCancel(goal));
    }

    method OnCancelService(direct: bool) returns (success: bool)
      requires Reachable(State()) && RunEnabled(State(), CancelService(direct))
      modifies `stopRequested
      ensures Reachable(State())
      ensures State() == RunStep(old(State()), CancelService(direct))
      ensures success <==> episode.recording || episode.pending
    {
      success := episode.recording || episode.pending;
      if success && direct {
        stopRequested := true;
      }
      ReachableRun(old(State()), CancelService(direct));
    }

    method OnCancelRefused()
      requires Reachable(State()) && RunEnabled(State(), CancelRefused)
      modifies `stopRequested
      ensures Reachable(State())
      ensures State() == RunStep(old(State()), CancelRefused)
    {
      stopRequested := true;
      ReachableRun(old(State()), CancelRefused);
    }

    // ---------- finish_recording ----------

    /** Leave the wait; on a timeout drop what is left. */
    method LeaveWait(kind: ExitKind, ending: Ending)
      modifies this
      ensures State() == LeaveDrain(old(State()), ending, kind)
    {
      var lost := if kind.ByTimeout? then queue else [];
      past := past.(abandoned := past.abandoned + lost,
                    exits := past.exits[|past.closed| := DrainExit(kind, |batch|, |lost|)]);
      if kind.ByTimeout? {
        queue, queueBytes := [], 0;
      }
      flushRequested := false;
      episode := episode.(pc := Closing(ending));
    }

    /** Ask for a flush; the wait returns at once when its condition already holds. */
    method AskFlush()
      requires Reachable(State()) && FinishEnabled(State(), BeginDrain)
      modifies this
      ensures Reachable(State())
      ensures State() == FinishStep(old(State()), BeginDrain)
    {
      var ending := episode.pc.ending;
      if writerThreadRunning {
        SetFlush(true, false);
        if queue == [] {
          LeaveWait(ByEmpty, ending);
        } else {
          episode := episode.(pc := Draining(ending));
        }
      } else {
        episode := episode.(pc := Closing(ending));
      }
      ReachableFinish(old(State()), BeginDrain);
    }

    method WakeFromDrain()
      requires Reachable(State()) && FinishEnabled(State(), WakeDrain)
      modifies this
      ensures Reachable(State())
      ensures State() == FinishStep(old(State()), WakeDrain)
    {
      LeaveWait(if flushDone then ByFlush else ByEmpty, episode.pc.ending);
      ReachableFinish(old(State()), WakeDrain);
    }

    method TimeOutDrain()
      requires Reachable(State()) && FinishEnabled(State(), DrainTimeout)
      modifies this
      ensures Reachable(State())
      ensures State() == FinishStep(old(State()), DrainTimeout)
    {
      LeaveWait(ByTimeout, episode.pc.ending);
      ReachableFinish(old(State()), DrainTimeout);
    }

    method CloseBagAfterDrain()
      requires Reachable(State()) && FinishEnabled(State(), CloseBag)
      modifies `writer, `past, `episode
      ensures Reachable(State())
      ensures State() == FinishStep(old(State()), CloseBag)
    {
      CloseWriter();
      episode := episode.(pc := Destroying(episode.pc.ending));
      ReachableFinish(old(State()), CloseBag);
    }

    method DestroyAfterClose()
      requires Reachable(State()) && FinishEnabled(State(), DestroyTopics)
      modifies `topics, `topicIndex, `episode
      ensures Reachable(State())
      ensures State() == FinishStep(old(State()), DestroyTopics)
    {
      DestroyDiscoveredSubscriptions();
      episode := episode.(pc := Reporting(episode.pc.ending));
      ReachableFinish(old(State()), DestroyTopics);
    }

    /** Stamp the bag's metadata, then prepare the result the goal will be settled with. */
    method ReportEpisode(metadataOk: bool)
      requires Reachable(State()) && FinishEnabled(State(), Report(metadataOk))
      modifies `past, `episode
      ensures Reachable(State())
      ensures State() == FinishStep(old(State()), Report(metadataOk))
    {
      var ending, n := episode.pc.ending, |past.closed| - 1;
      var metadata := if metadataOk then Some(episode.goalId) else None;
      past := past.(
        closed := past.closed[n := past.closed[n].(metadata := metadata, detached := episode.detached)]);
      if episode.goal.Some? {
        var result := Result(if metadataOk then ending.reason else Failure, Some(n), messagesWritten,
                             DropsTold(episode.dropped, metadataOk), metadataOk, Ended(ending));
        episode := episode.(pc := Settling(result, AfterFinish(ending.callback)));
      } else {
        episode := episode.(goalId := "");
        ReturnTo(ending.callback);
      }
      ReachableFinish(old(State()), Report(metadataOk));
    }

    method ReturnTo(callback: Callback)
      modifies `episode
      ensures episode == Return(old(episode), callback)
    {
      match callback
      case TickTimer => episode := episode.(pc := Idle);
      case Deactivate => episode := episode.(pc := Idle, phase := Inactive);
      case Cleanup => episode := episode.(pc := Halting(callback));
      case Shutdown => episode := episode.(pc := Halting(callback));
      case OnError => episode := episode.(pc := ErrorClosing);
    }

    // ---------- settle_goal ----------

    method TestIsCanceling()
      requires Reachable(State()) && FinishEnabled(State(), TestCanceling)
      modifies `episode
      ensures Reachable(State())
      ensures State() == FinishStep(old(State()), TestCanceling)
    {
      episode := episode.(pc := SettleCall(episode.pc.result, IsCanceling(State()), episode.pc.after));
      ReachableFinish(old(State()), TestCanceling);
    }

    /** The terminal call on the goal: canceled, abort or succeed. */
    method CallTerminal(goal: Uuid, result: Result, sawCanceling: bool)
      requires goal in goals.state
      modifies this
      ensures var verdict := Verdict(result.reason, sawCanceling);
        State() == old(State()).(goals := old(goals).(
          state := if Legal(old(goals).state[goal], verdict) then old(goals).state[goal := verdict]
                   else old(goals).state,
          settled := old(goals).settled + [Settlement(goal, result, sawCanceling, verdict)]))
    {
      var abortReason := result.reason.Failure? || result.reason.NodeDeactivated? || result.reason.Cancelled?;
      var verdict := if sawCanceling then Canceled else if abortReason then Aborted else Succeeded;
      if Legal(goals.state[goal], verdict) {
        goals := goals.(state := goals.state[goal := verdict]);
      }
      goals := goals.(settled := goals.settled + [Settlement(goal, result, sawCanceling, verdict)]);
    }

    /** settle_goal's call, the release of the handle, and what follows it. */
    method SettleGoal()
      requires Reachable(State()) && FinishEnabled(State(), CallSettle)
      modifies this
      ensures Reachable(State())
      ensures State() == FinishStep(old(State()), CallSettle)
    {
      var after := episode.pc.after;
      CallTerminal(episode.goal.value, episode.pc.result, episode.pc.sawCanceling);
      episode := episode.(goal := None);
      match after {
        case AfterFailedStart =>
          episode := episode.(pc := Idle);
        case AfterCancelledStart(callback) =>
          episode := episode.(goalId := "", pc := Stopping(callback));
        case AfterFinish(callback) =>
          episode := episode.(goalId := "");
          ReturnTo(callback);
      }
      ReachableFinish(old(State()), CallSettle);
    }

    // ---------- Lifecycle ----------

    method OnConfigure(specs: seq<RecordTopic>)
      requires Reachable(State()) && LifeEnabled(State(), Configure(specs))
      modifies `topics, `topicIndex, `episode
      ensures Reachable(State())
      ensures State() == LifeStep(old(State()), Configure(specs))
    {
      BuildTopicList(specs);
      episode := episode.(phase := Inactive);
      ReachableLife(old(State()), Configure(specs));
    }

    method OnActivate()
      requires Reachable(State()) && LifeEnabled(State(), Activate)
      modifies `episode
      ensures Reachable(State())
      ensures State() == LifeStep(old(State()), Activate)
    {
      episode := episode.(accepting := true, phase := Active);
      ReachableLife(old(State()), Activate);
    }

    /** What deactivate, cleanup, shutdown and error begin with: refuse goals, drop a pending start. */
    method BeginStopping(callback: Callback)
      requires Reachable(State()) && LifeEnabled(State(), BeginStop(callback))
      modifies `episode
      ensures Reachable(State())
      ensures State() == LifeStep(old(State()), BeginStop(callback))
    {
      episode := episode.(accepting := false);
      if !episode.pending {
        episode := episode.(pc := Stopping(callback));
      } else {
        episode := episode.(pending := false, settleTimer := false);
        if episode.goal.Some? {
          var result := Result(StopReason(callback), None, 0, None, true, StartDropped(callback));
          episode := episode.(pc := Settling(result, AfterCancelledStart(callback)));
        } else {
          episode := episode.(goalId := "", pc := Stopping(callback));
        }
      }
      ReachableLife(old(State()), BeginStop(callback));
    }

    method StopIfRecording()
      requires Reachable(State()) && LifeEnabled(State(), StopRecording)
      modifies `episode
      ensures Reachable(State())
      ensures State() == LifeStep(old(State()), StopRecording)
    {
      var callback := episode.pc.callback;
      if episode.recording {
        BeginFinishing(StopReason(callback), callback, None);
      } else {
        ReturnTo(callback);
      }
      ReachableLife(old(State()), StopRecording);
    }

    method StopWriterThread()
      requires Reachable(State()) && LifeEnabled(State(), HaltThread)
      modifies `writerThreadRunning, `episode
      ensures Reachable(State())
      ensures State() == LifeStep(old(State()), HaltThread)
    {
      if !writerThreadRunning {
        episode := episode.(pc := Clearing(episode.pc.callback));
      } else {
        writerThreadRunning := false;
        episode := episode.(pc := Joining(episode.pc.callback));
      }
      ReachableLife(old(State()), HaltThread);
    }

    method JoinWriterThread()
      requires Reachable(State()) && LifeEnabled(State(), Join)
      modifies `episode
      ensures Reachable(State())
      ensures State() == LifeStep(old(State()), Join)
    {
      episode := episode.(pc := Clearing(episode.pc.callback));
      ReachableLife(old(State()), Join);
    }

    method ClearTopics()
      modifies this
      ensures State() == old(State()).(table := EMPTY)
    {
      topics, topicIndex := [], map[];
    }

    method ClearAll()
      requires Reachable(State()) && LifeEnabled(State(), Clear)
      modifies this
      ensures Reachable(State())
      ensures State() == LifeStep(old(State()), Clear)
    {
      var cleanup := episode.pc.callback.Cleanup?;
      if cleanup {
        ClearQueue();
      }
      ClearTopics();
      episode := episode.(pc := Idle, tickTimer := false, phase := if cleanup then Unconfigured else Finalized);
      ReachableLife(old(State()), Clear);
    }

    method CloseAfterError()
      requires Reachable(State()) && LifeEnabled(State(), CloseOnError)
      modifies `writer, `past, `episode
      ensures Reachable(State())
      ensures State() == LifeStep(old(State()), CloseOnError)
    {
      CloseWriter();
      episode := episode.(pc := Idle, phase := Unconfigured);
      ReachableLife(old(State()), CloseOnError);
    }
  }
}
