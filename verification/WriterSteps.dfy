/** The writer thread's loop, one step per critical section. */
module WriterSteps {
  import opened RecorderTypes
  import opened TopicTable
  import opened MessageFlow
  import opened RecorderState

  datatype WriterAction =
    | Take
    | Lock
    | Lookup
    | Write(ok: bool)
    | Count
    | CountTopic
    | RaiseStop
    | Unlock
    | Check

  /** What the condition variable waits for. */
  predicate WakeUp(q: Queue) {
    q.items != [] || q.flushRequested || !q.running
  }

  predicate WriterEnabled(s: Recorder, a: WriterAction) {
    var pc, batch := s.thread.pc, s.thread.batch;
    match a
    case Take => pc.Top? && WakeUp(s.queue)
    case Lock => pc.Holding?
    case Lookup => pc.Between? && batch != []
    case Write(_) => pc.Looked? && batch != [] && s.sink.writer.Some?
    case Count => pc.Stored?
    case CountTopic => pc.Counted?
    case RaiseStop => pc.Failing?
    case Unlock => pc.Between? && batch == []
    case Check => pc.Checking?
  }

  function WriterStep(s: Recorder, a: WriterAction): Recorder
    requires WriterEnabled(s, a)
  {
    match a
    case Take => TakeStep(s)
    case Lock => LockStep(s)
    case Lookup => LookupStep(s)
    case Write(ok) => if ok then WriteStep(s) else WriteFailStep(s)
    case Count => CountStep(s)
    case CountTopic => CountTopicStep(s)
    case RaiseStop => RaiseStopStep(s)
    case Unlock => s.(thread := AfterBatch(s.thread))
    case Check => CheckStep(s)
  }

  function AfterBatch(w: WriterThread): WriterThread {
    w.(pc := if w.flushing then Checking else Top, batch := [])
  }

  /** How many messages one lock acquisition takes off the queue. */
  function BatchSize(q: Queue): nat {
    if |q.items| < BATCH_MAX then |q.items| else BATCH_MAX
  }

  function TakeStep(s: Recorder): Recorder {
    var q := s.queue;
    if !q.running && q.items == [] then s.(thread := WriterThread(Off, [], false))
    else
      var n := BatchSize(q);
      var left := q.items[n..];
      var flushing := q.flushRequested && left == [];
      s.(queue := q.(items := left, bytes := q.bytes - Bytes(q.items[..n])),
         thread := WriterThread(if n > 0 then Holding else if flushing then Checking else Top,
                                q.items[..n], flushing))
  }

  function Discarded(batch: seq<QueuedMessage>): seq<Handled> {
    seq(|batch|, i requires 0 <= i < |batch| => Handled(batch[i], NoBag))
  }

  /** Take writer_mutex_: with a bag open, start writing; without one, the whole batch is dropped. */
  function LockStep(s: Recorder): Recorder {
    if s.sink.writer.Some? then s.(thread := s.thread.(pc := Between))
    else
      s.(thread := AfterBatch(s.thread),
         past := s.past.(handled := s.past.handled + Discarded(s.thread.batch)))
  }

  function Disposed(s: Recorder, fate: Fate, pc: WriterPc): Recorder
    requires s.thread.batch != []
  {
    s.(thread := s.thread.(pc := pc, batch := s.thread.batch[1..]),
       past := s.past.(handled := s.past.handled + [Handled(s.thread.batch[0], fate)]))
  }

  function LookupStep(s: Recorder): Recorder
    requires s.thread.batch != []
  {
    var index := s.thread.batch[0].topic;
    if index >= |s.table.topics| then Disposed(s, BadIndex(|s.past.closed|), Between)
    else s.(thread := s.thread.(pc := Looked(s.table.topics[index].spec.topic)))
  }

  function WriteStep(s: Recorder): Recorder
    requires s.thread.pc.Looked? && s.thread.batch != [] && s.sink.writer.Some?
  {
    var m, name, bag := s.thread.batch[0], s.thread.pc.name, s.sink.writer.value;
    Disposed(s, Written(|s.past.closed|, name), Stored(m.topic))
      .(sink := s.sink.(writer := Some(bag.(entries := bag.entries + [Entry(name, m.stamp, m.data)]))))
  }

  function WriteFailStep(s: Recorder): Recorder
    requires s.thread.batch != []
  {
    Disposed(s, WriteFailed(|s.past.closed|), Failing).(sink := s.sink.(writeFailed := true))
  }

  function CountStep(s: Recorder): Recorder
    requires s.thread.pc.Stored?
  {
    s.(sink := s.sink.(messagesWritten := s.sink.messagesWritten + 1),
       thread := s.thread.(pc := Counted(s.thread.pc.topic)))
  }

  function CountTopicStep(s: Recorder): Recorder
    requires s.thread.pc.Counted?
  {
    s.(table := s.table.(topics := CountOne(s.table.topics, s.thread.pc.topic)),
       thread := s.thread.(pc := Between))
  }

  function RaiseStopStep(s: Recorder): Recorder {
    s.(sink := s.sink.(stopRequested := true), thread := s.thread.(pc := Between))
  }

  /** Answer a flush request, unless messages arrived after the batch was taken. */
  function CheckStep(s: Recorder): Recorder {
    s.(thread := WriterThread(Top, [], false),
       queue := if s.queue.items == [] then s.queue.(flushRequested := false, flushDone := true) else s.queue)
  }
}
