/** A flush request is answered within a bounded number of writer steps and loop passes. */
module FlushProgress {
  import opened MessageFlow
  import opened RecorderState
  import opened WriterSteps
  import opened ExecutorSteps
  import opened ControlInvariant
  import opened Runs
  import opened RecorderTheorems

  /** finish_recording is waiting, and the flush has not been answered. */
  predicate Waiting(s: Recorder) {
    s.exec.pc.Draining? && !s.queue.flushDone
  }

  function Rank(pc: WriterPc): nat {
    match pc
    case Off => 0
    case Top => 0
    case Checking => 1
    case Looked(_) => 1
    case Between => 2
    case Counted(_) => 3
    case Failing => 3
    case Holding => 3
    case Stored(_) => 4
  }

  /** An upper bound on the writer steps left before the answer. */
  function Work(s: Recorder): nat {
    9 * |s.queue.items| + 5 * |s.thread.batch| + Rank(s.thread.pc)
  }

  /** Lock acquisitions left: one for every batch of at most 256 queued messages. */
  function Batches(q: Queue): nat {
    (|q.items| + 255) / 256
  }

  /** The writer needs nothing the waiter holds: it can always move. */
  lemma WriterCanMove(s: Recorder) returns (a: WriterAction)
    requires Reachable(s) && Waiting(s)
    ensures WriterEnabled(s, a)
  {
    ReachableInv(s);
    a := WriterInside(s);
  }

  /** A new thread finds an empty queue and no flush in progress; one that is running keeps its queue and its batch. */
  lemma SpawnStartsFresh(s: Recorder)
    requires StartEnabled(s, SpawnThread)
    ensures var s' := StartStep(s, SpawnThread);
      && s'.queue.running
      && (s.queue.running ==> s'.queue == s.queue && s'.thread == s.thread)
      && (!s.queue.running ==>
        && s'.queue.items == [] && s'.queue.bytes == 0 && !s'.queue.flushRequested && !s'.queue.flushDone
        && s'.thread.pc.Top? && s'.thread.batch == [] && !s'.thread.flushing)
  {
  }

  /**
    One lock acquisition takes the oldest messages, all of them up to 256, and their bytes; a flush is due
    after them exactly when it was requested and they are the last. The thread ends only when told to, and
    then with nothing left.
   */
  lemma TakenIs(s: Recorder)
    requires Reachable(s) && WriterEnabled(s, Take)
    ensures var s', n := WriterStep(s, Take), |s.queue.items|;
      && (s'.thread.pc.Off? <==> !s.queue.running && n == 0)
      && s.queue.items == s'.thread.batch + s'.queue.items
      && |s'.thread.batch| == (if n < 256 then n else 256)
      && s'.queue.bytes == Bytes(s'.queue.items)
      && (!s'.thread.pc.Off? ==> (s'.thread.flushing <==> s.queue.flushRequested && n <= 256))
  {
    ReachableThread(s);
    BytesSplit(s.queue.items, BatchSize(s.queue));
    var n := BatchSize(s.queue);
    assert s.queue.items == s.queue.items[..n] + s.queue.items[n..];
  }

  /** Each of its steps answers the flush or brings the answer closer. */
  lemma WriterGetsCloser(s: Recorder, a: WriterAction)
    requires Control(s) && Waiting(s) && WriterEnabled(s, a)
    ensures var s' := WriterStep(s, a);
      && s'.exec == s.exec
      && (Waiting(s') ==> Work(s') < Work(s))
      && Batches(s'.queue) + (if a.Take? then 1 else 0) <= Batches(s.queue)
  {
  }

  function StepsTaken(schedule: seq<Action>): nat
    decreases |schedule|
  {
    if schedule == [] then 0 else (if schedule[0].Writer? then 1 else 0) + StepsTaken(schedule[1..])
  }

  function Takes(schedule: seq<Action>): nat
    decreases |schedule|
  {
    if schedule == [] then 0
    else (if schedule[0].Writer? && schedule[0].writer.Take? then 1 else 0) + Takes(schedule[1..])
  }

  /** Nothing the waiter itself does: only the writer runs, and cancels may land. */
  predicate WhileWaiting(schedule: seq<Action>) {
    forall i :: 0 <= i < |schedule| ==> schedule[i].Writer? || schedule[i].CancelLands?
  }

  /** One step while waiting: the answer, once given, stays; each batch is one lock acquisition. */
  lemma StepWhileWaiting(s: Recorder, a: Action)
    requires Control(s) && s.exec.pc.Draining? && Enabled(s, a) && (a.Writer? || a.CancelLands?)
    ensures var s' := Step(s, a);
      && Control(s') && s'.exec == s.exec
      && (s.queue.flushDone ==> s'.queue.flushDone && !(a.Writer? && a.writer.Take?))
      && (!s.queue.flushDone ==>
        && (Waiting(s') ==> Work(s') + (if a.Writer? then 1 else 0) <= Work(s))
        && Batches(s'.queue) + (if a.Writer? && a.writer.Take? then 1 else 0) <= Batches(s.queue))
  {
    if a.Writer? {
      WriterKeepsControl(s, a.writer);
      if Waiting(s) {
        WriterGetsCloser(s, a.writer);
      }
    }
  }

  /** Once answered, the flush stays answered for as long as the waiter does nothing. */
  lemma {:induction false} StaysAnswered(s: Recorder, schedule: seq<Action>)
    requires Control(s) && s.exec.pc.Draining? && s.queue.flushDone && IsRun(s, schedule) && WhileWaiting(schedule)
    ensures Outcome(s, schedule).queue.flushDone
    decreases |schedule|
  {
    if schedule != [] {
      StepWhileWaiting(s, schedule[0]);
      StaysAnswered(Step(s, schedule[0]), schedule[1..]);
    }
  }

  lemma {:induction false} WorkBounds(s: Recorder, schedule: seq<Action>)
    requires Control(s) && Waiting(s) && IsRun(s, schedule) && WhileWaiting(schedule)
    ensures Outcome(s, schedule).queue.flushDone || StepsTaken(schedule) <= Work(s)
    decreases |schedule|
  {
    if schedule != [] {
      var s' := Step(s, schedule[0]);
      StepWhileWaiting(s, schedule[0]);
      if s'.queue.flushDone {
        StaysAnswered(s', schedule[1..]);
      } else {
        WorkBounds(s', schedule[1..]);
      }
    }
  }

  lemma {:induction false} TakesBounded(s: Recorder, schedule: seq<Action>)
    requires Control(s) && s.exec.pc.Draining? && IsRun(s, schedule) && WhileWaiting(schedule)
    ensures Takes(schedule) <= if s.queue.flushDone then 0 else Batches(s.queue)
    decreases |schedule|
  {
    if schedule != [] {
      StepWhileWaiting(s, schedule[0]);
      TakesBounded(Step(s, schedule[0]), schedule[1..]);
    }
  }

  /**
    In every schedule that leaves the executor waiting, the flush has been answered once the writer has
    made more than Work(s) steps, and after the loop pass it is in the writer makes at most
    ceil(|queue| / 256) more.
   */
  lemma FlushIsAnswered(s: Recorder, schedule: seq<Action>)
    requires Reachable(s) && Waiting(s) && IsRun(s, schedule) && WhileWaiting(schedule)
    ensures StepsTaken(schedule) > Work(s) ==> Outcome(s, schedule).queue.flushDone
    ensures Takes(schedule) <= Batches(s.queue)
  {
    ReachableInv(s);
    TakesBounded(s, schedule);
    WorkBounds(s, schedule);
  }
}
