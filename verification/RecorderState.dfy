/**
  The recorder's shared state, with one program counter per thread.

  The executor thread runs callbacks one at a time; the writer thread drains the queue into the open
  bag. A step of the machine is one critical section, one atomic access, or a stretch of code that
  touches only state the other thread cannot reach at that point.
 */
module RecorderState {
  import opened RecorderTypes
  import opened TopicTable

  // ---------- Queue and flush flags, under queue_mutex_ ----------

  datatype Queue = Queue(
    items: seq<QueuedMessage>,
    bytes: int,
    flushRequested: bool,
    flushDone: bool,
    running: bool)

  // ---------- The writer thread ----------

  /** Between, Looked, Stored, Counted and Failing are inside the writer_mutex_ section. */
  datatype WriterPc =
    | Off
    | Top
    | Holding
    | Between
    | Looked(name: string)
    | Stored(topic: nat)
    | Counted(topic: nat)
    | Failing
    | Checking

  datatype WriterThread = WriterThread(pc: WriterPc, batch: seq<QueuedMessage>, flushing: bool)

  predicate HoldsWriterMutex(pc: WriterPc) {
    pc.Between? || pc.Looked? || pc.Stored? || pc.Counted? || pc.Failing?
  }

  /** The open bag, and the atomics both threads touch. */
  datatype Sink = Sink(
    writer: Option<Bag>,
    messagesWritten: nat,
    writeFailed: bool,
    stopRequested: bool)

  // ---------- The executor thread ----------

  datatype Phase = Unconfigured | Inactive | Active | Finalized

  /** Who opens the bag: a goal, the start service, or the settle timer of a deferred start. */
  datatype Origin = ByGoal(goal: Uuid) | ByService | ByTimer

  /** What follows a settle_goal call. */
  datatype After = AfterFailedStart | AfterCancelledStart(callback: Callback) | AfterFinish(callback: Callback)

  /** Ticking carries the clock's reading and (history) the messages handled at the tick's first load. */
  datatype ExecPc =
    | Idle
    | Opening(origin: Origin)
    | Opened(origin: Origin, registered: seq<string>)
    | Flushed(origin: Origin)
    | Spawned(origin: Origin)
    | OpenFailed(origin: Origin)
    | Ticking(elapsed: int, loaded: nat)
    | Finishing(ending: Ending)
    | Draining(ending: Ending)
    | Closing(ending: Ending)
    | Destroying(ending: Ending)
    | Reporting(ending: Ending)
    | Settling(result: Result, after: After)
    | SettleCall(result: Result, sawCanceling: bool, after: After)
    | Stopping(callback: Callback)
    | Halting(callback: Callback)
    | Joining(callback: Callback)
    | Clearing(callback: Callback)
    | ErrorClosing

  /**
    The executor's own state. `starter`, `detached`, `ticks` and `lastClock` are history: the goal that
    started this episode, whether ~/start_recording has detached it since, and the ticks so far.
   */
  datatype Exec = Exec(
    pc: ExecPc,
    phase: Phase,
    accepting: bool,
    recording: bool,
    pending: bool,
    settleTimer: bool,
    tickTimer: bool,
    goal: Option<Uuid>,
    goalId: string,
    dropped: nat,
    started: int,
    limit: int,
    defaultLimit: int,
    starter: Option<Uuid>,
    detached: bool,
    ticks: nat,
    lastClock: int)

  /** The action server's view of the goals it accepted; the last two fields are history. */
  datatype Goals = Goals(
    state: map<Uuid, GoalState>,
    settled: seq<Settlement>,
    released: set<Uuid>)

  /** History over the whole run. `closed[n]` is the n-th bag; `exits[n]` how its drain wait ended. */
  datatype Past = Past(
    delivered: nat,
    received: seq<QueuedMessage>,
    accepted: seq<QueuedMessage>,
    dropped: seq<QueuedMessage>,
    abandoned: seq<QueuedMessage>,
    handled: seq<Handled>,
    closed: seq<Bag>,
    exits: map<nat, DrainExit>,
    feedback: seq<Feedback>)

  datatype Recorder = Recorder(
    queue: Queue,
    thread: WriterThread,
    sink: Sink,
    table: Table,
    exec: Exec,
    goals: Goals,
    past: Past)

  const EMPTY_QUEUE: Queue := Queue([], 0, false, false, false)

  const IDLE_THREAD: WriterThread := WriterThread(Off, [], false)

  function Initial(defaultLimit: int): Recorder {
    Recorder(
      EMPTY_QUEUE,
      IDLE_THREAD,
      Sink(None, 0, false, false),
      EMPTY,
      Exec(Idle, Unconfigured, false, false, false, false, false, None, "", 0, 0, 0, defaultLimit,
           None, false, 0, 0),
      Goals(map[], [], {}),
      Past(0, [], [], [], [], [], [], map[], []))
  }
}
