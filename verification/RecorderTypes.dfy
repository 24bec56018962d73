// The values the recorder handles: topics, messages, bags and results.
module RecorderTypes {

  datatype Option<+T> = None | Some(value: T)

  // ---------- Bounds ----------

  const MAX_BUFFER_BYTES: nat := 4 * 1024 * 1024
  const QUEUE_MAX_MESSAGES: nat := 20000
  const QUEUE_MAX_BYTES: nat := 512 * 1024 * 1024
  const BATCH_MAX: nat := 256

  // ---------- Topics ----------

  datatype Strategy = NoBuffer | Accumulate | ResubscribeOnStart

  datatype Qos = Qos(depth: int, reliable: bool, keepLast: bool, transientLocal: bool, liveliness: int)

  datatype RecordTopic = RecordTopic(topic: string, typ: string, qos: Qos, strategy: Strategy)

  /** A live subscription: the index its callback captured and the name it subscribed to. */
  datatype Subscription = Subscription(index: nat, name: string)

  // ---------- Messages ----------

  /** One serialized message. `id` numbers deliveries, `source` is the topic it was published on. */
  datatype Payload = Payload(id: nat, length: nat, source: string)

  datatype BufferedMessage = BufferedMessage(data: Payload, stamp: int)

  /** A message on its way to disk. `episode` (history) numbers the bag that was open on arrival. */
  datatype QueuedMessage = QueuedMessage(data: Payload, stamp: int, topic: nat, episode: nat)

  /** Per-topic state. `seen` (history) lists what arrived on the topic while the recorder was idle. */
  datatype TopicState = TopicState(
    spec: RecordTopic,
    sub: Subscription,
    buffer: seq<BufferedMessage>,
    written: nat,
    discovered: bool,
    seen: seq<BufferedMessage>)

  // ---------- Goals ----------

  newtype Byte = b: int | 0 <= b < 256

  type Uuid = u: seq<Byte> | |u| == 16 witness seq(16, _ => 0)

  datatype GoalState = Executing | Canceling | Succeeded | Aborted | Canceled

  datatype Reason = Timeout | Stopped | Cancelled | NodeDeactivated | Failure

  /** The callback a finish_recording or cancel_pending_start was called from. */
  datatype Callback = TickTimer | Deactivate | Cleanup | Shutdown | OnError

  /**
    Why an episode ends. `loaded` (history): when a tick ends it, how many messages the writer thread had
    handled as the tick loaded write_failed_.
   */
  datatype Ending = Ending(reason: Reason, callback: Callback, loaded: Option<nat>)

  /** What came of a goal's episode (history): its bag did not open, its pending start was dropped, or it ended. */
  datatype End = NeverOpened | StartDropped(callback: Callback) | Ended(ending: Ending)

  /**
    What the client is told; `dropped` is the number of drops the message names, if it names any. The last
    two fields are history: whether the metadata was written, and how the episode went.
   */
  datatype Result = Result(
    reason: Reason,
    bag: Option<nat>,
    written: nat,
    dropped: Option<nat>,
    metadataOk: bool,
    end: End)

  /** One completed settle_goal call (history). */
  datatype Settlement = Settlement(goal: Uuid, result: Result, sawCanceling: bool, verdict: GoalState)

  // ---------- Bags ----------

  datatype Entry = Entry(topic: string, time: int, data: Payload)

  /**
    A bag: the topics registered in it, its messages, and the goal id in its metadata once that is
    written. The other fields are history: the table, clock, flushed length and goal it was opened
    with, and whether a service call detached that goal during the episode.
   */
  datatype Bag = Bag(
    registered: seq<string>,
    entries: seq<Entry>,
    metadata: Option<string>,
    origin: seq<TopicState>,
    start: int,
    headLength: nat,
    starter: Option<Uuid>,
    detached: bool)

  /** What the writer thread did with a message it took from the queue (history). */
  datatype Fate =
    | Written(bag: nat, name: string)
    | WriteFailed(bag: nat)
    | BadIndex(bag: nat)
    | NoBag

  datatype Handled = Handled(msg: QueuedMessage, fate: Fate)

  /** How finish_recording's drain wait ended, and what was then outstanding (history). */
  datatype ExitKind = ByFlush | ByEmpty | ByTimeout

  datatype DrainExit = DrainExit(kind: ExitKind, inHand: nat, lost: nat)

  /** A published feedback message, with the limit of its episode (history). */
  datatype Feedback = Feedback(goal: Uuid, elapsed: int, limit: int, written: nat)
}
