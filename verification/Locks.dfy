/**
  The five mutexes. Every piece of code takes them in increasing rank and never retakes one it holds,
  so no set of threads can wait for one another in a circle.
 */
module Locks {
  datatype Mutex = Lifecycle | Writer | Topics | WriteError | QueueMutex

  function Rank(m: Mutex): nat {
    match m
    case Lifecycle => 0
    case Writer => 1
    case Topics => 2
    case WriteError => 3
    case QueueMutex => 4
  }

  datatype Op = Acquire(m: Mutex) | Release(m: Mutex)

  // ---------- The code, as the sequence of its lock operations ----------

  function Section(m: Mutex, body: seq<Op>): seq<Op> {
    [Acquire(m)] + body + [Release(m)]
  }

  function When(c: bool, ops: seq<Op>): seq<Op> {
    if c then ops else []
  }

  /** What the writer loop does with one message. */
  datatype Outcome = BadIndex | Written | FirstFailure | LaterFailure

  function MessageOps(o: Outcome): seq<Op> {
    Section(Topics, [])
    + (match o
       case Written => Section(Topics, [])
       case FirstFailure => Section(WriteError, [])
       case _ => [])
  }

  function BatchOps(outcomes: seq<Outcome>): seq<Op> {
    if outcomes == [] then [] else MessageOps(outcomes[0]) + BatchOps(outcomes[1..])
  }

  /** A wait on a condition variable gives queue_mutex_ up and takes it back, any number of times. */
  function WaitOps(wakeUps: nat): seq<Op> {
    if wakeUps == 0 then [] else [Release(QueueMutex), Acquire(QueueMutex)] + WaitOps(wakeUps - 1)
  }

  function WriterPass(wakeUps: nat, batch: bool, outcomes: seq<Outcome>, flushing: bool): seq<Op> {
    Section(QueueMutex, WaitOps(wakeUps))
    + When(batch, Section(Writer, BatchOps(outcomes)))
    + When(flushing, Section(QueueMutex, []))
  }

  /** open_writer, and the close_writer of a failed open. */
  function OpenOps(registered: bool, published: bool, spawned: bool, failed: bool): seq<Op> {
    When(registered, Section(Topics, []))
    + When(published, Section(Writer, Section(Topics, [])))
    + When(spawned, Section(QueueMutex, []))
    + When(failed, Section(Writer, []))
  }

  datatype Code =
    | Pass(wakeUps: nat, batch: bool, outcomes: seq<Outcome>, flushing: bool)
    | IdleMessage
    | LiveMessage
    | Configure
    | StartRecording(refused: bool, discover: bool, found: bool, inline: bool,
                     registered: bool, published: bool, spawned: bool, failed: bool)
    | CompleteStart(pending: bool, registered: bool, published: bool, spawned: bool, failed: bool)
    | Tick(loadsReason: bool)
    | FinishRecording(drain: bool, wakeUps: nat)
    | CancelService
    | CancelResponse
    | CleanUp
    | CloseOnError

  function Ops(c: Code): seq<Op> {
    match c
    case Pass(wakeUps, batch, outcomes, flushing) => WriterPass(wakeUps, batch, outcomes, flushing)
    case IdleMessage => Section(Topics, [])
    case LiveMessage => Section(QueueMutex, [])
    case Configure => Section(Topics, [])
    case StartRecording(refused, discover, found, inline, registered, published, spawned, failed) =>
      Section(Lifecycle, When(!refused,
        Section(WriteError, []) + When(discover, Section(Topics, [])) + When(found, Section(Topics, []))
        + Section(Topics, []) + When(inline, OpenOps(registered, published, spawned, failed))))
    case CompleteStart(pending, registered, published, spawned, failed) =>
      Section(Lifecycle, When(pending, Section(Topics, []) + OpenOps(registered, published, spawned, failed)))
    case Tick(loadsReason) => When(loadsReason, Section(WriteError, []))
    case FinishRecording(drain, wakeUps) =>
      When(drain, Section(QueueMutex, WaitOps(wakeUps)))
      + Section(Writer, []) + Section(Topics, []) + Section(Topics, [])
    case CancelService => Section(WriteError, [])
    case CancelResponse => Section(WriteError, [])
    case CleanUp => Section(QueueMutex, []) + Section(Topics, [])
    case CloseOnError => Section(Writer, [])
  }

  /** A thread's code: any sequence of the above. */
  function Program(codes: seq<Code>): seq<Op> {
    if codes == [] then [] else Ops(codes[0]) + Program(codes[1..])
  }

  // ---------- The discipline ----------

  predicate Above(m: Mutex, held: seq<Mutex>) {
    forall i :: 0 <= i < |held| ==> Rank(held[i]) < Rank(m)
  }

  /**
    From `held` the code takes only what ranks above everything held, releases its newest lock, never
    releases the lowest `base` locks, and ends holding just those.
   */
  predicate NeutralFrom(ops: seq<Op>, held: seq<Mutex>, base: nat)
    decreases |ops|
  {
    if ops == [] then |held| == base
    else
      match ops[0]
      case Acquire(m) => Above(m, held) && NeutralFrom(ops[1..], held + [m], base)
      case Release(m) =>
        |held| > base && held[|held| - 1] == m && NeutralFrom(ops[1..], held[..|held| - 1], base)
  }

  /** A stretch of code that starts and ends with `held`. */
  predicate Neutral(ops: seq<Op>, held: seq<Mutex>) {
    NeutralFrom(ops, held, |held|)
  }

  lemma {:induction false} NeutralConcat(a: seq<Op>, b: seq<Op>, held: seq<Mutex>, kept: seq<Mutex>)
    requires kept <= held && NeutralFrom(a, held, |kept|) && Neutral(b, kept)
    ensures NeutralFrom(a + b, held, |kept|)
    decreases |a|
  {
    if a == [] {
      assert a + b == b && held == kept;
    } else {
      assert (a + b)[1..] == a[1..] + b;
      match a[0]
      case Acquire(m) => NeutralConcat(a[1..], b, held + [m], kept);
      case Release(m) => NeutralConcat(a[1..], b, held[..|held| - 1], kept);
    }
  }

  lemma Join(a: seq<Op>, b: seq<Op>, held: seq<Mutex>)
    requires Neutral(a, held) && Neutral(b, held)
    ensures Neutral(a + b, held)
  {
    NeutralConcat(a, b, held, held);
  }

  lemma {:induction false} SectionBody(body: seq<Op>, m: Mutex, held: seq<Mutex>, inner: seq<Mutex>)
    requires held + [m] <= inner && NeutralFrom(body, inner, |held| + 1)
    ensures NeutralFrom(body + [Release(m)], inner, |held|)
    decreases |body|
  {
    var all := body + [Release(m)];
    if body == [] {
      assert all[1..] == [] && inner == held + [m];
    } else {
      assert all[1..] == body[1..] + [Release(m)];
      match body[0]
      case Acquire(x) => SectionBody(body[1..], m, held, inner + [x]);
      case Release(x) => SectionBody(body[1..], m, held, inner[..|inner| - 1]);
    }
  }

  lemma SectionNeutral(m: Mutex, body: seq<Op>, held: seq<Mutex>)
    requires Above(m, held) && Neutral(body, held + [m])
    ensures Neutral(Section(m, body), held)
  {
    SectionBody(body, m, held, held + [m]);
    assert Section(m, body)[1..] == body + [Release(m)];
  }

  lemma OutermostNeutral(m: Mutex, body: seq<Op>)
    requires Neutral(body, [m])
    ensures Neutral(Section(m, body), [])
  {
    assert [] + [m] == [m];
    SectionNeutral(m, body, []);
  }

  lemma LeafNeutral(m: Mutex, held: seq<Mutex>)
    requires Above(m, held)
    ensures Neutral(Section(m, []), held)
  {
    SectionNeutral(m, [], held);
  }

  lemma {:induction false} BatchNeutral(outcomes: seq<Outcome>)
    ensures Neutral(BatchOps(outcomes), [Writer])
  {
    if outcomes != [] {
      LeafNeutral(Topics, [Writer]);
      LeafNeutral(WriteError, [Writer]);
      var second := match outcomes[0]
        case Written => Section(Topics, [])
        case FirstFailure => Section(WriteError, [])
        case _ => [];
      Join(Section(Topics, []), second, [Writer]);
      BatchNeutral(outcomes[1..]);
      Join(MessageOps(outcomes[0]), BatchOps(outcomes[1..]), [Writer]);
    }
  }

  lemma {:induction false} WaitNeutral(wakeUps: nat, held: seq<Mutex>)
    requires Above(QueueMutex, held)
    ensures Neutral(Section(QueueMutex, WaitOps(wakeUps)), held)
  {
    if wakeUps == 0 {
      LeafNeutral(QueueMutex, held);
    } else {
      WaitNeutral(wakeUps - 1, held);
      LeafNeutral(QueueMutex, held);
      Join(Section(QueueMutex, []), Section(QueueMutex, WaitOps(wakeUps - 1)), held);
      assert Section(QueueMutex, WaitOps(wakeUps))
          == Section(QueueMutex, []) + Section(QueueMutex, WaitOps(wakeUps - 1));
    }
  }

  lemma PassNeutral(wakeUps: nat, batch: bool, outcomes: seq<Outcome>, flushing: bool)
    ensures Neutral(WriterPass(wakeUps, batch, outcomes, flushing), [])
  {
    var take := Section(QueueMutex, WaitOps(wakeUps));
    var write := When(batch, Section(Writer, BatchOps(outcomes)));
    WaitNeutral(wakeUps, []);
    BatchNeutral(outcomes);
    OutermostNeutral(Writer, BatchOps(outcomes));
    LeafNeutral(QueueMutex, []);
    Join(take, write, []);
    Join(take + write, When(flushing, Section(QueueMutex, [])), []);
  }

  lemma OpenNeutral(registered: bool, published: bool, spawned: bool, failed: bool)
    ensures Neutral(OpenOps(registered, published, spawned, failed), [Lifecycle])
  {
    var held := [Lifecycle];
    LeafNeutral(Topics, held);
    LeafNeutral(Topics, held + [Writer]);
    SectionNeutral(Writer, Section(Topics, []), held);
    LeafNeutral(QueueMutex, held);
    LeafNeutral(Writer, held);
    var first := When(registered, Section(Topics, [])) + When(published, Section(Writer, Section(Topics, [])));
    Join(When(registered, Section(Topics, [])), When(published, Section(Writer, Section(Topics, []))), held);
    Join(first, When(spawned, Section(QueueMutex, [])), held);
    Join(first + When(spawned, Section(QueueMutex, [])), When(failed, Section(Writer, [])), held);
  }

  lemma StartNeutral(c: Code)
    requires c.StartRecording?
    ensures Neutral(Ops(c), [])
  {
    var held := [Lifecycle];
    OpenNeutral(c.registered, c.published, c.spawned, c.failed);
    LeafNeutral(WriteError, held);
    LeafNeutral(Topics, held);
    var reset := Section(WriteError, []) + When(c.discover, Section(Topics, []));
    Join(Section(WriteError, []), When(c.discover, Section(Topics, [])), held);
    Join(reset, When(c.found, Section(Topics, [])), held);
    var ready := reset + When(c.found, Section(Topics, []));
    Join(ready, Section(Topics, []), held);
    var open := When(c.inline, OpenOps(c.registered, c.published, c.spawned, c.failed));
    Join(ready + Section(Topics, []), open, held);
    OutermostNeutral(Lifecycle, When(!c.refused, ready + Section(Topics, []) + open));
  }

  lemma CompleteNeutral(c: Code)
    requires c.CompleteStart?
    ensures Neutral(Ops(c), [])
  {
    var open := OpenOps(c.registered, c.published, c.spawned, c.failed);
    OpenNeutral(c.registered, c.published, c.spawned, c.failed);
    LeafNeutral(Topics, [Lifecycle]);
    Join(Section(Topics, []), open, [Lifecycle]);
    OutermostNeutral(Lifecycle, When(c.pending, Section(Topics, []) + open));
  }

  lemma FinishNeutral(drain: bool, wakeUps: nat)
    ensures Neutral(Ops(FinishRecording(drain, wakeUps)), [])
  {
    var wait := When(drain, Section(QueueMutex, WaitOps(wakeUps)));
    WaitNeutral(wakeUps, []);
    LeafNeutral(Writer, []);
    LeafNeutral(Topics, []);
    Join(wait, Section(Writer, []), []);
    Join(wait + Section(Writer, []), Section(Topics, []), []);
    Join(wait + Section(Writer, []) + Section(Topics, []), Section(Topics, []), []);
  }

  /** Every piece of the recorder's code takes its locks in increasing rank and gives all of them back. */
  lemma OpsNeutral(c: Code)
    ensures Neutral(Ops(c), [])
  {
    match c
    case Pass(wakeUps, batch, outcomes, flushing) => PassNeutral(wakeUps, batch, outcomes, flushing);
    case StartRecording(_, _, _, _, _, _, _, _) => StartNeutral(c);
    case CompleteStart(_, _, _, _, _) => CompleteNeutral(c);
    case FinishRecording(drain, wakeUps) => FinishNeutral(drain, wakeUps);
    case CleanUp =>
      LeafNeutral(QueueMutex, []);
      LeafNeutral(Topics, []);
      Join(Section(QueueMutex, []), Section(Topics, []), []);
    case _ =>
      forall m: Mutex ensures Neutral(Section(m, []), []) {
        LeafNeutral(m, []);
      }
  }

  lemma {:induction false} ProgramNeutral(codes: seq<Code>)
    ensures Neutral(Program(codes), [])
  {
    if codes != [] {
      OpsNeutral(codes[0]);
      ProgramNeutral(codes[1..]);
      Join(Ops(codes[0]), Program(codes[1..]), []);
    }
  }

  // ---------- Threads running such code ----------

  /** What a thread has still to do, and the mutexes it holds, oldest first. */
  datatype Thread = Thread(todo: seq<Op>, held: seq<Mutex>)

  predicate CanMove(threads: seq<Thread>, i: nat)
    requires i < |threads|
  {
    threads[i].todo != [] &&
    match threads[i].todo[0]
    case Acquire(m) => forall j :: 0 <= j < |threads| ==> m !in threads[j].held
    case Release(m) => true
  }

  function Moved(t: Thread): Thread
    requires t.todo != []
  {
    match t.todo[0]
    case Acquire(m) => Thread(t.todo[1..], t.held + [m])
    case Release(m) => Thread(t.todo[1..], if t.held == [] then [] else t.held[..|t.held| - 1])
  }

  /** A run: any number of threads, each on its own program, moved one at a time in any order. */
  ghost predicate IsRun(states: seq<seq<Thread>>, schedule: seq<nat>) {
    && |states| == |schedule| + 1
    && (forall i :: 0 <= i < |states[0]| ==> exists codes :: states[0][i] == Thread(Program(codes), []))
    && (forall n :: 0 <= n < |schedule| ==>
      && schedule[n] < |states[n]| && CanMove(states[n], schedule[n])
      && states[n + 1] == states[n][schedule[n] := Moved(states[n][schedule[n]])])
  }

  predicate Sound(threads: seq<Thread>) {
    && (forall i :: 0 <= i < |threads| ==> NeutralFrom(threads[i].todo, threads[i].held, 0))
    && (forall i, j, m :: 0 <= i < |threads| && 0 <= j < |threads| && i != j && m in threads[i].held ==>
      m !in threads[j].held)
  }

  lemma MoveKeepsSound(threads: seq<Thread>, i: nat)
    requires Sound(threads) && i < |threads| && CanMove(threads, i)
    ensures Sound(threads[i := Moved(threads[i])])
  {
    var t := threads[i];
    assert NeutralFrom(t.todo, t.held, 0);
    forall m | m in Moved(t).held ensures m in t.held || t.todo[0] == Acquire(m) {
    }
  }

  /** In every reachable state no mutex has two holders and every thread still keeps the order. */
  lemma {:induction false} RunIsSound(states: seq<seq<Thread>>, schedule: seq<nat>, n: nat)
    requires IsRun(states, schedule) && n <= |schedule|
    ensures Sound(states[n])
  {
    if n == 0 {
      forall i | 0 <= i < |states[0]| ensures NeutralFrom(states[0][i].todo, states[0][i].held, 0) {
        var codes :| states[0][i] == Thread(Program(codes), []);
        ProgramNeutral(codes);
      }
    } else {
      RunIsSound(states, schedule, n - 1);
      MoveKeepsSound(states[n - 1], schedule[n - 1]);
    }
  }

  // ---------- No deadlock ----------

  /** Thread `i` waits for a mutex that thread `j` holds. */
  predicate WaitsFor(threads: seq<Thread>, i: nat, j: nat) {
    && i < |threads| && j < |threads|
    && threads[i].todo != [] && threads[i].todo[0].Acquire?
    && threads[i].todo[0].m in threads[j].held
  }

  lemma WaitingClimbs(threads: seq<Thread>, i: nat, j: nat, k: nat)
    requires Sound(threads) && WaitsFor(threads, i, j) && WaitsFor(threads, j, k)
    ensures i != j
    ensures Rank(threads[i].todo[0].m) < Rank(threads[j].todo[0].m)
  {
    assert NeutralFrom(threads[i].todo, threads[i].held, 0);
    assert NeutralFrom(threads[j].todo, threads[j].held, 0);
  }

  lemma {:induction false} ChainClimbs(threads: seq<Thread>, chain: seq<nat>, n: nat)
    requires Sound(threads) && 1 <= n < |chain| - 1
    requires forall k :: 0 <= k < |chain| - 1 ==> WaitsFor(threads, chain[k], chain[k + 1])
    ensures WaitsFor(threads, chain[0], chain[1]) && WaitsFor(threads, chain[n], chain[n + 1])
    ensures Rank(threads[chain[0]].todo[0].m) < Rank(threads[chain[n]].todo[0].m)
  {
    WaitingClimbs(threads, chain[n - 1], chain[n], chain[n + 1]);
    if n > 1 {
      ChainClimbs(threads, chain, n - 1);
    }
  }

  /** No reachable state has threads waiting for one another in a circle, of any length. */
  lemma NoWaitCycle(states: seq<seq<Thread>>, schedule: seq<nat>, n: nat, chain: seq<nat>)
    requires IsRun(states, schedule) && n <= |schedule|
    requires |chain| >= 2
    requires forall k :: 0 <= k < |chain| - 1 ==> WaitsFor(states[n], chain[k], chain[k + 1])
    ensures chain[0] != chain[|chain| - 1]
  {
    RunIsSound(states, schedule, n);
    var threads := states[n];
    assert WaitsFor(threads, chain[0], chain[1]);
    if chain[0] == chain[|chain| - 1] {
      var around := chain + [chain[1]];
      forall k | 0 <= k < |around| - 1 ensures WaitsFor(threads, around[k], around[k + 1]) {
        assert k < |chain| - 1 ==> WaitsFor(threads, chain[k], chain[k + 1]);
      }
      ChainClimbs(threads, around, |chain| - 1);
    }
  }

  lemma {:induction false} Unblocked(threads: seq<Thread>, i: nat) returns (j: nat)
    requires Sound(threads) && i < |threads| && threads[i].todo != []
    ensures j < |threads| && CanMove(threads, j)
    decreases if threads[i].todo[0].Acquire? then 5 - Rank(threads[i].todo[0].m) else 0
  {
    if CanMove(threads, i) {
      return i;
    }
    var k :| 0 <= k < |threads| && threads[i].todo[0].m in threads[k].held;
    assert NeutralFrom(threads[i].todo, threads[i].held, 0);
    assert NeutralFrom(threads[k].todo, threads[k].held, 0);
    j := Unblocked(threads, k);
  }

  /** While any thread has work left, in any reachable state, some thread can take its next step. */
  lemma SomeThreadMoves(states: seq<seq<Thread>>, schedule: seq<nat>, n: nat)
    requires IsRun(states, schedule) && n <= |schedule|
    requires exists i :: 0 <= i < |states[n]| && states[n][i].todo != []
    ensures exists j: nat :: j < |states[n]| && CanMove(states[n], j)
  {
    RunIsSound(states, schedule, n);
    var i :| 0 <= i < |states[n]| && states[n][i].todo != [];
    var j := Unblocked(states[n], i);
  }
}
