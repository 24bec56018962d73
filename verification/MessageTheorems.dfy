/** Messages over whole runs: one fate each, in order, delivered in full when the flush is answered. */
module MessageTheorems {
  import opened RecorderTypes
  import opened MessageFlow
  import opened RecorderState
  import opened WriterSteps
  import opened ExecutorSteps
  import opened FlowInvariant
  import opened BagInvariant
  import opened DrainInvariant
  import opened Runs

  // ---------- One fate each ----------

  lemma {:induction false} IncreasingOnce(items: seq<QueuedMessage>, m: QueuedMessage)
    requires Increasing(items)
    ensures multiset(items)[m] == if m in items then 1 else 0
    decreases |items|
  {
    if items != [] {
      var front, last := items[..|items| - 1], items[|items| - 1];
      IncreasingOnce(front, m);
      assert items == front + [last];
      assert forall i :: 0 <= i < |front| ==> front[i].data.id < last.data.id;
    }
  }

  /** How many places hold a message: dropped, queued, in the writer's hands, handled or abandoned. */
  ghost function Places(s: Recorder, m: QueuedMessage): nat {
    multiset(s.past.dropped)[m] + multiset(s.queue.items)[m] + multiset(s.thread.batch)[m]
    + multiset(Msgs(s.past.handled))[m] + multiset(s.past.abandoned)[m]
  }

  lemma PlacesOfLine(s: Recorder, m: QueuedMessage)
    requires ConserveOk(s.past, s.thread, s.queue)
    ensures multiset(s.past.received)[m] == Places(s, m)
  {
    var handled, batch, items := Msgs(s.past.handled), s.thread.batch, s.queue.items;
    assert multiset(Line(s.past, s.thread, s.queue)) == multiset(handled) + multiset(batch) + multiset(items);
  }

  /** A message received while recording is in exactly one place; any other message is in none. */
  lemma ExactlyOneFate(s: Recorder, m: QueuedMessage)
    requires Reachable(s)
    ensures Places(s, m) == if m in s.past.received then 1 else 0
  {
    ReachableLine(s);
    PlacesOfLine(s, m);
    IncreasingOnce(s.past.received, m);
  }

  /** And no message is handled twice, so it is written to at most one bag, once. */
  lemma HandledOnce(s: Recorder, i: nat, j: nat)
    requires Reachable(s) && i < j < |s.past.handled|
    ensures s.past.handled[i].msg != s.past.handled[j].msg
  {
    ReachableLine(s);
    HandledIncreasing(s);
    assert Msgs(s.past.handled)[i].data.id < Msgs(s.past.handled)[j].data.id;
  }

  lemma HandledIncreasing(s: Recorder)
    requires OrderOk(s.past, s.thread, s.queue)
    ensures Increasing(Msgs(s.past.handled))
  {
    var line, handled := Line(s.past, s.thread, s.queue), Msgs(s.past.handled);
    assert forall i :: 0 <= i < |handled| ==> handled[i] == line[i];
  }

  // ---------- Order ----------

  lemma ReachableBooks(s: Recorder)
    requires Reachable(s)
    ensures LineOk(s.past, s.thread, s.queue) && BagOk(s.past, s.sink, s.exec)
  {
    ReachableLine(s);
    ReachableBags(s);
  }

  function BagAt(s: Recorder, n: nat): Bag
    requires n < Bound(s.past, s.sink)
  {
    if n < |s.past.closed| then s.past.closed[n] else s.sink.writer.value
  }

  lemma BagAtOk(s: Recorder, n: nat)
    requires BagOk(s.past, s.sink, s.exec) && n < Bound(s.past, s.sink)
    ensures BagMatches(BagAt(s, n), s.past.handled, n) && BornOk(BagAt(s, n))
    ensures n in s.past.exits && n < |s.past.closed| ==> Complete(BagAt(s, n))
  {
    if n < |s.past.closed| {
      assert BagMatches(s.past.closed[n], s.past.handled, n) && BornOk(s.past.closed[n]);
    }
  }

  lemma HandledAccepted(s: Recorder, i: nat)
    requires ConserveOk(s.past, s.thread, s.queue) && i < |s.past.handled|
    ensures s.past.handled[i].msg in s.past.accepted
  {
    var line, m := Line(s.past, s.thread, s.queue), s.past.handled[i].msg;
    assert line[i] == m;
    assert m in multiset(s.past.accepted);
  }

  lemma {:induction false} LiveEntriesAreMessages(handled: seq<Handled>, n: nat)
    ensures |LiveEntries(handled, n)| == |LiveMessages(handled, n)|
    ensures forall k :: 0 <= k < |LiveEntries(handled, n)| ==>
      LiveEntries(handled, n)[k].data == LiveMessages(handled, n)[k].data
      && LiveEntries(handled, n)[k].time == LiveMessages(handled, n)[k].stamp
    decreases |handled|
  {
    if handled != [] {
      LiveEntriesAreMessages(handled[..|handled| - 1], n);
    }
  }

  lemma LiveSubsequence(s: Recorder, n: nat)
    requires LineOk(s.past, s.thread, s.queue)
    ensures IsSubsequence(LiveMessages(s.past.handled, n), s.past.accepted)
  {
    var handled := s.past.handled;
    HandledIncreasing(s);
    LiveIncreasing(handled, n);
    forall m | m in LiveMessages(handled, n) ensures m in s.past.accepted {
      var i := LiveComesFrom(handled, n, m);
      HandledAccepted(s, i);
    }
    IncreasingSubset(LiveMessages(handled, n), s.past.accepted);
  }

  /** After its head, every bag holds a subsequence of the accepted messages, in order, payload and stamp intact. */
  lemma LivePartInOrder(s: Recorder, n: nat)
    requires Reachable(s) && n < Bound(s.past, s.sink)
    ensures var bag, live := BagAt(s, n), LiveMessages(s.past.handled, n);
      && IsSubsequence(live, s.past.accepted)
      && |bag.entries| == bag.headLength + |live|
      && forall k :: 0 <= k < |live| ==>
        bag.entries[bag.headLength + k].data == live[k].data && bag.entries[bag.headLength + k].time == live[k].stamp
  {
    ReachableBooks(s);
    LiveSubsequence(s, n);
    BagAtOk(s, n);
    MatchesInOrder(BagAt(s, n), s.past.handled, n);
  }

  lemma MatchesInOrder(bag: Bag, handled: seq<Handled>, n: nat)
    requires BagMatches(bag, handled, n)
    ensures |bag.entries| == bag.headLength + |LiveMessages(handled, n)|
    ensures forall k :: 0 <= k < |LiveMessages(handled, n)| ==>
      && bag.entries[bag.headLength + k].data == LiveMessages(handled, n)[k].data
      && bag.entries[bag.headLength + k].time == LiveMessages(handled, n)[k].stamp
  {
    LiveEntriesAreMessages(handled, n);
  }

  // ---------- Delivery ----------

  function InTime(handled: seq<Handled>, episode: nat): nat
    decreases |handled|
  {
    if handled == [] then 0
    else
      var last := handled[|handled| - 1];
      InTime(handled[..|handled| - 1], episode)
      + (if last.msg.episode == episode && InBag(last, episode) then 1 else 0)
  }

  lemma {:induction false} HandledSplit(handled: seq<Handled>, episode: nat)
    ensures |OfEpisode(Msgs(handled), episode)| == InTime(handled, episode) + LateHandled(handled, episode)
    decreases |handled|
  {
    if handled != [] {
      var front, last := handled[..|handled| - 1], handled[|handled| - 1];
      HandledSplit(front, episode);
      assert Msgs(handled) == Msgs(front) + [last.msg];
      OfEpisodeStep(Msgs(front), last.msg, episode);
    }
  }

  lemma OfEpisodeWithout(b: seq<QueuedMessage>, j: nat, episode: nat)
    requires j < |b|
    ensures |OfEpisode(b, episode)|
         == |OfEpisode(b[..j] + b[j + 1..], episode)| + (if b[j].episode == episode then 1 else 0)
  {
    assert b == (b[..j] + [b[j]]) + b[j + 1..];
    OfEpisodeConcat(b[..j] + [b[j]], b[j + 1..], episode);
    OfEpisodeStep(b[..j], b[j], episode);
    OfEpisodeConcat(b[..j], b[j + 1..], episode);
  }

  lemma WithoutOne(a: seq<QueuedMessage>, b: seq<QueuedMessage>) returns (j: nat)
    requires a != [] && multiset(a) == multiset(b)
    ensures j < |b| && b[j] == a[|a| - 1]
    ensures multiset(a[..|a| - 1]) == multiset(b[..j] + b[j + 1..])
  {
    var front, last := a[..|a| - 1], a[|a| - 1];
    assert a == front + [last];
    assert last in multiset(b);
    j :| 0 <= j < |b| && b[j] == last;
    var rest := b[..j] + b[j + 1..];
    assert b == b[..j] + [last] + b[j + 1..];
    assert multiset(front) == multiset(a) - multiset{last};
    assert multiset(rest) == multiset(b) - multiset{last};
  }

  lemma {:induction false} CountByMultiset(a: seq<QueuedMessage>, b: seq<QueuedMessage>, episode: nat)
    requires multiset(a) == multiset(b)
    ensures |OfEpisode(a, episode)| == |OfEpisode(b, episode)|
    decreases |a|
  {
    if a == [] {
      assert |multiset(b)| == |b|;
    } else {
      var j := WithoutOne(a, b);
      CountByMultiset(a[..|a| - 1], b[..j] + b[j + 1..], episode);
      OfEpisodeWithout(b, j, episode);
    }
  }

  lemma EpisodeCount(p: Past, w: WriterThread, q: Queue, n: nat)
    requires ConserveOk(p, w, q)
    ensures |OfEpisode(p.accepted, n)| ==
      InTime(p.handled, n) + Outstanding(p, w, n) + |OfEpisode(q.items, n)| + |OfEpisode(p.abandoned, n)|
  {
    CountByMultiset(p.accepted, Line(p, w, q) + p.abandoned, n);
    OfEpisodeConcat(Line(p, w, q), p.abandoned, n);
    OfEpisodeConcat(Msgs(p.handled) + w.batch, q.items, n);
    OfEpisodeConcat(Msgs(p.handled), w.batch, n);
    HandledSplit(p.handled, n);
  }

  lemma QueueOfOther(q: Queue, n: nat, open: nat)
    requires forall i :: 0 <= i < |q.items| ==> q.items[i].episode == open
    requires n == open ==> q.items == []
    ensures OfEpisode(q.items, n) == []
  {
    AllOfEpisode(q.items, open, n);
  }

  /**
    The books of an episode whose drain wait is over: accepted is in time, plus a remainder of at most
    the batch that was in the writer's hands, plus what a timeout threw away.
   */
  lemma EpisodeBooks(s: Recorder, n: nat)
    requires Reachable(s) && n in s.past.exits
    ensures var x := s.past.exits[n];
      && |OfEpisode(s.past.accepted, n)| == InTime(s.past.handled, n) + Outstanding(s.past, s.thread, n) + x.lost
      && Outstanding(s.past, s.thread, n) <= x.inHand <= 256
      && (x.kind.ByFlush? ==> x.inHand == 0)
      && (!x.kind.ByTimeout? ==> x.lost == 0)
  {
    ReachableLine(s);
    ReachableBags(s);
    ReachableDrain(s);
    ReachableControl(s);
    EpisodeCount(s.past, s.thread, s.queue, n);
    QueueOfOther(s.queue, n, |s.past.closed|);
    assert ExitOk(s.past.exits[n]);
  }

  /** With the flush answered, every message accepted in the episode met the episode's own bag. */
  lemma FlushDelivers(s: Recorder, n: nat)
    requires Reachable(s) && n in s.past.exits && s.past.exits[n].kind.ByFlush?
    ensures InTime(s.past.handled, n) == |OfEpisode(s.past.accepted, n)|
    ensures forall k :: 0 <= k < |s.past.handled| && s.past.handled[k].msg.episode == n ==> InBag(s.past.handled[k], n)
  {
    EpisodeBooks(s, n);
    forall k | 0 <= k < |s.past.handled| && s.past.handled[k].msg.episode == n ensures InBag(s.past.handled[k], n) {
      if !InBag(s.past.handled[k], n) {
        SomeLate(s.past.handled, k, n);
      }
    }
  }

  /**
    The comment at the drain promises that everything handed over is written before the bag closes.
    That holds of an episode exactly when, at the moment its bag is closed, the writer holds none of its
    messages and no timeout has thrown any away.
   */
  lemma DrainedIffNothingHeld(s: Recorder)
    requires Reachable(s) && FinishEnabled(s, CloseBag)
    ensures var n := |s.past.closed|;
      && n in s.past.exits
      && (InTime(s.past.handled, n) == |OfEpisode(s.past.accepted, n)| <==>
            OfEpisode(s.thread.batch, n) == [] && s.past.exits[n].lost == 0)
  {
    ReachableBags(s);
    ReachableDrain(s);
    EpisodeBooks(s, |s.past.closed|);
    NoneLate(s.past.handled, |s.past.closed|, Bound(s.past, s.sink));
  }

  /** And from then on the episode's share of its bag never changes. */
  lemma ClosedBagFrozen(s: Recorder, a: Action, n: nat)
    requires Enabled(s, a) && n < |s.past.closed|
    ensures var s' := Step(s, a);
      InTime(s'.past.handled, n) == InTime(s.past.handled, n) && s'.past.closed[n].entries == s.past.closed[n].entries
  {
    match a
    case Writer(writer) => WriterFrozen(s, writer, n);
    case Life(life) => LifeFrozen(s, life, n);
    case Start(start) => StartFrozen(s, start, n);
    case Run(run) => RunFrozen(s, run);
    case Finish(finish) => FinishFrozen(s, finish, n);
    case CancelLands(_) =>
  }

  lemma LifeFrozen(s: Recorder, a: LifeAction, n: nat)
    requires LifeEnabled(s, a) && n < |s.past.closed|
    ensures LifeStep(s, a).past.handled == s.past.handled && LifeStep(s, a).past.closed[n] == s.past.closed[n]
  {
  }

  lemma StartFrozen(s: Recorder, a: StartAction, n: nat)
    requires StartEnabled(s, a) && n < |s.past.closed|
    ensures StartStep(s, a).past.handled == s.past.handled && StartStep(s, a).past.closed[n] == s.past.closed[n]
  {
  }

  lemma RunFrozen(s: Recorder, a: RunAction)
    requires RunEnabled(s, a)
    ensures RunStep(s, a).past.handled == s.past.handled && RunStep(s, a).past.closed == s.past.closed
  {
  }

  lemma FinishFrozen(s: Recorder, a: FinishAction, n: nat)
    requires FinishEnabled(s, a) && n < |s.past.closed|
    ensures FinishStep(s, a).past.handled == s.past.handled
    ensures FinishStep(s, a).past.closed[n].entries == s.past.closed[n].entries
  {
  }

  lemma WriterFrozen(s: Recorder, a: WriterAction, n: nat)
    requires WriterEnabled(s, a) && n < |s.past.closed|
    ensures InTime(WriterStep(s, a).past.handled, n) == InTime(s.past.handled, n)
    ensures WriterStep(s, a).past.closed == s.past.closed
  {
    var before, after := s.past.handled, WriterStep(s, a).past.handled;
    if a.Lock? && s.sink.writer.None? {
      DiscardedNotInTime(before, s.thread.batch, n);
    } else if after != before {
      assert after[..|after| - 1] == before;
    }
  }

  lemma {:induction false} DiscardedNotInTime(handled: seq<Handled>, batch: seq<QueuedMessage>, n: nat)
    ensures InTime(handled + Discarded(batch), n) == InTime(handled, n)
    decreases |batch|
  {
    var all := handled + Discarded(batch);
    if batch == [] {
      assert all == handled;
    } else {
      var front, last := batch[..|batch| - 1], batch[|batch| - 1];
      var before := handled + Discarded(front);
      DiscardedNotInTime(handled, front, n);
      assert all == before + [Handled(last, NoBag)];
      assert all[..|all| - 1] == before;
    }
  }

  /** An episode with no failed write, whose drain wait ended with nothing outstanding. */
  ghost predicate CleanEpisode(p: Past, n: nat) {
    && n in p.exits && p.exits[n].inHand == 0 && p.exits[n].lost == 0
    && forall i :: 0 <= i < |p.handled| && p.handled[i].msg.episode == n ==> !p.handled[i].fate.WriteFailed?
  }

  lemma CleanHandled(p: Past, w: WriterThread, e: Exec, n: nat, k: nat)
    requires DrainOk(p, w, e) && CleanEpisode(p, n) && k < |p.handled| && p.handled[k].msg.episode == n
    ensures WrittenTo(p.handled[k], n)
  {
    if Late(p.handled[k], n) {
      SomeLate(p.handled, k, n);
    }
  }

  lemma NotOutstanding(p: Past, w: WriterThread, e: Exec, m: QueuedMessage)
    requires DrainOk(p, w, e) && CleanEpisode(p, m.episode)
    ensures m !in w.batch && m !in p.abandoned
  {
    var n := m.episode;
    assert |OfEpisode(p.abandoned, n)| == 0 && Outstanding(p, w, n) == 0;
    OfEpisodeMembers(p.abandoned, n);
    OfEpisodeMembers(w.batch, n);
  }

  lemma AcceptedIsHandled(p: Past, w: WriterThread, q: Queue, e: Exec, m: QueuedMessage) returns (i: nat)
    requires ConserveOk(p, w, q) && DrainOk(p, w, e) && CleanEpisode(p, m.episode)
    requires m in p.accepted && m !in q.items
    ensures i < |p.handled| && p.handled[i].msg == m
  {
    var line := Line(p, w, q);
    NotOutstanding(p, w, e, m);
    assert m in multiset(p.accepted);
    assert m in multiset(line) && m in line;
    assert m in Msgs(p.handled);
    i :| 0 <= i < |p.handled| && Msgs(p.handled)[i] == m;
  }

  lemma ReachableDelivery(s: Recorder, n: nat)
    requires Reachable(s) && n in s.past.exits
    ensures LineOk(s.past, s.thread, s.queue) && DrainOk(s.past, s.thread, s.exec)
    ensures forall i :: 0 <= i < |s.queue.items| ==> s.queue.items[i].episode != n
  {
    ReachableLine(s);
    ReachableDrain(s);
    ReachableBags(s);
    ReachableControl(s);
  }

  /**
    From the end of a clean episode's drain wait on, whatever other episodes do, what its bag holds of the
    episode is exactly what the episode accepted, in order.
   */
  lemma ExactDelivery(s: Recorder, n: nat)
    requires Reachable(s) && CleanEpisode(s.past, n)
    ensures OfEpisode(LiveMessages(s.past.handled, n), n) == OfEpisode(s.past.accepted, n)
  {
    ReachableDelivery(s, n);
    HandledIncreasing(s);
    var p, live := s.past, LiveMessages(s.past.handled, n);
    LiveIncreasing(p.handled, n);
    OfEpisodeMembers(live, n);
    OfEpisodeMembers(p.accepted, n);
    forall m ensures m in OfEpisode(live, n) <==> m in OfEpisode(p.accepted, n) {
      if m in OfEpisode(live, n) {
        var i := LiveComesFrom(p.handled, n, m);
        HandledAccepted(s, i);
      }
      if m in OfEpisode(p.accepted, n) {
        var i := AcceptedIsHandled(p, s.thread, s.queue, s.exec, m);
        CleanHandled(p, s.thread, s.exec, n, i);
        LiveContains(p.handled, n, i);
      }
    }
    IncreasingSameSet(OfEpisode(live, n), OfEpisode(p.accepted, n));
  }

  /** A message of a clean episode reaches that episode's bag and no other. */
  lemma CleanStaysHome(s: Recorder, n: nat, i: nat)
    requires Reachable(s) && CleanEpisode(s.past, n) && i < |s.past.handled| && s.past.handled[i].msg.episode == n
    ensures WrittenTo(s.past.handled[i], n)
  {
    ReachableDelivery(s, n);
    CleanHandled(s.past, s.thread, s.exec, n, i);
  }

  lemma LiveEarlier(s: Recorder, n: nat, m: QueuedMessage)
    requires Reachable(s) && m in LiveMessages(s.past.handled, n)
    ensures m.episode <= n && (m.episode == |s.past.closed| || m.episode in s.past.exits)
    ensures m in s.past.accepted
  {
    ReachableLine(s);
    ReachableBags(s);
    ReachableDrain(s);
    var i := LiveComesFrom(s.past.handled, n, m);
    HandledAccepted(s, i);
    assert HandledOk(s.past.handled[i], |s.past.closed|, Bound(s.past, s.sink));
    var a :| 0 <= a < |s.past.accepted| && s.past.accepted[a] == m;
  }

  lemma NoneAccepted(s: Recorder, n: nat)
    requires Reachable(s) && n < |s.past.closed| && n !in s.past.exits
    ensures OfEpisode(s.past.accepted, n) == []
  {
    ReachableDrain(s);
    NoneOfOther(s.past.accepted, n);
  }

  lemma LiveHome(s: Recorder, n: nat, m: QueuedMessage)
    requires Reachable(s) && n < |s.past.closed| && m in LiveMessages(s.past.handled, n)
    requires forall k :: k in s.past.exits && k <= n ==> CleanEpisode(s.past, k)
    ensures m.episode == n && n in s.past.exits
  {
    LiveEarlier(s, n, m);
    var k := LiveComesFrom(s.past.handled, n, m);
    CleanStaysHome(s, m.episode, k);
  }

  /** When the episodes up to a closed bag were clean, its live part is what its own accepted, and nothing else. */
  lemma WholeLivePart(s: Recorder, n: nat)
    requires Reachable(s) && n < |s.past.closed|
    requires forall k :: k in s.past.exits && k <= n ==> CleanEpisode(s.past, k)
    ensures LiveMessages(s.past.handled, n) == OfEpisode(s.past.accepted, n)
  {
    var live := LiveMessages(s.past.handled, n);
    if n in s.past.exits {
      forall i | 0 <= i < |live| ensures live[i].episode == n {
        LiveHome(s, n, live[i]);
      }
      AllOfEpisode(live, n, n);
      ExactDelivery(s, n);
    } else {
      NoneAccepted(s, n);
      if live != [] {
        LiveHome(s, n, live[0]);
      }
    }
  }
}
