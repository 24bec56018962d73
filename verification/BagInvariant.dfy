/** What the bags contain, in every reachable state. */
module BagInvariant {
  import opened RecorderTypes
  import opened TopicTable
  import opened LatchedBuffers
  import opened MessageFlow
  import opened RecorderState
  import opened ControlInvariant

  // ---------- Episode numbers ----------

  /** One past the newest bag, the open one included. */
  function Bound(p: Past, k: Sink): nat {
    |p.closed| + (if k.writer.Some? then 1 else 0)
  }

  predicate InBag(x: Handled, bag: nat) {
    (x.fate.Written? || x.fate.WriteFailed?) && x.fate.bag == bag
  }

  /** A message reaches the bag of its own episode or a later one; in time means its own. */
  predicate HandledOk(x: Handled, open: nat, bound: nat) {
    && x.msg.episode < bound
    && (x.fate.NoBag? || x.msg.episode <= x.fate.bag < bound)
    && (x.fate.BadIndex? ==> x.msg.episode < x.fate.bag)
    && (x.msg.episode == open ==> InBag(x, open))
  }

  predicate AllBelow(items: seq<QueuedMessage>, bound: nat) {
    forall i :: 0 <= i < |items| ==> items[i].episode < bound
  }

  predicate TagOk(p: Past, w: WriterThread, q: Queue, k: Sink) {
    var n, bound := |p.closed|, Bound(p, k);
    && (forall i :: 0 <= i < |q.items| ==> q.items[i].episode == n)
    && AllBelow(w.batch, bound)
    && (forall i :: 0 <= i < |p.handled| ==> HandledOk(p.handled[i], n, bound))
    && AllBelow(p.accepted, bound) && AllBelow(p.dropped, bound) && AllBelow(p.abandoned, bound)
  }

  // ---------- Names ----------

  predicate TableOk(t: Table) {
    ValidTable(t) && AllLatched(t.topics)
  }

  /** A message of the open bag's episode holds the position of the topic that delivered it. */
  predicate Deliverable(m: QueuedMessage, open: nat, topics: seq<TopicState>) {
    m.episode == open ==> m.topic < |topics| && topics[m.topic].spec.topic == m.data.source
  }

  predicate AllDeliverable(items: seq<QueuedMessage>, open: nat, topics: seq<TopicState>) {
    forall i :: 0 <= i < |items| ==> Deliverable(items[i], open, topics)
  }

  predicate NameOk(p: Past, w: WriterThread, q: Queue, k: Sink, t: Table, e: Exec) {
    var n, topics := |p.closed|, t.topics;
    && AllDeliverable(w.batch, n, topics)
    && AllDeliverable(q.items, n, topics)
    && (w.pc.Looked? ==>
      w.batch != [] && w.batch[0].topic < |topics| && w.pc.name == topics[w.batch[0].topic].spec.topic)
    && (w.pc.Stored? || w.pc.Counted? ==> w.pc.topic < |topics|)
    && (k.writer.Some? ==> k.writer.value.registered == Names(topics))
    && (e.pc.Opened? ==> e.pc.registered == Names(topics))
  }

  // ---------- Contents ----------

  /** What a bag was opened with: sound buffers, and a registration of every topic of the table. */
  predicate BornOk(b: Bag) {
    AllLatched(b.origin) && b.registered == Names(b.origin)
  }

  /** The flushed part of the head, then the messages written to this bag, in the order of writing. */
  predicate BagMatches(b: Bag, handled: seq<Handled>, number: nat) {
    var head := HeadEntries(b.origin, b.start);
    && b.headLength <= |head|
    && b.entries == head[..b.headLength] + LiveEntries(handled, number)
  }

  predicate AllMatch(closed: seq<Bag>, handled: seq<Handled>) {
    forall i :: 0 <= i < |closed| ==> BagMatches(closed[i], handled, i)
  }

  predicate Complete(b: Bag) {
    b.headLength == |HeadEntries(b.origin, b.start)|
  }

  predicate BagOk(p: Past, k: Sink, e: Exec) {
    var n := |p.closed|;
    && AllMatch(p.closed, p.handled)
    && (forall i :: 0 <= i < n ==> BornOk(p.closed[i]))
    && (k.writer.Some? ==> BornOk(k.writer.value) && BagMatches(k.writer.value, p.handled, n))
    && (k.writer.Some? && BagNeeded(e) ==> Complete(k.writer.value))
    && (forall i :: i in p.exits && i < n ==> Complete(p.closed[i]))
    && (e.pc.Destroying? || e.pc.Reporting? ==> n > 0)
    && (forall i :: i in p.exits ==> i <= n && (i == n ==> e.pc.Closing?))
  }

  /** The name a message was written under is registered, and is the topic that delivered it. */
  predicate NamedOk(x: Handled, registered: seq<string>) {
    x.fate.Written? ==>
      && x.fate.name in registered
      && (x.msg.episode == x.fate.bag ==> x.fate.name == x.msg.data.source)
  }

  function RegisteredIn(p: Past, k: Sink, number: nat): seq<string>
    requires number < Bound(p, k)
  {
    if number < |p.closed| then p.closed[number].registered else k.writer.value.registered
  }

  predicate HandledNamedOk(p: Past, k: Sink) {
    forall i :: 0 <= i < |p.handled| && p.handled[i].fate.Written? ==>
      p.handled[i].fate.bag < Bound(p, k) && NamedOk(p.handled[i], RegisteredIn(p, k, p.handled[i].fate.bag))
  }

  predicate Bags(s: Recorder) {
    && TableOk(s.table)
    && TagOk(s.past, s.thread, s.queue, s.sink)
    && NameOk(s.past, s.thread, s.queue, s.sink, s.table, s.exec)
    && BagOk(s.past, s.sink, s.exec)
    && HandledNamedOk(s.past, s.sink)
  }

  lemma InitialBags(defaultLimit: int)
    ensures Bags(Initial(defaultLimit))
  {
  }

  // ---------- The topic table ----------

  lemma CountOneKeepsTable(t: Table, i: nat)
    requires TableOk(t)
    ensures TableOk(t.(topics := CountOne(t.topics, i))) && Names(CountOne(t.topics, i)) == Names(t.topics)
    ensures SameShape(t.topics, CountOne(t.topics, i))
  {
    ShapeKeepsTable(t, t.(topics := CountOne(t.topics, i)));
  }

  lemma EmptyTopicsLatched(topics: seq<TopicState>, n: nat)
    requires n <= |topics| && AllLatched(topics[..n])
    requires forall i :: n <= i < |topics| ==> topics[i].buffer == [] && topics[i].seen == []
    ensures AllLatched(topics)
  {
    forall i | 0 <= i < |topics| ensures Latched(topics[i]) {
      if i < n { assert topics[..n][i] == topics[i]; }
    }
  }

  lemma ConfigureTableOk(specs: seq<RecordTopic>)
    requires forall i :: 0 <= i < |specs| ==> ContractTopic(specs[i])
    ensures TableOk(AddAll(EMPTY, specs, false))
  {
    AddAllValid(EMPTY, specs, false);
    AddAllExtends(EMPTY, specs, false);
    EmptyTopicsLatched(AddAll(EMPTY, specs, false).topics, 0);
  }

  lemma StartTableOk(t: Table, found: seq<RecordTopic>)
    requires TableOk(t)
    ensures var d := Discover(t, found); TableOk(d.(topics := Resubscribe(d.topics)))
  {
    var d := Discover(t, found);
    DiscoverValid(t, found);
    AddAllExtends(t, UnbufferedAll(found), true);
    assert d.topics[..|t.topics|] == t.topics;
    EmptyTopicsLatched(d.topics, |t.topics|);
    ResubscribeLatched(d);
    ShapeKeepsTable(d, d.(topics := Resubscribe(d.topics)));
  }

  lemma ResetKeepsTable(t: Table, n: nat)
    requires TableOk(t)
    ensures TableOk(t.(topics := ResetWritten(t.topics, n))) && Names(ResetWritten(t.topics, n)) == Names(t.topics)
  {
    ShapeKeepsTable(t, t.(topics := ResetWritten(t.topics, n)));
  }

  lemma FlushKeepsTable(t: Table, n: nat)
    requires TableOk(t)
    ensures TableOk(t.(topics := FlushCounts(t.topics, n))) && Names(FlushCounts(t.topics, n)) == Names(t.topics)
  {
    FlushKeepsTopics(t.topics, n);
    ShapeKeepsTable(t, t.(topics := FlushCounts(t.topics, n)));
  }

  lemma DestroyKeepsTable(t: Table)
    requires TableOk(t)
    ensures TableOk(DestroyDiscovered(t))
  {
    DestroyRestoresContract(t);
  }

  lemma IdleKeepsTable(t: Table, index: nat, msg: BufferedMessage)
    requires TableOk(t)
    ensures TableOk(t.(topics := IdleMessage(t.topics, index, msg)))
    ensures Names(IdleMessage(t.topics, index, msg)) == Names(t.topics)
    ensures SameShape(t.topics, IdleMessage(t.topics, index, msg))
  {
    IdleMessageLatched(t.topics, index, msg);
    ShapeKeepsTable(t, t.(topics := IdleMessage(t.topics, index, msg)));
  }
}
